/**
 * Tab and cluster bookkeeping of `MultiTabConsciousnessManager`
 * (app/browser/multitab_consciousness.py): registering a tab, creating a cluster
 * of tabs with a primary tab chosen by priority, and the default worker count of
 * parallel processing.
 *
 * Playwright pages, `uuid.uuid4()`, `urlparse` and the helper coroutines whose
 * bodies are not shown are outside this model: their results are parameters.
 * The networkx graph is its node set and its labelled edges.
 */
module MultiTab {
  import opened Wrappers
  import Decimal

  /** Label of the edge from a cluster to each of its member tabs. */
  const ClusterMemberRelation: string := "cluster_member"

  /** `max_concurrent_tabs` when the configuration does not set it. */
  const DefaultMaxConcurrentTabs: int := 20

  /** Prefix of the name given to a cluster created without one. */
  const ClusterNamePrefix: string := "Cluster_"

  datatype ConsciousnessMode = Unified | Parallel | Hierarchical | Swarm | Quantum | Transcendent

  /** The tab priorities in declaration order, most urgent first. */
  const Priorities: seq<TabPriority> := [Critical, High, Normal, Low, Background, Dormant]

  /** Tab priorities, most urgent first. */
  datatype TabPriority = Critical | High | Normal | Low | Background | Dormant {

    /**
     * The enum value `auto()` gives: one plus the member's position in declaration
     * order, so 1 for CRITICAL up to 6 for DORMANT.
     */
    function Value(): (v: int)
      ensures 1 <= v <= 6
      ensures Priorities[v - 1] == this
      ensures v == 6 <==> this == Dormant
      ensures v == 1 <==> this == Critical
    {
      match this
      case Critical => 1
      case High => 2
      case Normal => 3
      case Low => 4
      case Background => 5
      case Dormant => 6
    }
  }

  /** What the manager reads from a Playwright page: its URL and its title. */
  datatype Page = Page(url: string, title: string)

  /** The modelled fields of the `TabConsciousness` record. */
  datatype TabConsciousness = TabConsciousness(
    tabId: string,
    url: string,
    title: string,
    domain: string,
    mode: ConsciousnessMode,
    priority: TabPriority)

  /** `TabConsciousness()` with every field at its default; `tabId` is the fresh uuid. */
  function BlankTab(tabId: string): (t: TabConsciousness)
    ensures t.tabId == tabId && t.url == "" && t.title == "" && t.domain == ""
    ensures t.mode == Unified && t.priority == Normal
  {
    TabConsciousness(tabId, "", "", "", Unified, Normal)
  }

  /** The modelled fields of the `ConsciousnessCluster` record. */
  datatype ConsciousnessCluster = ConsciousnessCluster(
    clusterId: string,
    name: string,
    description: string,
    clusterType: string,
    tabIds: set<string>,
    primaryTabId: Option<string>)

  /** `ConsciousnessCluster()` with every field at its default. */
  function BlankCluster(clusterId: string): (c: ConsciousnessCluster)
    ensures c.clusterId == clusterId && c.name == "" && c.description == ""
    ensures c.clusterType == "general" && c.tabIds == {} && c.primaryTabId.None?
  {
    ConsciousnessCluster(clusterId, "", "", "general", {}, None)
  }

  /**
   * `cluster_name or f"Cluster_{n}"`: the given name, or, when it is empty,
   * "Cluster_" followed by the decimal number of clusters that already exist.
   */
  function ClusterName(clusterName: string, existing: nat): (name: string)
    ensures clusterName != "" ==> name == clusterName
    ensures clusterName == "" ==>
      && |name| > |ClusterNamePrefix|
      && name[..|ClusterNamePrefix|] == ClusterNamePrefix
      && Decimal.AllDigits(name[|ClusterNamePrefix|..])
      && Decimal.ToNat(name[|ClusterNamePrefix|..]) == existing
      && name == ClusterNamePrefix + Decimal.FromNat(existing)
  {
    if clusterName != "" then clusterName
    else
      var digits := Decimal.FromNat(existing);
      Decimal.ToNatFromNat(existing);
      assert (ClusterNamePrefix + digits)[|ClusterNamePrefix|..] == digits;
      ClusterNamePrefix + digits
  }

  /** Clusters created without a name get distinct names when the numbers of clusters before them differ. */
  lemma DefaultClusterNamesDistinct(m: nat, n: nat)
    ensures ClusterName("", m) == ClusterName("", n) ==> m == n
  {
    if ClusterName("", m) == ClusterName("", n) {
      assert Decimal.FromNat(m) == ClusterName("", m)[|ClusterNamePrefix|..];
      assert Decimal.FromNat(n) == ClusterName("", n)[|ClusterNamePrefix|..];
      Decimal.FromNatInjective(m, n);
    }
  }

  /**
   * `max_workers or min(len(tasks), max_concurrent_tabs)`: an absent or zero
   * `max_workers` falls back to the smaller of the task count and the tab limit.
   */
  function WorkerCount(maxWorkers: Option<int> := None, taskCount: nat, maxConcurrentTabs: int): (w: int)
    ensures (maxWorkers.None? || maxWorkers == Some(0)) ==>
      && w <= taskCount && w <= maxConcurrentTabs
      && (w == taskCount || w == maxConcurrentTabs)
    ensures (maxWorkers.Some? && maxWorkers.value != 0) ==> w == maxWorkers.value
  {
    if maxWorkers.Some? && maxWorkers.value != 0 then maxWorkers.value
    else if taskCount < maxConcurrentTabs then taskCount
    else maxConcurrentTabs
  }

  /** A tab that can become primary: registered, and not DORMANT. */
  predicate Eligible(tabs: map<string, TabConsciousness>, tabId: string) {
    tabId in tabs && tabs[tabId].priority != Dormant
  }

  /**
   * `ids[i]` is the primary tab of a cluster listing `ids`: an eligible tab whose
   * priority value is at most that of every registered listed tab, and strictly
   * below that of every registered tab listed before it.
   */
  predicate PrimaryAt(tabs: map<string, TabConsciousness>, ids: seq<string>, i: nat)
    requires i < |ids|
  {
    && Eligible(tabs, ids[i])
    && (forall j | 0 <= j < |ids| && ids[j] in tabs ::
          tabs[ids[i]].priority.Value() <= tabs[ids[j]].priority.Value())
    && (forall j | 0 <= j < i && ids[j] in tabs ::
          tabs[ids[i]].priority.Value() < tabs[ids[j]].priority.Value())
  }

  /** `primary` is the primary tab chosen for a cluster listing `ids`. */
  predicate IsPrimaryChoice(tabs: map<string, TabConsciousness>, ids: seq<string>, primary: Option<string>) {
    match primary
    case None => forall i | 0 <= i < |ids| :: !Eligible(tabs, ids[i])
    case Some(t) => exists i | 0 <= i < |ids| :: ids[i] == t && PrimaryAt(tabs, ids, i)
  }

  /** At most one position of the list is the primary one. */
  lemma PrimaryAtUnique(tabs: map<string, TabConsciousness>, ids: seq<string>, i: nat, j: nat)
    requires i < |ids| && j < |ids|
    requires PrimaryAt(tabs, ids, i) && PrimaryAt(tabs, ids, j)
    ensures i == j
  {
  }

  /** The choice of primary tab is determined by the registry and the list. */
  lemma PrimaryChoiceUnique(tabs: map<string, TabConsciousness>, ids: seq<string>, p: Option<string>, q: Option<string>)
    requires IsPrimaryChoice(tabs, ids, p) && IsPrimaryChoice(tabs, ids, q)
    ensures p == q
  {
    forall i: nat, j: nat | i < |ids| && j < |ids| && PrimaryAt(tabs, ids, i) && PrimaryAt(tabs, ids, j)
      ensures i == j
    {
      PrimaryAtUnique(tabs, ids, i, j);
    }
  }

  /** The edges `add_edge(cluster_id, tab_id, relation="cluster_member")` adds for each listed tab. */
  function MemberEdges(clusterId: string, ids: seq<string>): (edges: map<(string, string), string>)
    ensures forall t | t in ids :: (clusterId, t) in edges && edges[(clusterId, t)] == ClusterMemberRelation
    ensures forall e | e in edges :: e.0 == clusterId && e.1 in ids
  {
    map t | t in ids :: (clusterId, t) := ClusterMemberRelation
  }

  /** Every member of `cluster` has a "cluster_member" edge from the cluster. */
  predicate MembersLinked(edges: map<(string, string), string>, cluster: ConsciousnessCluster) {
    forall t | t in cluster.tabIds ::
      (cluster.clusterId, t) in edges && edges[(cluster.clusterId, t)] == ClusterMemberRelation
  }

  /** Listing one more tab adds exactly its membership edge. */
  lemma MemberEdgesSnoc(clusterId: string, ids: seq<string>, t: string)
    ensures MemberEdges(clusterId, ids + [t]) == MemberEdges(clusterId, ids)[(clusterId, t) := ClusterMemberRelation]
  {
  }

  /** The set of ids a list holds, as `set(tab_ids)` builds it. */
  function IdSet(ids: seq<string>): (s: set<string>)
    ensures forall t :: t in s <==> t in ids
  {
    set t | t in ids
  }

  /**
   * The registries are consistent: every tab and cluster sits under its own id,
   * registered tabs are graph nodes, edges join graph nodes, and every cluster
   * has a "cluster_member" edge to each of its tabs.
   */
  ghost predicate Consistent(tabs: map<string, TabConsciousness>, clusters: map<string, ConsciousnessCluster>,
                             nodes: set<string>, edges: map<(string, string), string>)
  {
    && (forall t | t in tabs :: tabs[t].tabId == t)
    && tabs.Keys <= nodes
    && (forall e | e in edges :: e.0 in nodes && e.1 in nodes)
    && (forall c | c in clusters :: clusters[c].clusterId == c && MembersLinked(edges, clusters[c]))
  }

  /** Registering a cluster with its membership edges and their end nodes keeps the registries consistent. */
  lemma AddClusterConsistent(tabs: map<string, TabConsciousness>, clusters: map<string, ConsciousnessCluster>,
                             nodes: set<string>, edges: map<(string, string), string>,
                             cluster: ConsciousnessCluster, ids: seq<string>)
    requires Consistent(tabs, clusters, nodes, edges)
    requires cluster.tabIds == IdSet(ids)
    ensures Consistent(tabs, clusters[cluster.clusterId := cluster],
                       nodes + (if ids == [] then {} else {cluster.clusterId}) + IdSet(ids),
                       edges + MemberEdges(cluster.clusterId, ids))
  {
  }

  /** Failure points of `register_tab_consciousness`, which catches every exception. */
  datatype RegisterOutcome =
    | Completes
      /**
       * reading the page, parsing its URL (`urlparse` raises `ValueError` on a
       * malformed bracketed host) or `_allocate_consciousness_resources` raises
       */
    | RaisesBeforeRegistration
      /** `_initialize_consciousness_stream` or `_store_tab_consciousness` raises */
    | RaisesAfterRegistration

  /**
   * The loop `for tab_id in tab_ids: add_edge(cluster_id, tab_id, relation="cluster_member")`
   * on a graph with nodes `nodes` and edges `edges`: each call adds or relabels one
   * edge and adds its end nodes.
   */
  method LinkMembers(edges: map<(string, string), string>, nodes: set<string>, clusterId: string, tabIds: seq<string>)
    returns (edges': map<(string, string), string>, nodes': set<string>)
    ensures edges' == edges + MemberEdges(clusterId, tabIds)
    ensures nodes' == nodes + (if tabIds == [] then {} else {clusterId}) + IdSet(tabIds)
  {
    edges', nodes' := edges, nodes;
    for i := 0 to |tabIds|
      invariant edges' == edges + MemberEdges(clusterId, tabIds[..i])
      invariant nodes' == nodes + (if i == 0 then {} else {clusterId}) + IdSet(tabIds[..i])
    {
      var tabId := tabIds[i];
      assert tabIds[..i + 1] == tabIds[..i] + [tabId];
      assert edges'[(clusterId, tabId) := ClusterMemberRelation] == edges + MemberEdges(clusterId, tabIds[..i + 1]) by {
        MemberEdgesSnoc(clusterId, tabIds[..i], tabId);
      }
      assert nodes' + {clusterId, tabId} == nodes + {clusterId} + IdSet(tabIds[..i + 1]) by {
        assert IdSet(tabIds[..i + 1]) == IdSet(tabIds[..i]) + {tabId};
      }
      edges' := edges'[(clusterId, tabId) := ClusterMemberRelation];
      nodes' := nodes' + {clusterId, tabId};
    }
    assert tabIds[..|tabIds|] == tabIds;
  }

  /** The manager's registries (`MultiTabConsciousnessManager.__init__`, lines 126-140). */
  class MultiTabConsciousnessManager {
    var tabConsciousnesses: map<string, TabConsciousness>
    var consciousnessClusters: map<string, ConsciousnessCluster>
    /** Nodes of `consciousness_graph`. */
    var graphNodes: set<string>
    /** Edges of `consciousness_graph`, each with its `relation` label. */
    var graphEdges: map<(string, string), string>
    var maxConcurrentTabs: int

    ghost predicate Valid()
      reads this
    {
      Consistent(tabConsciousnesses, consciousnessClusters, graphNodes, graphEdges)
    }

    /** `configMaxConcurrentTabs` is the `max_concurrent_tabs` configuration entry, if any. */
    constructor (configMaxConcurrentTabs: Option<int>)
      ensures Valid()
      ensures tabConsciousnesses == map[] && consciousnessClusters == map[]
      ensures graphNodes == {} && graphEdges == map[]
      ensures maxConcurrentTabs == configMaxConcurrentTabs.GetOr(DefaultMaxConcurrentTabs)
    {
      tabConsciousnesses := map[];
      consciousnessClusters := map[];
      graphNodes := {};
      graphEdges := map[];
      maxConcurrentTabs := configMaxConcurrentTabs.GetOr(DefaultMaxConcurrentTabs);
    }

    /**
     * `register_tab_consciousness`. `tabUuid` is the id the new record draws,
     * `blankUuid` the one a blank record drawn on failure gets, `netloc` stands for
     * `urlparse(url).netloc` and `outcome` says where, if anywhere, a helper raises.
     */
    method RegisterTabConsciousness(page: Page, mode: ConsciousnessMode := Unified, priority: TabPriority := Normal,
                                    tabUuid: string, blankUuid: string, netloc: string -> string,
                                    outcome: RegisterOutcome)
      returns (tab: TabConsciousness)
      requires Valid()
      modifies this
      ensures Valid()
      ensures var registered := TabConsciousness(tabUuid, page.url, page.title, netloc(page.url), mode, priority);
        && (outcome == Completes ==> tab == registered)
        && (outcome != Completes ==> tab == BlankTab(blankUuid))
        && (outcome == RaisesBeforeRegistration ==>
              tabConsciousnesses == old(tabConsciousnesses) && graphNodes == old(graphNodes))
        && (outcome != RaisesBeforeRegistration ==>
              && tabConsciousnesses == old(tabConsciousnesses)[tabUuid := registered]
              && graphNodes == old(graphNodes) + {tabUuid})
      ensures consciousnessClusters == old(consciousnessClusters) && graphEdges == old(graphEdges)
      ensures maxConcurrentTabs == old(maxConcurrentTabs)
    {
      if outcome == RaisesBeforeRegistration {
        return BlankTab(blankUuid);
      }
      var created := TabConsciousness(tabUuid, page.url, page.title, netloc(page.url), mode, priority);

      tabConsciousnesses := tabConsciousnesses[created.tabId := created];
      graphNodes := graphNodes + {created.tabId};

      if outcome == RaisesAfterRegistration {
        return BlankTab(blankUuid);
      }
      tab := created;
    }

    /**
     * The scan of `create_consciousness_cluster` for the primary tab: the best
     * priority so far starts at DORMANT and is replaced only by a strictly smaller
     * value, so ties go to the earlier tab and a DORMANT tab is never chosen.
     */
    method SelectPrimaryTab(tabIds: seq<string>) returns (primary: Option<string>)
      ensures IsPrimaryChoice(tabConsciousnesses, tabIds, primary)
      ensures primary.Some? ==> primary.value in tabIds && primary.value in tabConsciousnesses
      ensures primary.Some? ==> tabConsciousnesses[primary.value].priority != Dormant
      ensures (forall i | 0 <= i < |tabIds| :: tabIds[i] !in tabConsciousnesses) ==> primary.None?
    {
      var tabs := tabConsciousnesses;
      primary := None;
      var highest := Dormant;
      ghost var at: nat := 0;
      for i := 0 to |tabIds|
        invariant primary.None? ==> highest == Dormant && forall j | 0 <= j < i :: !Eligible(tabs, tabIds[j])
        invariant primary.Some? ==>
          && at < i && tabIds[at] == primary.value
          && Eligible(tabs, tabIds[at]) && tabs[tabIds[at]].priority == highest
          && (forall j | at < j < i && tabIds[j] in tabs :: highest.Value() <= tabs[tabIds[j]].priority.Value())
          && (forall j | 0 <= j < at && tabIds[j] in tabs :: highest.Value() < tabs[tabIds[j]].priority.Value())
      {
        var tabId := tabIds[i];
        if tabId in tabs {
          var tab := tabs[tabId];
          if tab.priority.Value() < highest.Value() {
            highest := tab.priority;
            primary := Some(tabId);
            at := i;
          }
        }
      }
      if primary.Some? {
        assert PrimaryAt(tabs, tabIds, at);
      }
    }

    /**
     * `create_consciousness_cluster`. `clusterUuid` is the id the new cluster
     * draws, `blankUuid` the one a blank cluster drawn on failure gets, and
     * `initCompletes` whether `_initialize_cluster_consciousness` returns normally.
     */
    method CreateConsciousnessCluster(tabIds: seq<string>, clusterName: string := "", clusterType: string := "general",
                                      clusterUuid: string, blankUuid: string, initCompletes: bool)
      returns (cluster: ConsciousnessCluster)
      requires Valid()
      modifies this
      ensures Valid()
      ensures initCompletes ==>
        && cluster.clusterId == clusterUuid
        && cluster.name == ClusterName(clusterName, |old(consciousnessClusters)|)
        && cluster.description == "" && cluster.clusterType == clusterType
        && cluster.tabIds == IdSet(tabIds)
        && IsPrimaryChoice(tabConsciousnesses, tabIds, cluster.primaryTabId)
        && consciousnessClusters == old(consciousnessClusters)[clusterUuid := cluster]
        && graphEdges == old(graphEdges) + MemberEdges(clusterUuid, tabIds)
        && graphNodes == old(graphNodes) + (if tabIds == [] then {} else {clusterUuid}) + IdSet(tabIds)
      ensures !initCompletes ==>
        && cluster == BlankCluster(blankUuid)
        && consciousnessClusters == old(consciousnessClusters)
        && graphEdges == old(graphEdges) && graphNodes == old(graphNodes)
      ensures tabConsciousnesses == old(tabConsciousnesses) && maxConcurrentTabs == old(maxConcurrentTabs)
    {
      var created := ConsciousnessCluster(clusterUuid, ClusterName(clusterName, |consciousnessClusters|), "",
                                          clusterType, IdSet(tabIds), None);
      var primary := SelectPrimaryTab(tabIds);
      created := created.(primaryTabId := primary);

      if !initCompletes {
        return BlankCluster(blankUuid);
      }

      var edges, nodes := LinkMembers(graphEdges, graphNodes, created.clusterId, tabIds);
      AddClusterConsistent(tabConsciousnesses, consciousnessClusters, graphNodes, graphEdges, created, tabIds);
      consciousnessClusters := consciousnessClusters[created.clusterId := created];
      graphEdges, graphNodes := edges, nodes;
      cluster := created;
    }
  }
}
