# In-process bookkeeping of the persistent memory and the multi-tab manager

This project models, in Dafny, two pieces of in-process bookkeeping of the
ConsciousBrowser agent and proves what they promise.

**The memory layers of `PersistentMemory`** (`memory.dfy`, module `Memory`).
`store_memory` builds a `MemoryEntry`. Its id is the first 16 hex digits of the
SHA-256 digest of the content, the memory type and the clock reading. The entry
then updates two in-process layers:

- the working-memory map gains the entry under its id when its importance is
  strictly above 0.7;
- the episodic buffer appends the entry and drops its oldest element once it holds
  more than 100.

The class `PersistentMemory` holds these layers as a `map` field and a `seq`
field, together with the untouched semantic cache and the embedding model.
`StoreMemory` changes them in place. A ghost history of every stored entry ties
them to two specification functions:

- `Recent`: the last `min(N, 100)` entries;
- `Promoted`: the working map the stores build.

Lemmas prove that these are bounded, sound and complete.

**Tabs and clusters of `MultiTabConsciousnessManager`** (`multitab.dfy`, module
`MultiTab`). The manager is a class with four parts:

- the tab registry;
- the cluster registry;
- the consciousness graph, as a node set and a map from (source, target) to the
  edge's `relation` label, because a networkx `DiGraph` holds at most one edge per
  ordered pair;
- the tab limit.

`RegisterTabConsciousness` inserts a tab and its graph node.
`CreateConsciousnessCluster` does three things:

- it chooses the primary tab by the strict-`<` scan over `TabPriority` values
  (CRITICAL = 1 … DORMANT = 6), which starts from DORMANT;
- it registers the cluster;
- it adds one `"cluster_member"` edge per listed tab.

`WorkerCount` is the default worker count of `parallel_consciousness_processing`.
`Decimal` gives `str(n)` for the default cluster name `"Cluster_<n>"`. `Wrappers`
gives `Option`, which stands for Python's `None`.

Calls into code outside the model become parameters:

- the SHA-256 function (`string -> HexDigest`, 64 lower-case hex digits);
- the text of `time.time()` and the `datetime.now()` reading;
- the loaded embedding model (`Option<string -> seq<real>>`);
- every `uuid.uuid4()` id;
- `urlparse(url).netloc`;
- where, if anywhere, an awaited helper raises.

`_store_in_sqlite`, `_store_in_weaviate` and `_cache_in_redis` are methods with
no effect on the modelled state.

The code, as written, behaves as follows, and the model does the same:

- `store_memory` overwrites a working-memory entry with the same id. It raises no
  identifier-collision error.
- The 0.7 threshold and the capacity of 100 are constants in the code, not
  configuration.
- Storing the same content twice is not idempotent, because the clock reading is
  part of the id.
- An exception in `register_tab_consciousness` after line 188-190 (from
  `_initialize_consciousness_stream` or `_store_tab_consciousness`) leaves the tab
  registered, although a blank tab is returned.

In `multitab_consciousness.py`, line 228 is indented as if it were inside the
loop. The model runs it once, after the loop. The value it assigns is the same
either way.

## Model

| member | source | states |
|---|---|---|
| `Memory.MemoryId` | app/memory/persistent_memory.py:201-203 | the id is exactly 16 characters, all hex digits, and is a prefix of the SHA-256 hex digest of content + memory type + clock text |
| `Memory.NewEntry` | app/memory/persistent_memory.py:205-219 | the new entry carries the given id, content, type, importance and timestamp; its context is the empty map when none is passed; its embedding is absent exactly when no model is loaded and is otherwise the model's encoding of the content; it has no relationships, `access_count` 0 and no `last_accessed` |
| `Memory.Promote` | app/memory/persistent_memory.py:230-232 | when importance is strictly above 0.7, working memory maps the id to the entry, and at or below 0.7 it is unchanged; no other key is removed or changed, and at most the one id is added |
| `Memory.Admit` | app/memory/persistent_memory.py:234-237 | the stored entry is the last element of the buffer; below capacity the buffer only gains it; at capacity only index 0 is dropped; a buffer of at most 100 stays at most 100 |
| `Memory.Recent` | app/memory/persistent_memory.py:59-59 | the window of the last `min(N, 100)` stored entries, in insertion order: never more than 100, element i being stored entry N - length + i |
| `Memory.RecentAdmit` | app/memory/persistent_memory.py:235-237 | admitting an entry to the last-100 window of a history gives the last-100 window of the extended history |
| `Memory.PromotedSound` | app/memory/persistent_memory.py:231-232 | every working-memory entry is one that was stored, sits under its own id and has importance above 0.7 |
| `Memory.PromotedComplete` | app/memory/persistent_memory.py:231-232 | every stored entry with importance above 0.7 has its id in working memory |
| `Memory.StoreKeepsViews` | app/memory/persistent_memory.py:230-237 | one store keeps both layers equal to `Recent` and `Promoted` of the extended history |
| `Memory.PersistentMemory.constructor` | app/memory/persistent_memory.py:49-60 | working memory, the episodic buffer and the semantic cache start empty, and no embedding model is loaded |
| `Memory.PersistentMemory.SetupEmbeddingModel` | app/memory/persistent_memory.py:146-152 | a successful load sets the model; a failure leaves it as it was; no layer changes |
| `Memory.PersistentMemory.StoreMemory` | app/memory/persistent_memory.py:198-240 | returns the id of the entry it builds; working memory becomes `Promote` of it and the buffer becomes `Admit` of it; the semantic cache and the model are unchanged; the buffer stays the last min(N, 100) entries stored and the working map stays the promoted ones |
| `Decimal.FromNat` | app/browser/multitab_consciousness.py:212-212 | `str(n)` is a non-empty run of decimal digits without a leading zero |
| `Decimal.ToNatFromNat` | app/browser/multitab_consciousness.py:212-212 | the decimal text of n reads back as n |
| `Decimal.FromNatInjective` | app/browser/multitab_consciousness.py:212-212 | distinct numbers have distinct decimal texts |
| `MultiTab.DefaultClusterNamesDistinct` | app/browser/multitab_consciousness.py:212-212 | two clusters created without a name get the same default name only if the same number of clusters existed before each |
| `MultiTab.TabPriority.Value` | app/browser/multitab_consciousness.py:36-43 | each member's `auto()` value is one plus its position in declaration order (CRITICAL 1, HIGH 2, NORMAL 3, LOW 4, BACKGROUND 5, DORMANT 6), so the primary-tab comparison follows that order; only DORMANT has 6 and only CRITICAL has 1 |
| `MultiTab.BlankTab` | app/browser/multitab_consciousness.py:55-91 | a default `TabConsciousness`: empty url, title and domain, UNIFIED mode, NORMAL priority, with the given fresh id |
| `MultiTab.BlankCluster` | app/browser/multitab_consciousness.py:93-118 | a default `ConsciousnessCluster`: empty name and description, type "general", no tabs, no primary tab |
| `MultiTab.ClusterName` | app/browser/multitab_consciousness.py:211-212 | a non-empty name is kept; an empty one becomes "Cluster_" followed by `str(n)` of the number n of existing clusters: canonical digits without a leading zero that read back as n |
| `MultiTab.WorkerCount` | app/browser/multitab_consciousness.py:253-253 | with `max_workers` absent or 0, the count is the smaller of the task count and `max_concurrent_tabs`; any other `max_workers` is used as given |
| `MultiTab.PrimaryAtUnique` | app/browser/multitab_consciousness.py:221-226 | at most one position of the tab list meets the primary-tab conditions |
| `MultiTab.PrimaryChoiceUnique` | app/browser/multitab_consciousness.py:217-228 | the registry and the list determine the primary tab (or its absence) uniquely |
| `MultiTab.MemberEdges` | app/browser/multitab_consciousness.py:237-239 | every listed tab has an edge from the cluster labelled "cluster_member", and there is no other edge |
| `MultiTab.MemberEdgesSnoc` | app/browser/multitab_consciousness.py:237-239 | listing one more tab adds exactly that tab's membership edge |
| `MultiTab.IdSet` | app/browser/multitab_consciousness.py:214-214 | `set(tab_ids)` holds exactly the listed ids, unregistered ones included |
| `MultiTab.AddClusterConsistent` | app/browser/multitab_consciousness.py:233-239 | registering a cluster under its id with its membership edges and their end nodes keeps the registries consistent: other clusters keep their member edges |
| `MultiTab.LinkMembers` | app/browser/multitab_consciousness.py:236-239 | the edge loop leaves the old edges plus one "cluster_member" edge per listed tab; it adds the cluster node when the list is non-empty, and every listed tab as a node |
| `MultiTab.MultiTabConsciousnessManager.constructor` | app/browser/multitab_consciousness.py:126-140 | empty tab and cluster registries and graph; `max_concurrent_tabs` is the configured value, or 20 |
| `MultiTab.MultiTabConsciousnessManager.RegisterTabConsciousness` | app/browser/multitab_consciousness.py:164-203 | on success the tab is returned, stored under its `tab_id` and added as a graph node; a failure before registration returns a blank tab and changes nothing; a failure after it returns a blank tab but leaves the tab registered; clusters and edges never change |
| `MultiTab.MultiTabConsciousnessManager.SelectPrimaryTab` | app/browser/multitab_consciousness.py:217-228 | None exactly when no listed tab is registered with a non-DORMANT priority, so also when none is registered; otherwise a listed, registered, non-DORMANT tab whose priority value is at most every registered listed tab's, and strictly below every one listed before it (ties go to the earliest) |
| `MultiTab.MultiTabConsciousnessManager.CreateConsciousnessCluster` | app/browser/multitab_consciousness.py:205-246 | on success: the cluster has the fresh id, the given or default name and type, `tab_ids` equal to the set of given ids, and the scan's primary tab; it is stored under its id, other clusters are unchanged, edges and nodes grow as `LinkMembers` says, and tabs are unchanged; when `_initialize_cluster_consciousness` raises, a blank cluster is returned and nothing changes |

## Left out

- Backend I/O: the SQLite tables and writes, the Redis cache and the Weaviate schema
  and upserts (persistent_memory.py:72-196, 221-228; multitab_consciousness.py:153-160).
  `StoreInSqlite`, `StoreInWeaviate` and `CacheInRedis` have no effect on the modelled
  state. Their bodies are not in the source file.
- Memory.PersistentMemory.StoreMemory: does not model an exception raised by a
  backend write. In Python such an exception propagates out of `store_memory` before
  the layers are updated.
- Foreign computations are parameters, not definitions: SHA-256, `time.time()` and
  its text form, `datetime.now()`, the SentenceTransformer encoding, `uuid.uuid4()`,
  `urlparse(url).netloc`, and the Playwright `page.url` and `page.title()`.
- Memory.PersistentMemory.StoreMemory: importance is a Dafny `real`, so "exactly 0.7"
  means the real 0.7. In Python it is the double nearest 0.7, and that double is
  also not promoted.
- The `Any` values of a memory context are modelled as strings; the store never
  looks at them.
- Asynchronous start-up: the detached `_initialize_async` task
  (persistent_memory.py:63) and the loading of the knowledge graph. The model is
  sequential, and the model loading outcome is passed to `SetupEmbeddingModel`.
- The `ThreadPoolExecutor` fan-out of `parallel_consciousness_processing`
  (multitab_consciousness.py:255-260) is truncated in the source and concurrent.
  Only its default worker count is modelled.
- Float metrics and fields that no modelled code reads: awareness, attention,
  load, memory, response time, timestamps, `page`, fingerprints, interaction
  patterns, the tab relation sets, and the shared/collective/synchronisation dicts,
  efficiency and overhead of clusters.
- Node attributes of the consciousness graph (`consciousness=tab`): nodes are ids
  only. The `knowledge_graph` of `PersistentMemory` is not touched by
  `store_memory` and is not modelled.
- The awaited helpers whose bodies are not in the source
  (`_allocate_consciousness_resources`, `_initialize_consciousness_stream`,
  `_store_tab_consciousness`, `_initialize_cluster_consciousness`) are assumed to
  leave the modelled fields alone. Only whether they raise is modelled.
- Retrieval, linking, consolidation and access-count updates are not in the
  modelled source file (it ends at `store_memory`).
