/**
 * The in-process memory layers of `PersistentMemory` (app/memory/persistent_memory.py):
 * storing a memory builds a `MemoryEntry` whose id is a 16-character prefix of a
 * SHA-256 hex digest, promotes it to the working-memory map when its importance is
 * above 0.7, and appends it to a FIFO episodic buffer that keeps the last 100 entries.
 *
 * The hash, the clock, the embedding model and the SQLite, Weaviate and Redis writes
 * are calls into code outside this model: the first three are parameters, the writes
 * leave the in-process layers alone.
 */
module Memory {
  import opened Wrappers

  /** The episodic buffer keeps the last 100 episodes. */
  const EpisodicCapacity: nat := 100

  /** Importance strictly above which a new entry goes into working memory. */
  const PromotionThreshold: real := 0.7

  /** Number of hex digits of the digest kept as the memory id. */
  const IdLength: nat := 16

  predicate IsHexDigit(c: char) {
    '0' <= c <= '9' || 'a' <= c <= 'f'
  }

  /** `n` copies of the digit zero. */
  function Zeros(n: nat): (s: string)
    ensures |s| == n && forall i | 0 <= i < n :: s[i] == '0'
  {
    if n == 0 then [] else Zeros(n - 1) + ['0']
  }

  /** What `hashlib.sha256(...).hexdigest()` returns: 64 lower-case hex digits. */
  type HexDigest = s: string | |s| == 64 && forall i | 0 <= i < |s| :: IsHexDigit(s[i])
    witness Zeros(64)

  /** A reading of `datetime.now()`. */
  type Instant = int

  /** The open `Dict[str, Any]` of auxiliary metadata; its values are opaque here. */
  type Context = map<string, string>

  type Embedding = seq<real>

  /** A loaded embedding model: `encode(content).tolist()`. */
  type Encoder = string -> Embedding

  /** The `MemoryEntry` record (persistent_memory.py:26-38). */
  datatype MemoryEntry = MemoryEntry(
    id: string,
    content: string,
    memoryType: string,
    importance: real,
    timestamp: Instant,
    context: Context,
    embeddings: Option<Embedding>,
    relationships: Option<seq<string>>,
    accessCount: int,
    lastAccessed: Option<Instant>)

  /**
   * The id of a new memory: the first 16 hex digits of the SHA-256 digest of the
   * content, the memory type and the text of the `time.time()` reading, in that order.
   */
  function MemoryId(sha256: string -> HexDigest, content: string, memoryType: string, clockText: string): (id: string)
    ensures |id| == IdLength
    ensures id <= sha256(content + memoryType + clockText)
    ensures forall i | 0 <= i < |id| :: IsHexDigit(id[i])
  {
    sha256(content + memoryType + clockText)[..IdLength]
  }

  /**
   * The entry `store_memory` builds: the caller's data, the empty context when
   * none is given, an embedding exactly when a model is loaded, and the record's
   * defaults for the usage statistics and relationships.
   */
  function NewEntry(id: string, content: string, memoryType: string, importance: real,
                    now: Instant, context: Option<Context>, model: Option<Encoder>): (m: MemoryEntry)
    ensures m.id == id && m.content == content && m.memoryType == memoryType
    ensures m.importance == importance && m.timestamp == now
    ensures context.None? ==> m.context == map[]
    ensures context.Some? ==> m.context == context.value
    ensures m.embeddings.None? <==> model.None?
    ensures model.Some? ==> m.embeddings == Some(model.value(content))
    ensures m.relationships.None? && m.accessCount == 0 && m.lastAccessed.None?
  {
    var embeddings := match model
      case Some(encode) => Some(encode(content))
      case None => None;
    MemoryEntry(id, content, memoryType, importance, now, context.GetOr(map[]),
                embeddings, None, 0, None)
  }

  /**
   * Working memory after storing `m`: it gains `m` under its id when the importance
   * is strictly above the threshold and is otherwise left as it was.
   */
  function Promote(working: map<string, MemoryEntry>, m: MemoryEntry): (w: map<string, MemoryEntry>)
    ensures m.importance > PromotionThreshold ==> m.id in w && w[m.id] == m
    ensures m.importance <= PromotionThreshold ==> w == working
    ensures w.Keys == working.Keys || w.Keys == working.Keys + {m.id}
    ensures forall k | k in working && k != m.id :: k in w && w[k] == working[k]
  {
    if m.importance > PromotionThreshold then working[m.id := m] else working
  }

  /**
   * The episodic buffer after storing `m`: `m` is appended, and when the length then
   * passes the capacity the element at index 0 (the oldest) is dropped.
   */
  function Admit(buffer: seq<MemoryEntry>, m: MemoryEntry): (b: seq<MemoryEntry>)
    ensures |b| > 0 && b[|b| - 1] == m
    ensures |buffer| < EpisodicCapacity ==> b == buffer + [m]
    ensures |buffer| >= EpisodicCapacity ==> b == buffer[1..] + [m]
    ensures |buffer| <= EpisodicCapacity ==> |b| <= EpisodicCapacity
  {
    var appended := buffer + [m];
    if |appended| > EpisodicCapacity then appended[1..] else appended
  }

  /** The last `min(|stored|, 100)` entries of `stored`, in the order they were stored. */
  function Recent(stored: seq<MemoryEntry>): (r: seq<MemoryEntry>)
    ensures |r| <= EpisodicCapacity
    ensures |r| == if |stored| < EpisodicCapacity then |stored| else EpisodicCapacity
    ensures forall i | 0 <= i < |r| :: r[i] == stored[|stored| - |r| + i]
  {
    if |stored| <= EpisodicCapacity then stored else stored[|stored| - EpisodicCapacity..]
  }

  /** Working memory as the sequence of stores `stored` leaves it, starting empty. */
  function Promoted(stored: seq<MemoryEntry>): map<string, MemoryEntry>
  {
    if stored == [] then map[]
    else Promote(Promoted(stored[..|stored| - 1]), stored[|stored| - 1])
  }

  /**
   * Every working-memory entry is one that was stored, sits under its own id and
   * has importance above the threshold.
   */
  lemma {:induction false} PromotedSound(stored: seq<MemoryEntry>, k: string)
    requires k in Promoted(stored)
    ensures Promoted(stored)[k].id == k
    ensures Promoted(stored)[k].importance > PromotionThreshold
    ensures Promoted(stored)[k] in stored
  {
    var init := stored[..|stored| - 1];
    var m := stored[|stored| - 1];
    if !(m.importance > PromotionThreshold && k == m.id) {
      PromotedSound(init, k);
      assert init[..] <= stored;
    }
  }

  /**
   * Every stored entry with importance above the threshold has its id in working
   * memory (under that id sits the last promoted entry that had it).
   */
  lemma {:induction false} PromotedComplete(stored: seq<MemoryEntry>, i: nat)
    requires i < |stored| && stored[i].importance > PromotionThreshold
    ensures stored[i].id in Promoted(stored)
  {
    var init := stored[..|stored| - 1];
    if i < |stored| - 1 {
      assert init[i] == stored[i];
      PromotedComplete(init, i);
    }
  }

  /** Admitting one more entry to the recent window keeps it the recent window. */
  lemma RecentAdmit(stored: seq<MemoryEntry>, m: MemoryEntry)
    ensures Admit(Recent(stored), m) == Recent(stored + [m])
  {
    var a, r := Admit(Recent(stored), m), Recent(stored + [m]);
    assert |a| == |r|;
    forall i | 0 <= i < |a| ensures a[i] == r[i] {
      if i < |a| - 1 {
        if |stored| < EpisodicCapacity {
          assert a[i] == Recent(stored)[i];
        } else {
          assert a[i] == Recent(stored)[i + 1];
        }
      }
    }
  }

  /** One more store keeps both layers equal to their definitions over the stored entries. */
  lemma StoreKeepsViews(stored: seq<MemoryEntry>, m: MemoryEntry)
    ensures Admit(Recent(stored), m) == Recent(stored + [m])
    ensures Promote(Promoted(stored), m) == Promoted(stored + [m])
  {
    assert (stored + [m])[..|stored|] == stored;
    RecentAdmit(stored, m);
  }

  /** The memory store's in-process state (`PersistentMemory.__init__`, lines 49-60). */
  class PersistentMemory {
    /** Current-session entries of high importance, keyed by id. */
    var workingMemory: map<string, MemoryEntry>
    /** The most recently stored entries, oldest first. */
    var episodicBuffer: seq<MemoryEntry>
    /** Frequently accessed knowledge; nothing in the modelled code fills it. */
    var semanticCache: map<string, MemoryEntry>
    /** The embedding model, once one has been loaded. */
    var embeddingModel: Option<Encoder>

    /** Every entry stored so far, in order. */
    ghost var stored: seq<MemoryEntry>

    ghost predicate Valid()
      reads this
    {
      && episodicBuffer == Recent(stored)
      && workingMemory == Promoted(stored)
    }

    constructor ()
      ensures Valid() && stored == []
      ensures workingMemory == map[] && episodicBuffer == [] && semanticCache == map[]
      ensures embeddingModel == None
    {
      workingMemory := map[];
      episodicBuffer := [];
      semanticCache := map[];
      embeddingModel := None;
      stored := [];
    }

    /**
     * `_setup_embedding_model`: the outcome of loading the model is `loaded`; on a
     * failure (`None`) the error is logged and the field keeps its value.
     */
    method SetupEmbeddingModel(loaded: Option<Encoder>)
      requires Valid()
      modifies this
      ensures Valid() && stored == old(stored)
      ensures embeddingModel == if loaded.Some? then loaded else old(embeddingModel)
      ensures workingMemory == old(workingMemory) && episodicBuffer == old(episodicBuffer)
      ensures semanticCache == old(semanticCache)
    {
      if loaded.Some? {
        embeddingModel := loaded;
      }
    }

    /** `_store_in_sqlite`: a durable write outside the in-process layers. */
    method StoreInSqlite(memory: MemoryEntry)
    {
    }

    /** `_store_in_weaviate`: a vector-index write outside the in-process layers. */
    method StoreInWeaviate(memory: MemoryEntry)
    {
    }

    /** `_cache_in_redis`: a cache write outside the in-process layers. */
    method CacheInRedis(memory: MemoryEntry)
    {
    }

    /**
     * `store_memory`. `sha256` is the hash, `clockText` the text of the
     * `time.time()` reading that goes into the id, and `now` the `datetime.now()`
     * reading that becomes the timestamp.
     */
    method StoreMemory(content: string, memoryType: string, importance: real, context: Option<Context> := None,
                       sha256: string -> HexDigest, clockText: string, now: Instant)
      returns (memoryId: string)
      requires Valid()
      modifies this
      ensures Valid()
      ensures memoryId == MemoryId(sha256, content, memoryType, clockText)
      ensures var m := NewEntry(memoryId, content, memoryType, importance, now, context, old(embeddingModel));
        && stored == old(stored) + [m]
        && workingMemory == Promote(old(workingMemory), m)
        && episodicBuffer == Admit(old(episodicBuffer), m)
      ensures semanticCache == old(semanticCache) && embeddingModel == old(embeddingModel)
    {
      memoryId := MemoryId(sha256, content, memoryType, clockText);
      var memory := NewEntry(memoryId, content, memoryType, importance, now, context, embeddingModel);

      StoreInSqlite(memory);
      StoreInWeaviate(memory);
      CacheInRedis(memory);

      var working := workingMemory;
      if importance > PromotionThreshold {
        working := working[memoryId := memory];
      }

      var buffer := episodicBuffer + [memory];
      if |buffer| > EpisodicCapacity {
        buffer := buffer[1..];
      }

      assert working == Promote(workingMemory, memory) && buffer == Admit(episodicBuffer, memory);
      StoreKeepsViews(stored, memory);
      workingMemory, episodicBuffer, stored := working, buffer, stored + [memory];
    }
  }
}
