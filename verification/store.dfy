/**
 * The "QuestAcademyDB" IndexedDB database that both the page and the service worker open:
 * quests keyed by `id`, progress records keyed by `questId`, and the `pendingSync` outbox,
 * whose keys come from an auto-increment generator. The fourth store, `studentData`, is
 * created but never read or written, so it is not part of this model.
 */
module Store {
  import opened Maybe
  import Seqs

  /** The outbox `type` tag the page uses for a progress write made offline. */
  const QuestProgressKind := "quest-progress"

  /** A cached quest definition; only its key and indexed field matter to the store. */
  datatype Quest = Quest(id: string, subject: string, content: string)

  /** One quest's progress as the page saves it. */
  datatype ProgressRecord = ProgressRecord(questId: string, progress: int, xpEarned: int, timestamp: int, synced: bool)

  /** An outbox entry; `id` is assigned by the store's key generator. */
  datatype PendingEntry = PendingEntry(id: nat, kind: string, payload: ProgressRecord, timestamp: int)

  /**
   * The database contents. `pending` lists the outbox in key order, which is the order
   * `getAll` returns; `nextKey` is the outbox's key generator.
   */
  datatype Db = Db(quests: map<string, Quest>, progress: map<string, ProgressRecord>, pending: seq<PendingEntry>, nextKey: nat)

  /** Outbox entries compare by key. */
  predicate KeyBefore(a: PendingEntry, b: PendingEntry) {
    a.id < b.id
  }

  /** The stores agree with their key paths and the outbox keys are issued by the generator, strictly ascending. */
  ghost predicate Valid(db: Db) {
    && (forall k :: k in db.quests ==> db.quests[k].id == k)
    && (forall k :: k in db.progress ==> db.progress[k].questId == k)
    && (forall i :: 0 <= i < |db.pending| ==> 0 < db.pending[i].id < db.nextKey)
    && Seqs.Pairwise(db.pending, KeyBefore)
  }

  /** The database as the upgrade handler creates it on first open: empty stores, key generator at 1. */
  function Created(): (db: Db)
    ensures Valid(db)
    ensures |db.quests| == 0 && |db.progress| == 0 && |db.pending| == 0
    ensures db.nextKey == 1
  {
    Db(map[], map[], [], 1)
  }

  /** `put` on the progress store: an upsert keyed by `questId` that replaces any earlier record whole. */
  function PutProgress(db: Db, rec: ProgressRecord): (r: Db)
    ensures rec.questId in r.progress && r.progress[rec.questId] == rec
    ensures forall k :: k != rec.questId ==> (k in r.progress <==> k in db.progress)
    ensures forall k :: k != rec.questId && k in db.progress ==> r.progress[k] == db.progress[k]
    ensures r.quests == db.quests && r.pending == db.pending && r.nextKey == db.nextKey
    ensures Valid(db) ==> Valid(r)
  {
    db.(progress := db.progress[rec.questId := rec])
  }

  /** `get` on the progress store: the record under `questId`, or `undefined`. */
  function GetProgress(db: Db, questId: string): (r: Option<ProgressRecord>)
    ensures r.Some? <==> questId in db.progress
    ensures r.Some? ==> r.value.questId == questId || !Valid(db)
  {
    if questId in db.progress then Some(db.progress[questId]) else None
  }

  /** A put is read back by a get of the same key, whatever was stored before. */
  lemma PutThenGetProgress(db: Db, rec: ProgressRecord, questId: string)
    ensures GetProgress(PutProgress(db, rec), questId)
         == if questId == rec.questId then Some(rec) else GetProgress(db, questId)
  {
  }

  /** Where the last quest with key `k` sits in `items`, if any quest has that key. */
  function LastIndexOf(items: seq<Quest>, k: string): (r: Option<nat>)
    ensures r.Some? ==> r.value < |items| && items[r.value].id == k
    ensures r.Some? ==> forall j :: r.value < j < |items| ==> items[j].id != k
    ensures r.None? ==> forall j :: 0 <= j < |items| ==> items[j].id != k
  {
    if |items| == 0 then None
    else if items[|items| - 1].id == k then Some(|items| - 1)
    else LastIndexOf(items[..|items| - 1], k)
  }

  /**
   * `put` of each quest in turn: afterwards a key holds the last quest with that key,
   * or what it held before when no quest has it.
   */
  function PutQuests(m: map<string, Quest>, items: seq<Quest>): (r: map<string, Quest>)
    ensures forall k :: k in r <==> k in m || LastIndexOf(items, k).Some?
    ensures forall k :: k in r && LastIndexOf(items, k).Some? ==> r[k] == items[LastIndexOf(items, k).value]
    ensures forall k :: k in r && LastIndexOf(items, k).None? ==> r[k] == m[k]
    ensures (forall k :: k in m ==> m[k].id == k) ==> forall k :: k in r ==> r[k].id == k
  {
    if |items| == 0 then m
    else
      var last := items[|items| - 1];
      PutQuests(m, items[..|items| - 1])[last.id := last]
  }

  /** Putting the same quests a second time changes nothing. */
  lemma PutQuestsIdempotent(m: map<string, Quest>, items: seq<Quest>)
    ensures PutQuests(PutQuests(m, items), items) == PutQuests(m, items)
  {
    var once := PutQuests(m, items);
    var twice := PutQuests(once, items);
    assert twice.Keys == once.Keys;
    forall k | k in twice ensures twice[k] == once[k] {
      if LastIndexOf(items, k).None? {
        assert twice[k] == once[k];
      }
    }
  }

  /** `getAll` on the quests store, as a set: one quest per key. */
  function CachedQuests(db: Db): (r: set<Quest>)
    ensures forall k :: k in db.quests ==> db.quests[k] in r
    ensures forall q :: q in r ==> exists k :: k in db.quests && db.quests[k] == q
    ensures Valid(db) ==> forall a, b :: a in r && b in r && a.id == b.id ==> a == b
  {
    db.quests.Values
  }

  /** The outcome of `add`: the new database and the key the generator issued. */
  datatype Added = Added(db: Db, key: nat)

  /** `add` on the outbox: appends an entry under a fresh key, larger than every key already present. */
  function AddPending(db: Db, kind: string, payload: ProgressRecord, now: int): (r: Added)
    ensures r.db.pending == db.pending + [PendingEntry(r.key, kind, payload, now)]
    ensures Valid(db) ==> forall e :: e in db.pending ==> e.id < r.key
    ensures r.key < r.db.nextKey
    ensures r.db.quests == db.quests && r.db.progress == db.progress
    ensures Valid(db) ==> Valid(r.db)
  {
    var key := if db.nextKey == 0 then 1 else db.nextKey;
    Added(db.(pending := db.pending + [PendingEntry(key, kind, payload, now)], nextKey := key + 1), key)
  }

  /** `delete` on the outbox: removes the entry with key `id`; a missing key is a no-op. */
  function DeletePending(db: Db, id: nat): (r: Db)
    ensures forall e :: e in r.pending ==> e in db.pending && e.id != id
    ensures forall e :: e in db.pending && e.id != id ==> e in r.pending
    ensures Seqs.Embeds(r.pending, db.pending)
    ensures (forall e :: e in db.pending ==> e.id != id) ==> r == db
    ensures r.quests == db.quests && r.progress == db.progress && r.nextKey == db.nextKey
    ensures Valid(db) ==> Valid(r)
  {
    var keep := (e: PendingEntry) => e.id != id;
    Seqs.FilterEmbeds(db.pending, keep);
    KeepsKeyOrder(db.pending, keep);
    if forall i :: 0 <= i < |db.pending| ==> keep(db.pending[i]) then
      Seqs.FilterKeepsAll(db.pending, keep);
      db
    else
      db.(pending := Seqs.Filter(db.pending, keep))
  }

  /** Removing outbox entries keeps the remaining keys ascending. */
  lemma KeepsKeyOrder(s: seq<PendingEntry>, keep: PendingEntry -> bool)
    ensures Seqs.Pairwise(s, KeyBefore) ==> Seqs.Pairwise(Seqs.Filter(s, keep), KeyBefore)
  {
    if Seqs.Pairwise(s, KeyBefore) {
      Seqs.FilterKeepsPairwise(s, keep, KeyBefore);
    }
  }

  /** Two outbox entries of a valid database with the same key are the same entry. */
  lemma {:induction false} KeysIdentifyEntries(db: Db, a: PendingEntry, b: PendingEntry)
    requires Valid(db) && a in db.pending && b in db.pending && a.id == b.id
    ensures a == b
  {
    var i :| 0 <= i < |db.pending| && db.pending[i] == a;
    var j :| 0 <= j < |db.pending| && db.pending[j] == b;
    assert forall x, y :: 0 <= x < y < |db.pending| ==> db.pending[x].id != db.pending[y].id by {
      forall x, y | 0 <= x < y < |db.pending| ensures db.pending[x].id != db.pending[y].id {
        assert KeyBefore(db.pending[x], db.pending[y]);
      }
    }
    assert i == j;
  }
}
