/**
 * `OfflineManager`, the page-side sync coordinator: it writes progress through to the
 * database, queues a write made offline in the `pendingSync` outbox, and replays the
 * outbox when the browser reports that it is online again.
 */
module OfflineManager {
  import opened Maybe
  import opened Http
  import opened Store
  import Seqs

  /** The rejection `initializeDB` produces when the database cannot be opened. */
  datatype StoreError = StorageUnavailable

  /**
   * The manager's state: whether its database handle is open, the database contents
   * (which persist whether or not the handle is open), and its online flag.
   */
  datatype Manager = Manager(dbOpen: bool, db: Db, isOnline: bool)

  /** A read together with the manager state after it (a read may have opened the database). */
  datatype Read<T> = Read(manager: Manager, value: T)

  /**
   * The constructor: it starts `initializeDB`, whose outcome `openOk` is taken as settled before
   * any later call, over the database `persisted` from earlier visits; the flag is taken from
   * `navigator.onLine`, or true without a navigator.
   */
  function Create(navigatorOnline: Option<bool>, persisted: Db, openOk: bool): (m: Manager)
    ensures m.dbOpen == openOk && m.db == persisted
    ensures m.isOnline <==> navigatorOnline != Some(false)
  {
    Manager(openOk, persisted, if navigatorOnline.Some? then navigatorOnline.value else true)
  }

  /** `if (!this.db) await this.initializeDB()`: an open handle is reused, otherwise opening may fail. */
  function EnsureOpen(m: Manager, openOk: bool): (r: Result<Manager, StoreError>)
    ensures r.Ok? <==> m.dbOpen || openOk
    ensures r.Ok? ==> r.value.dbOpen && r.value.db == m.db && r.value.isOnline == m.isOnline
  {
    if m.dbOpen || openOk then Ok(m.(dbOpen := true)) else Err(StorageUnavailable)
  }

  /** The record `saveQuestProgress` writes: `synced` is the online flag at the time of the save. */
  function SavedRecord(m: Manager, questId: string, progress: int, xpEarned: int, now: int): ProgressRecord {
    ProgressRecord(questId, progress, xpEarned, now, m.isOnline)
  }

  /**
   * `saveQuestProgress`: upserts the record, and when offline also appends one
   * "quest-progress" outbox entry carrying it. `now` and `queuedAt` are the two `Date.now()` readings.
   */
  function SaveQuestProgress(m: Manager, questId: string, progress: int, xpEarned: int, now: int, queuedAt: int, openOk: bool)
    : (r: Result<Manager, StoreError>)
    ensures r.Err? <==> !m.dbOpen && !openOk
    ensures r.Ok? ==> r.value.dbOpen && r.value.isOnline == m.isOnline && r.value.db.quests == m.db.quests
    ensures r.Ok? ==> GetProgress(r.value.db, questId) == Some(ProgressRecord(questId, progress, xpEarned, now, m.isOnline))
    ensures r.Ok? ==> forall k :: k != questId ==> GetProgress(r.value.db, k) == GetProgress(m.db, k)
    ensures r.Ok? && m.isOnline ==> r.value.db.pending == m.db.pending && r.value.db.nextKey == m.db.nextKey
    ensures r.Ok? && !m.isOnline ==>
              && |r.value.db.pending| == |m.db.pending| + 1
              && r.value.db.pending[..|m.db.pending|] == m.db.pending
              && r.value.db.pending[|m.db.pending|].kind == QuestProgressKind
              && r.value.db.pending[|m.db.pending|].payload == ProgressRecord(questId, progress, xpEarned, now, false)
              && r.value.db.pending[|m.db.pending|].timestamp == queuedAt
              && (Valid(m.db) ==> forall e :: e in m.db.pending ==> e.id < r.value.db.pending[|m.db.pending|].id)
    ensures r.Ok? && Valid(m.db) ==> Valid(r.value.db)
  {
    var live :- EnsureOpen(m, openOk);
    var rec := SavedRecord(live, questId, progress, xpEarned, now);
    var db := PutProgress(live.db, rec);
    if !live.isOnline then
      var added := AddPending(db, QuestProgressKind, rec, queuedAt);
      assert added.db.pending[..|m.db.pending|] == m.db.pending;
      Ok(live.(db := added.db))
    else
      Ok(live.(db := db))
  }

  /** `getQuestProgress`: the stored record for `questId`, or `undefined`; it never touches the network. */
  function GetQuestProgress(m: Manager, questId: string, openOk: bool): (r: Result<Read<Option<ProgressRecord>>, StoreError>)
    ensures r.Err? <==> !m.dbOpen && !openOk
    ensures r.Ok? ==> r.value.manager == m.(dbOpen := true)
    ensures r.Ok? ==> (r.value.value.Some? <==> questId in m.db.progress)
    ensures r.Ok? && r.value.value.Some? ==> r.value.value.value == m.db.progress[questId]
  {
    var live :- EnsureOpen(m, openOk);
    Ok(Read(live, GetProgress(live.db, questId)))
  }

  /** `cacheQuestData`: puts each quest in turn, so the last quest with a given `id` is the one kept. */
  function CacheQuestData(m: Manager, quests: seq<Quest>, openOk: bool): (r: Result<Manager, StoreError>)
    ensures r.Err? <==> !m.dbOpen && !openOk
    ensures r.Ok? ==> r.value.dbOpen && r.value.isOnline == m.isOnline
    ensures r.Ok? ==> r.value.db.progress == m.db.progress && r.value.db.pending == m.db.pending
    ensures r.Ok? ==> r.value.db.nextKey == m.db.nextKey
    ensures r.Ok? ==> forall i :: 0 <= i < |quests| && LastIndexOf(quests, quests[i].id) == Some(i) ==>
                        quests[i].id in r.value.db.quests && r.value.db.quests[quests[i].id] == quests[i]
    ensures r.Ok? ==> forall k :: k in m.db.quests && LastIndexOf(quests, k).None? ==>
                        k in r.value.db.quests && r.value.db.quests[k] == m.db.quests[k]
    ensures r.Ok? ==> forall k :: k in r.value.db.quests <==> k in m.db.quests || LastIndexOf(quests, k).Some?
    ensures r.Ok? && Valid(m.db) ==> Valid(r.value.db)
  {
    var live :- EnsureOpen(m, openOk);
    Ok(live.(db := live.db.(quests := PutQuests(live.db.quests, quests))))
  }

  /** `getCachedQuests`: exactly the cached quests, one per key. */
  function GetCachedQuests(m: Manager, openOk: bool): (r: Result<Read<set<Quest>>, StoreError>)
    ensures r.Err? <==> !m.dbOpen && !openOk
    ensures r.Ok? ==> r.value.manager == m.(dbOpen := true)
    ensures r.Ok? ==> forall k :: k in m.db.quests ==> m.db.quests[k] in r.value.value
    ensures r.Ok? ==> forall q :: q in r.value.value ==> exists k :: k in m.db.quests && m.db.quests[k] == q
    ensures r.Ok? && Valid(m.db) ==> forall a, b :: a in r.value.value && b in r.value.value && a.id == b.id ==> a == b
  {
    var live :- EnsureOpen(m, openOk);
    Ok(Read(live, CachedQuests(live.db)))
  }

  /** The outbox entries that `syncItem` sends to the server. */
  predicate IsQuestProgress(e: PendingEntry) {
    e.kind == QuestProgressKind
  }

  /** What replaying one entry did: the payload it POSTed, if any, and whether the replay threw. */
  datatype ItemSync = ItemSync(request: Option<ProgressRecord>, threw: bool)

  /**
   * `syncItem`: a "quest-progress" entry is POSTed and the response, whatever its status, is
   * ignored, so only a network error makes it throw; an entry of any other kind makes no request.
   */
  function SyncItem(e: PendingEntry, f: Fetch): (r: ItemSync)
    ensures r.request.Some? <==> IsQuestProgress(e)
    ensures r.request.Some? ==> r.request.value == e.payload
    ensures r.threw <==> IsQuestProgress(e) && f.NetworkError?
  {
    if e.kind == QuestProgressKind then ItemSync(Some(e.payload), f.NetworkError?)
    else ItemSync(None, false)
  }

  /** The keys of the snapshot entries whose replay did not throw: the ones the loop deletes. */
  ghost function Acked(items: seq<PendingEntry>, net: nat -> Fetch): set<nat> {
    set i | 0 <= i < |items| && !SyncItem(items[i], net(items[i].id)).threw :: items[i].id
  }

  /**
   * The payloads the loop of `syncPendingData` POSTs over the snapshot `items`: one per
   * "quest-progress" entry, in key order, whether or not the request then fails.
   */
  function Posted(items: seq<PendingEntry>): (r: seq<ProgressRecord>)
    ensures |r| == |Seqs.Filter(items, IsQuestProgress)|
    ensures forall i :: 0 <= i < |r| ==> r[i] == Seqs.Filter(items, IsQuestProgress)[i].payload
  {
    if |items| == 0 then []
    else
      (if IsQuestProgress(items[0]) then [items[0].payload] else []) + Posted(items[1..])
  }

  /**
   * The database after the loop of `syncPendingData` over the snapshot `items`: each entry is
   * replayed, and deleted from the live outbox when the replay does not throw; a throw is
   * caught and the loop goes on.
   */
  function Replay(items: seq<PendingEntry>, db: Db, net: nat -> Fetch): (r: Db)
    ensures forall e :: e in r.pending ==> e in db.pending && e.id !in Acked(items, net)
    ensures forall e :: e in db.pending && e.id !in Acked(items, net) ==> e in r.pending
    ensures r.quests == db.quests && r.progress == db.progress && r.nextKey == db.nextKey
    ensures Valid(db) ==> Valid(r)
    decreases |items|
  {
    if |items| == 0 then db
    else
      var out := SyncItem(items[0], net(items[0].id));
      var next := if out.threw then db else DeletePending(db, items[0].id);
      AckedSplits(items, net);
      Replay(items[1..], next, net)
  }

  /** The keys acknowledged over a snapshot are the first entry's, if its replay did not throw, and those of the rest. */
  lemma AckedSplits(items: seq<PendingEntry>, net: nat -> Fetch)
    requires |items| > 0
    ensures Acked(items, net)
         == (if SyncItem(items[0], net(items[0].id)).threw then {} else {items[0].id}) + Acked(items[1..], net)
  {
    forall i | 1 <= i < |items| ensures items[i] == items[1..][i - 1] { }
  }

  /** In a valid outbox, an entry's key is acknowledged exactly when that entry's own replay did not throw. */
  lemma AckedIsOwnReplay(db: Db, net: nat -> Fetch, e: PendingEntry)
    requires Valid(db) && e in db.pending
    ensures e.id in Acked(db.pending, net) <==> !SyncItem(e, net(e.id)).threw
  {
    if e.id in Acked(db.pending, net) {
      var i :| 0 <= i < |db.pending| && !SyncItem(db.pending[i], net(db.pending[i].id)).threw && db.pending[i].id == e.id;
      KeysIdentifyEntries(db, db.pending[i], e);
    } else {
      var i :| 0 <= i < |db.pending| && db.pending[i] == e;
    }
  }

  /** The database and POSTed payloads after a drain. */
  datatype Drained = Drained(manager: Manager, requests: seq<ProgressRecord>)

  /**
   * `syncPendingData`: nothing happens without an open database or while offline; otherwise
   * every outbox entry is replayed in key order, and exactly the entries whose replay threw
   * remain. The progress and quest stores are never written, so no record is marked synced.
   */
  function SyncPendingData(m: Manager, net: nat -> Fetch): (r: Drained)
    ensures !m.dbOpen || !m.isOnline ==> r.manager == m && r.requests == []
    ensures r.manager.dbOpen == m.dbOpen && r.manager.isOnline == m.isOnline
    ensures r.manager.db.quests == m.db.quests && r.manager.db.progress == m.db.progress
    ensures r.manager.db.nextKey == m.db.nextKey
    ensures Valid(m.db) ==> Valid(r.manager.db)
    ensures Valid(m.db) && m.dbOpen && m.isOnline ==>
              forall e :: e in r.manager.db.pending <==> e in m.db.pending && IsQuestProgress(e) && net(e.id).NetworkError?
    ensures m.dbOpen && m.isOnline ==>
              && |r.requests| == |Seqs.Filter(m.db.pending, IsQuestProgress)|
              && forall i :: 0 <= i < |r.requests| ==> r.requests[i] == Seqs.Filter(m.db.pending, IsQuestProgress)[i].payload
  {
    if !m.dbOpen || !m.isOnline then Drained(m, [])
    else
      var after := Replay(m.db.pending, m.db, net);
      assert Valid(m.db) ==> forall e :: e in m.db.pending ==> (e.id in Acked(m.db.pending, net) <==> !SyncItem(e, net(e.id)).threw) by {
        if Valid(m.db) {
          forall e | e in m.db.pending ensures e.id in Acked(m.db.pending, net) <==> !SyncItem(e, net(e.id)).threw {
            AckedIsOwnReplay(m.db, net, e);
          }
        }
      }
      Drained(m.(db := after), Posted(m.db.pending))
  }

  /** What a connectivity event did: the new state, the payloads POSTed, and the `onlineStatusChange` detail sent. */
  datatype EventRun = EventRun(manager: Manager, requests: seq<ProgressRecord>, notice: bool)

  /** The "online" listener: set the flag, start one drain, then notify with `isOnline = true`. */
  function OnOnline(m: Manager, net: nat -> Fetch): (r: EventRun)
    ensures r.manager.isOnline && r.notice
    ensures r.manager.dbOpen == m.dbOpen
    ensures r.manager.db.quests == m.db.quests && r.manager.db.progress == m.db.progress
    ensures !m.dbOpen ==> r.manager == m.(isOnline := true) && r.requests == []
    ensures Valid(m.db) && m.dbOpen ==>
              forall e :: e in r.manager.db.pending <==> e in m.db.pending && IsQuestProgress(e) && net(e.id).NetworkError?
    ensures Valid(m.db) ==> Valid(r.manager.db)
  {
    var drained := SyncPendingData(m.(isOnline := true), net);
    EventRun(drained.manager, drained.requests, true)
  }

  /** The "offline" listener: clear the flag and notify with `isOnline = false`; nothing else changes. */
  function OnOffline(m: Manager): (r: EventRun)
    ensures !r.manager.isOnline && !r.notice && r.requests == []
    ensures r.manager.dbOpen == m.dbOpen && r.manager.db == m.db
  {
    EventRun(m.(isOnline := false), [], false)
  }

  /** `getOnlineStatus`. */
  function GetOnlineStatus(m: Manager): bool {
    m.isOnline
  }

  /** The online status reads back the last connectivity event. */
  lemma OnlineStatusFollowsEvents(m: Manager, net: nat -> Fetch)
    ensures GetOnlineStatus(OnOnline(m, net).manager)
    ensures !GetOnlineStatus(OnOffline(m).manager)
  {
  }

  /** What `forcSync` did: a FORCE_SYNC message to the controlling worker, if there is one, and a drain. */
  datatype ForceRun = ForceRun(manager: Manager, requests: seq<ProgressRecord>, messagedWorker: bool)

  /** `forcSync`: message the controlling service worker, if any, then drain exactly as `syncPendingData` does. */
  function ForcSync(m: Manager, net: nat -> Fetch, hasController: bool): (r: ForceRun)
    ensures r.messagedWorker == hasController
    ensures r.manager.dbOpen == m.dbOpen && r.manager.isOnline == m.isOnline
    ensures r.manager.db.quests == m.db.quests && r.manager.db.progress == m.db.progress
    ensures !m.dbOpen || !m.isOnline ==> r.manager == m && r.requests == []
    ensures Valid(m.db) && m.dbOpen && m.isOnline ==>
              forall e :: e in r.manager.db.pending <==> e in m.db.pending && IsQuestProgress(e) && net(e.id).NetworkError?
    ensures Valid(m.db) ==> Valid(r.manager.db)
  {
    var drained := SyncPendingData(m, net);
    ForceRun(drained.manager, drained.requests, hasController)
  }

  /** A save is read back by `getQuestProgress`, with `synced` equal to the online flag at the save. */
  lemma SaveThenGet(m: Manager, questId: string, progress: int, xpEarned: int, now: int, queuedAt: int, openOk: bool)
    requires SaveQuestProgress(m, questId, progress, xpEarned, now, queuedAt, openOk).Ok?
    ensures var saved := SaveQuestProgress(m, questId, progress, xpEarned, now, queuedAt, openOk).value;
            GetQuestProgress(saved, questId, false)
            == Ok(Read(saved, Some(ProgressRecord(questId, progress, xpEarned, now, m.isOnline))))
  {
    var saved := SaveQuestProgress(m, questId, progress, xpEarned, now, queuedAt, openOk).value;
    assert saved.(dbOpen := true) == saved;
  }

  /**
   * Any answer from the server, even an error status, empties the outbox on reconnection,
   * yet a record saved offline keeps `synced = false`.
   */
  lemma {:induction false} AnsweredReplayEmptiesOutbox(m: Manager, questId: string, progress: int, xpEarned: int,
                                                        now: int, queuedAt: int, net: nat -> Fetch)
    requires Valid(m.db) && m.dbOpen && !m.isOnline
    requires forall id :: net(id).Responded?
    ensures var saved := SaveQuestProgress(m, questId, progress, xpEarned, now, queuedAt, false).value;
            var after := OnOnline(saved, net).manager;
            && |saved.db.pending| == |m.db.pending| + 1
            && |after.db.pending| == 0
            && GetProgress(after.db, questId) == Some(ProgressRecord(questId, progress, xpEarned, now, false))
  {
    var r := SaveQuestProgress(m, questId, progress, xpEarned, now, queuedAt, false);
    assert r.Ok?;
    var saved := r.value;
    assert Valid(saved.db) && saved.dbOpen;
    var run := OnOnline(saved, net);
    var after := run.manager;
    if |after.db.pending| > 0 {
      Seqs.HeadIsMember(after.db.pending);
      assert false;
    }
  }

  /**
   * When every replay fails at the network, a drain deletes exactly the entries of other kinds,
   * and a second drain changes nothing more: retrying is idempotent.
   */
  lemma {:induction false} FailingNetworkRetry(m: Manager)
    requires Valid(m.db) && m.dbOpen && m.isOnline
    ensures var once := ForcSync(m, _ => NetworkError, false).manager;
            && (forall e :: e in once.db.pending <==> e in m.db.pending && IsQuestProgress(e))
            && ForcSync(once, _ => NetworkError, false).manager.db.pending == once.db.pending
  {
    var once := ForcSync(m, _ => NetworkError, false).manager;
    var twice := ForcSync(once, _ => NetworkError, false).manager;
    assert forall i :: 0 <= i < |once.db.pending| ==> IsQuestProgress(once.db.pending[i]) by {
      forall i | 0 <= i < |once.db.pending| ensures IsQuestProgress(once.db.pending[i]) {
        assert once.db.pending[i] in once.db.pending;
      }
    }
    AllThrowKeepsOutbox(once.db.pending, once.db, _ => NetworkError);
  }

  /** A replay in which every entry throws deletes nothing. */
  lemma {:induction false} AllThrowKeepsOutbox(items: seq<PendingEntry>, db: Db, net: nat -> Fetch)
    requires forall i :: 0 <= i < |items| ==> SyncItem(items[i], net(items[i].id)).threw
    ensures Replay(items, db, net) == db
    decreases |items|
  {
    if |items| > 0 {
      AllThrowKeepsOutbox(items[1..], db, net);
    }
  }
}
