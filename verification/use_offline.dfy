/**
 * The `useOffline` React hook: two UI flags, `isOnline` and `hasPendingSync`, kept beside
 * the shared `OfflineManager`, plus pass-through reads.
 */
module UseOffline {
  import opened Maybe
  import opened Http
  import opened Store
  import opened OfflineManager

  /** The hook's state variables. */
  datatype Flags = Flags(isOnline: bool, hasPendingSync: bool)

  /** The page as the hook sees it: its own flags and the manager singleton. */
  datatype App = App(flags: Flags, manager: Manager)

  /** The window events the hook listens to. */
  datatype WindowEvent = BrowserOnline | BrowserOffline | StatusChange(isOnline: bool)

  /** The initial `useState` values. */
  function Initial(): (f: Flags)
    ensures f.isOnline && !f.hasPendingSync
  {
    Flags(true, false)
  }

  /** The mount effect: `isOnline` is re-derived from `navigator.onLine`. */
  function Mount(f: Flags, navigatorOnline: bool): (r: Flags)
    ensures r.isOnline == navigatorOnline
    ensures r.hasPendingSync == f.hasPendingSync
  {
    f.(isOnline := navigatorOnline)
  }

  /**
   * The three listeners: native "online"/"offline" set `isOnline` to true/false and
   * `onlineStatusChange` copies its `detail.isOnline`; none touches `hasPendingSync`.
   */
  function OnWindowEvent(f: Flags, ev: WindowEvent): (r: Flags)
    ensures r.hasPendingSync == f.hasPendingSync
    ensures ev == BrowserOnline ==> r.isOnline
    ensures ev == BrowserOffline ==> !r.isOnline
    ensures ev.StatusChange? ==> r.isOnline == ev.isOnline
  {
    match ev
    case BrowserOnline => f.(isOnline := true)
    case BrowserOffline => f.(isOnline := false)
    case StatusChange(online) => f.(isOnline := online)
  }

  /**
   * The browser reports it is online: the manager's listener (registered first) drains and
   * dispatches `onlineStatusChange`, then the hook's native listener runs.
   */
  function BrowserGoesOnline(app: App, net: nat -> Fetch): (r: App)
    ensures r.flags.isOnline && r.manager.isOnline
    ensures r.flags.hasPendingSync == app.flags.hasPendingSync
    ensures r.manager.db.progress == app.manager.db.progress
  {
    var run := OnOnline(app.manager, net);
    App(OnWindowEvent(OnWindowEvent(app.flags, StatusChange(run.notice)), BrowserOnline), run.manager)
  }

  /** The browser reports it is offline: both the manager and the hook clear their flags. */
  function BrowserGoesOffline(app: App): (r: App)
    ensures !r.flags.isOnline && !r.manager.isOnline
    ensures r.flags.hasPendingSync == app.flags.hasPendingSync
    ensures r.manager.db == app.manager.db
  {
    var run := OnOffline(app.manager);
    App(OnWindowEvent(OnWindowEvent(app.flags, StatusChange(run.notice)), BrowserOffline), run.manager)
  }

  /**
   * `saveQuestProgress`: delegates to the manager and then sets `hasPendingSync` exactly when
   * the hook's own `isOnline` is false; a rejected save propagates and sets nothing.
   */
  function SaveQuestProgress(app: App, questId: string, progress: int, xpEarned: int, now: int, queuedAt: int, openOk: bool)
    : (r: Result<App, StoreError>)
    ensures r.Err? <==> OfflineManager.SaveQuestProgress(app.manager, questId, progress, xpEarned, now, queuedAt, openOk).Err?
    ensures r.Ok? ==> r.value.manager == OfflineManager.SaveQuestProgress(app.manager, questId, progress, xpEarned, now, queuedAt, openOk).value
    ensures r.Ok? ==> r.value.flags.isOnline == app.flags.isOnline
    ensures r.Ok? && !app.flags.isOnline ==> r.value.flags.hasPendingSync
    ensures r.Ok? && app.flags.isOnline ==> r.value.flags.hasPendingSync == app.flags.hasPendingSync
  {
    var m :- OfflineManager.SaveQuestProgress(app.manager, questId, progress, xpEarned, now, queuedAt, openOk);
    Ok(App(if !app.flags.isOnline then app.flags.(hasPendingSync := true) else app.flags, m))
  }

  /** `forceSync`: runs the manager's sync and then clears `hasPendingSync`, whatever is left in the outbox. */
  function ForceSync(app: App, net: nat -> Fetch, hasController: bool): (r: App)
    ensures !r.flags.hasPendingSync
    ensures r.flags.isOnline == app.flags.isOnline
    ensures r.manager == ForcSync(app.manager, net, hasController).manager
  {
    App(app.flags.(hasPendingSync := false), ForcSync(app.manager, net, hasController).manager)
  }

  /** A read through the hook: the page afterwards (the read may have opened the singleton's handle) and the value. */
  datatype Answer<T> = Answer(app: App, value: T)

  /**
   * `getQuestProgress`: the manager's read. It fails exactly when the handle is closed and
   * cannot be opened; otherwise the handle is open afterwards, the flags and the database are
   * unchanged, and the value is the stored record, if any.
   */
  function GetQuestProgress(app: App, questId: string, openOk: bool): (r: Result<Answer<Option<ProgressRecord>>, StoreError>)
    ensures r.Err? <==> !app.manager.dbOpen && !openOk
    ensures r.Ok? ==> r.value.app == App(app.flags, app.manager.(dbOpen := true))
    ensures r.Ok? ==> (r.value.value.Some? <==> questId in app.manager.db.progress)
    ensures r.Ok? && r.value.value.Some? ==> r.value.value.value == app.manager.db.progress[questId]
  {
    var read :- OfflineManager.GetQuestProgress(app.manager, questId, openOk);
    Ok(Answer(App(app.flags, read.manager), read.value))
  }

  /**
   * `getCachedQuests`: the manager's read. It fails exactly when the handle is closed and cannot
   * be opened; otherwise the handle is open afterwards and the value is exactly the cached quests.
   */
  function GetCachedQuests(app: App, openOk: bool): (r: Result<Answer<set<Quest>>, StoreError>)
    ensures r.Err? <==> !app.manager.dbOpen && !openOk
    ensures r.Ok? ==> r.value.app == App(app.flags, app.manager.(dbOpen := true))
    ensures r.Ok? ==> forall k :: k in app.manager.db.quests ==> app.manager.db.quests[k] in r.value.value
    ensures r.Ok? ==> forall q :: q in r.value.value ==> exists k :: k in app.manager.db.quests && app.manager.db.quests[k] == q
  {
    var read :- OfflineManager.GetCachedQuests(app.manager, openOk);
    Ok(Answer(App(app.flags, read.manager), read.value))
  }

  /** The operations the hook exposes, as one step of the page. */
  datatype Action =
    | Online(net: nat -> Fetch)
    | Offline
    | Save(questId: string, progress: int, xpEarned: int, now: int, queuedAt: int, openOk: bool)
    | Sync(net: nat -> Fetch, hasController: bool)
    | ReadProgress(questId: string, openOk: bool)
    | ReadQuests(openOk: bool)

  /** One step; a rejected save or read leaves the page as it was. */
  function Step(app: App, a: Action): App {
    match a
    case Online(net) => BrowserGoesOnline(app, net)
    case Offline => BrowserGoesOffline(app)
    case Save(q, p, xp, now, at, ok) =>
      var r := SaveQuestProgress(app, q, p, xp, now, at, ok);
      if r.Ok? then r.value else app
    case Sync(net, c) => ForceSync(app, net, c)
    case ReadProgress(q, ok) =>
      var r := GetQuestProgress(app, q, ok);
      if r.Ok? then r.value.app else app
    case ReadQuests(ok) =>
      var r := GetCachedQuests(app, ok);
      if r.Ok? then r.value.app else app
  }

  /** `hasPendingSync` is cleared by `forceSync` and by nothing else. */
  lemma OnlyForceSyncClearsPending(app: App, a: Action)
    requires app.flags.hasPendingSync && !a.Sync?
    ensures Step(app, a).flags.hasPendingSync
  {
  }

  /** `hasPendingSync` is set only by a save made while the hook believes it is offline. */
  lemma OnlyOfflineSaveSetsPending(app: App, a: Action)
    requires !app.flags.hasPendingSync && Step(app, a).flags.hasPendingSync
    ensures a.Save? && !app.flags.isOnline
  {
  }

  /**
   * The flag is not a view of the outbox: after a save made offline, a `forceSync` while still
   * offline drains nothing, yet clears `hasPendingSync`.
   */
  lemma {:induction false} ForceSyncClearsDespiteQueue(app: App, questId: string, progress: int, xpEarned: int,
                                                       now: int, queuedAt: int, net: nat -> Fetch)
    requires app.manager.dbOpen && !app.manager.isOnline && !app.flags.isOnline
    ensures var saved := SaveQuestProgress(app, questId, progress, xpEarned, now, queuedAt, false).value;
            var synced := ForceSync(saved, net, false);
            && saved.flags.hasPendingSync
            && |synced.manager.db.pending| == |app.manager.db.pending| + 1
            && !synced.flags.hasPendingSync
  {
  }

  /** A save through the hook is read back through the hook. */
  lemma SaveThenGetThroughHook(app: App, questId: string, progress: int, xpEarned: int, now: int, queuedAt: int, openOk: bool)
    requires SaveQuestProgress(app, questId, progress, xpEarned, now, queuedAt, openOk).Ok?
    ensures var saved := SaveQuestProgress(app, questId, progress, xpEarned, now, queuedAt, openOk).value;
            GetQuestProgress(saved, questId, false)
            == Ok(Answer(saved, Some(ProgressRecord(questId, progress, xpEarned, now, app.manager.isOnline))))
  {
    OfflineManager.SaveThenGet(app.manager, questId, progress, xpEarned, now, queuedAt, openOk);
    var saved := SaveQuestProgress(app, questId, progress, xpEarned, now, queuedAt, openOk).value;
    assert saved.manager.(dbOpen := true) == saved.manager;
  }

  /**
   * After a reload over a persisted outbox, with the constructor's open succeeded, the first
   * "online" event drains: only quest-progress entries that fail at the network remain.
   */
  lemma ReloadThenOnlineDrains(navigatorOnline: Option<bool>, persisted: Db, net: nat -> Fetch)
    requires Valid(persisted)
    ensures var app := App(Mount(Initial(), navigatorOnline == Some(true)), Create(navigatorOnline, persisted, true));
            var after := Step(app, Online(net));
            forall e :: e in after.manager.db.pending <==> e in persisted.pending && IsQuestProgress(e) && net(e.id).NetworkError?
  {
  }

  /** A read opens the singleton's handle for the page's later writes, and changes nothing else. */
  lemma ReadOpensHandle(app: App, questId: string)
    requires !app.manager.dbOpen
    ensures Step(app, ReadProgress(questId, true)) == App(app.flags, app.manager.(dbOpen := true))
    ensures Step(app, ReadQuests(true)) == App(app.flags, app.manager.(dbOpen := true))
  {
  }
}
