/**
 * The outbox has two drains: the page's `syncPendingData` and the worker's background
 * sync. They share the database but decide differently which entries to delete.
 */
module DrainComparison {
  import opened Http
  import opened Store
  import OfflineManager
  import ServiceWorker

  /**
   * A progress entry the server answers with a non-`ok` status is deleted by the page's
   * drain, which deletes on any answer, but kept by the worker's, which deletes only on `ok`.
   */
  lemma RejectedUploadDivergence(m: OfflineManager.Manager, net: nat -> Fetch, e: PendingEntry)
    requires Valid(m.db) && m.dbOpen && m.isOnline
    requires e in m.db.pending && OfflineManager.IsQuestProgress(e)
    requires net(e.id).Responded? && !net(e.id).response.Ok()
    ensures e !in OfflineManager.SyncPendingData(m, net).manager.db.pending
    ensures e in ServiceWorker.SyncQuestProgress(m.db, true, net).db.pending
  {
  }

  /**
   * An entry of another kind is deleted by the page's drain without being sent, whatever the
   * network does, while the worker POSTs its payload and keeps it until the answer is `ok`.
   */
  lemma ForeignEntryDivergence(m: OfflineManager.Manager, net: nat -> Fetch, e: PendingEntry)
    requires Valid(m.db) && m.dbOpen && m.isOnline
    requires e in m.db.pending && !OfflineManager.IsQuestProgress(e)
    ensures e !in OfflineManager.SyncPendingData(m, net).manager.db.pending
    ensures e in ServiceWorker.SyncQuestProgress(m.db, true, net).db.pending <==> !(net(e.id).Responded? && net(e.id).response.Ok())
  {
  }

  /** Both drains keep an entry whose upload fails at the network level, and both delete one answered `ok`. */
  lemma DrainsAgreeOnClearOutcomes(m: OfflineManager.Manager, net: nat -> Fetch, e: PendingEntry)
    requires Valid(m.db) && m.dbOpen && m.isOnline
    requires e in m.db.pending && OfflineManager.IsQuestProgress(e)
    ensures net(e.id).NetworkError? ==>
              && e in OfflineManager.SyncPendingData(m, net).manager.db.pending
              && e in ServiceWorker.SyncQuestProgress(m.db, true, net).db.pending
    ensures net(e.id).Responded? && net(e.id).response.Ok() ==>
              && e !in OfflineManager.SyncPendingData(m, net).manager.db.pending
              && e !in ServiceWorker.SyncQuestProgress(m.db, true, net).db.pending
  {
  }
}
