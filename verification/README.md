# Quest Academy offline core, modelled in Dafny

Quest Academy is a Next.js learning app for students in grades 6 to 12, built to keep working on poor connections. This project models its offline core and the pure rules of its main pages.

- **`OfflineManager`** (`lib/offline-manager.ts`): the page-side coordinator.
  - It writes quest progress through to the `QuestAcademyDB` IndexedDB database.
  - A write made offline is also queued in the `pendingSync` outbox.
  - When the browser reports it is online, the outbox is replayed against `/api/sync/quest-progress`.
- **The service worker** (`public/sw.js`):
  - the install and activate lifecycle of its caches;
  - the fetch router and its three strategies: network-first, cache-first and stale-while-revalidate;
  - background sync of the same outbox;
  - the page-to-worker message commands.
- **The `useOffline` hook** (`hooks/use-offline.ts`): the `isOnline` and `hasPendingSync` flags that the UI shows.
- **The pure rules of five pages**: filters, caps, totals, badge colours, button captions and enablement.
  - home: `app/page.tsx`
  - games hub: `app/games/page.tsx`
  - achievements: `app/achievements/page.tsx`
  - learning journey: `app/journey/page.tsx`
  - community: `app/community/page.tsx`

All state is immutable data and every operation is a pure function.

- **Database.** `Store.Db` holds the `quests`, `progress` and `pendingSync` stores. The outbox is a sequence in key order, with an auto-increment key generator.
- **Cache Storage.** It is a sequence of named caches in creation order, which is the order `caches.match` searches.
- **Inputs from outside.** These are parameters:
  - The network is a function from a request key to `Responded(response)` or `NetworkError`.
  - `Date.now()` readings are plain integers.
  - Whether IndexedDB opens is a boolean; a failure becomes `Err(StorageUnavailable)`.
  - `navigator.onLine` is a boolean.

The two outbox drains are compared in `DrainComparison`. The page deletes an entry when its replay does not throw. The worker deletes an entry only when the answer is `ok`.

## Where the code departs from its design description

This model follows the code in each case.

- **When the page's drain deletes** (`lib/offline-manager.ts:165-177`). It deletes an entry whenever `syncItem` does not throw. `syncItem` never checks `response.ok`, so a 4xx or 5xx answer also removes the entry.
- **Unknown entry types** (`lib/offline-manager.ts:184-193`). An entry of a type other than `"quest-progress"` makes no request and is deleted.
- **The `synced` flag.** No code path marks a progress record as synced after a replay. The flag keeps the online state at the time of the save.

## Model

| member | source | states |
|---|---|---|
| `Store.Created` | lib/offline-manager.ts:24-44 | The upgrade handler creates empty stores and an outbox key generator starting at 1; the result satisfies the store invariant. |
| `Store.PutProgress` | lib/offline-manager.ts:89-91 | An upsert keyed by `questId`: the new record is under its key, every other key keeps its record, and the other stores are untouched. |
| `Store.GetProgress` | lib/offline-manager.ts:103-110 | A record comes back exactly when its key is stored, and in a valid database it carries that key. |
| `Store.PutThenGetProgress` | lib/offline-manager.ts:89-110 | A get after a put returns the put record for the same key and the earlier answer for any other key. |
| `Store.PutQuests` | lib/offline-manager.ts:117-122 | Putting quests in turn leaves each key with the last quest carrying it, and keys no quest names keep their old quest; key paths stay consistent. |
| `Store.PutQuestsIdempotent` | lib/offline-manager.ts:120-122 | Putting the same list twice gives the same store as putting it once. |
| `Store.CachedQuests` | lib/offline-manager.ts:129-136 | `getAll` returns every stored quest and nothing else; in a valid store no two returned quests share an id. |
| `Store.AddPending` | lib/offline-manager.ts:143-151 | `add` appends one entry whose key is larger than every key present, and preserves the store invariant. |
| `Store.DeletePending` | lib/offline-manager.ts:171-173 | `delete(id)` removes exactly the entries with that key, keeps the others in order, and is a no-op for a missing key. |
| `Store.KeysIdentifyEntries` | lib/offline-manager.ts:37-39 | Auto-increment keys are unique: two outbox entries with the same key are the same entry. |
| `OfflineManager.Create` | lib/offline-manager.ts:2-12 | A new manager works over the database kept from earlier visits. Its handle is open exactly when the constructor's `initializeDB` succeeded. Its online flag is `navigator.onLine`, or true without a navigator. |
| `OfflineManager.EnsureOpen` | lib/offline-manager.ts:14-22 | An open handle is reused; otherwise opening succeeds or rejects, and nothing else changes. |
| `OfflineManager.SaveQuestProgress` | lib/offline-manager.ts:78-97 | The record is readable with `synced` equal to the online flag. Other keys are unchanged. Offline, exactly one `"quest-progress"` entry with the record and a fresh key is appended. Online, the outbox is untouched. It fails only when the database cannot be opened. |
| `OfflineManager.GetQuestProgress` | lib/offline-manager.ts:100-111 | Returns the stored record for the key, or nothing, without changing the state beyond opening the handle. |
| `OfflineManager.CacheQuestData` | lib/offline-manager.ts:114-123 | Each quest's last occurrence is stored under its id and other cached quests stay. The cached ids afterwards are exactly the old ones plus the ids passed. Progress, outbox and key generator are untouched. |
| `OfflineManager.GetCachedQuests` | lib/offline-manager.ts:126-137 | Exactly the cached quests come back, in both directions, one per id in a valid store. The handle is open afterwards. |
| `OfflineManager.SyncItem` | lib/offline-manager.ts:181-194 | Only a `"quest-progress"` entry is POSTed, with its payload; it throws only on a network error, never on an HTTP error status. |
| `OfflineManager.Posted` | lib/offline-manager.ts:165-168 | The replay loop POSTs the payloads of the snapshot's `"quest-progress"` entries, one each, in key order. |
| `OfflineManager.Replay` | lib/offline-manager.ts:165-177 | After the loop, an entry remains exactly when its key was not acknowledged (its replay threw); the other stores and the key generator are unchanged. |
| `OfflineManager.SyncPendingData` | lib/offline-manager.ts:155-179 | Closed or offline: no effect. Otherwise, in a valid database, the entries left are exactly the `"quest-progress"` entries whose POST hit a network error. The payload list is as `Posted`. |
| `OfflineManager.OnOnline` | lib/offline-manager.ts:49-53 | The flag becomes true and one drain runs with the same outcome as `syncPendingData`; the notice carries `isOnline = true`. |
| `OfflineManager.OnOffline` | lib/offline-manager.ts:55-58 | The flag becomes false, the database is untouched, and the notice carries `isOnline = false`. |
| `OfflineManager.GetOnlineStatus` | lib/offline-manager.ts:206-208 | Reads the manager's flag and changes nothing; `OfflineManager.OnlineStatusFollowsEvents` relates it to the connectivity events. |
| `OfflineManager.OnlineStatusFollowsEvents` | lib/offline-manager.ts:206-208 | `getOnlineStatus` reads back the last connectivity event. |
| `OfflineManager.ForcSync` | lib/offline-manager.ts:211-216 | The worker is messaged exactly when a controller exists, and the outbox outcome is that of `syncPendingData`. |
| `OfflineManager.SaveThenGet` | lib/offline-manager.ts:78-111 | A saved record is read back with `synced` equal to the online flag at the save. |
| `OfflineManager.AnsweredReplayEmptiesOutbox` | lib/offline-manager.ts:155-194 | After an offline save, any server answer, even an error status, empties the outbox on reconnection, while the record keeps `synced = false`. |
| `OfflineManager.FailingNetworkRetry` | lib/offline-manager.ts:155-194 | With the network failing, a drain deletes only the non-progress entries, and a second drain deletes nothing more. |
| `OfflineManager.AllThrowKeepsOutbox` | lib/offline-manager.ts:165-177 | When every replay throws, the loop deletes nothing. |
| `UseOffline.Initial` | hooks/use-offline.ts:7-8 | The hook starts online with no pending sync. |
| `UseOffline.Mount` | hooks/use-offline.ts:10-12 | Mounting copies `navigator.onLine` into `isOnline` and leaves `hasPendingSync` alone. |
| `UseOffline.OnWindowEvent` | hooks/use-offline.ts:15-26 | Native events set `isOnline` to true or false, the custom event copies its detail, and none touches `hasPendingSync`. |
| `UseOffline.BrowserGoesOnline` | hooks/use-offline.ts:15-26 | After the manager's listener and the hook's own, both flags say online, progress is untouched, and `hasPendingSync` is unchanged. |
| `UseOffline.BrowserGoesOffline` | hooks/use-offline.ts:22-26 | Both flags say offline and the database is untouched. |
| `UseOffline.SaveQuestProgress` | hooks/use-offline.ts:35-40 | Fails exactly when the manager's save fails. On success, `hasPendingSync` is set when the hook believes it is offline and is otherwise unchanged. |
| `UseOffline.ForceSync` | hooks/use-offline.ts:50-53 | `hasPendingSync` is cleared whatever the drain achieved, and the manager state is the one after `forcSync`. |
| `UseOffline.GetQuestProgress` | hooks/use-offline.ts:42-44 | Fails exactly when the handle is closed and cannot be opened. Otherwise it returns the stored record, or nothing, and the page afterwards has the singleton's handle open with flags and data unchanged. |
| `UseOffline.GetCachedQuests` | hooks/use-offline.ts:46-48 | Fails exactly when the handle is closed and cannot be opened. Otherwise it returns exactly the cached quests, and the page afterwards has the singleton's handle open. |
| `UseOffline.OnlyForceSyncClearsPending` | hooks/use-offline.ts:35-53 | No step other than `forceSync` clears a set `hasPendingSync`. |
| `UseOffline.OnlyOfflineSaveSetsPending` | hooks/use-offline.ts:35-40 | `hasPendingSync` becomes set only through a save made while the hook believes it is offline. |
| `UseOffline.ForceSyncClearsDespiteQueue` | hooks/use-offline.ts:50-53 | Offline, a save then `forceSync` leaves the new outbox entry in place, yet `hasPendingSync` is cleared. |
| `UseOffline.SaveThenGetThroughHook` | hooks/use-offline.ts:35-44 | A save through the hook is read back through the hook. |
| `UseOffline.ReloadThenOnlineDrains` | lib/offline-manager.ts:6-53 | After a reload over a persisted outbox whose open succeeded, the first online event drains: only `"quest-progress"` entries that fail at the network remain. |
| `UseOffline.ReadOpensHandle` | lib/offline-manager.ts:100-137 | A read through the hook opens the singleton's closed handle and changes nothing else, so later drains can run. |
| `ServiceWorker.Route` | public/sw.js:56-85 | The dispatch, as four iff statements: non-GET passes through; API pathnames go network-first; other assets go cache-first; other navigations go stale-while-revalidate; everything else goes network-first. |
| `ServiceWorker.Match` | public/sw.js:101 | `caches.match` finds nothing exactly when no cache holds the URL. Otherwise it returns the entry of the oldest cache that holds it. |
| `ServiceWorker.Open` | public/sw.js:94 | `caches.open` returns an existing cache unchanged, or appends an empty one under the new name; either way the name is then found. |
| `ServiceWorker.Put` | public/sw.js:94-95 | `cache.put` after `caches.open` changes only the named cache, at the given URL only; every other cache and every name is as after the open. |
| `ServiceWorker.PutThenMatch` | public/sw.js:94-101 | A response put into a cache is what `caches.match` then returns, unless an older cache already holds that URL and shadows it. |
| `ServiceWorker.OfflineApiResponse` | public/sw.js:108-120 | The synthetic API response has status 503 and is not `ok`. |
| `ServiceWorker.NetworkFirstStrategy` | public/sw.js:89-124 | Any network answer is returned and cached only when `ok`. On a network error the result is, in order: the cached copy; else the 503 JSON when the URL contains `/api/`; else a rejection. |
| `ServiceWorker.CacheFirstStrategy` | public/sw.js:127-147 | A hit is served without the network. On a miss the network answer is returned and cached only when `ok`, and a network error rejects. |
| `ServiceWorker.Revalidate` | public/sw.js:153-161 | An `ok` background answer is put under the request's URL in the dynamic cache and nothing else changes, so a later match finds a response. Any other outcome leaves the caches unchanged. |
| `ServiceWorker.StaleWhileRevalidateAsWritten` | public/sw.js:150-169 | As written: the cached copy, else the network answer, else `null`. The fallbacks are never reached. |
| `ServiceWorker.StaleWhileRevalidateStrategy` | public/sw.js:150-169 | As intended: the cached copy, else the network answer, else the cached root page, else the 503 placeholder. |
| `ServiceWorker.SwrFallbacksUnreachable` | public/sw.js:163-168 | With nothing cached for the URL, no network and the root page cached: as written the reply is `null`, and as intended it is the root page. |
| `ServiceWorker.SwrAsWrittenOnlyCacheOrNetwork` | public/sw.js:163-168 | As written, every reply is `null`, the cached copy or the network's answer. |
| `ServiceWorker.SwrAlwaysServes` | public/sw.js:163-168 | As intended, a navigation is always answered with a response. |
| `ServiceWorker.HandleFetch` | public/sw.js:52-86 | As written, navigations included. Only non-GET requests go to the browser. The network is skipped only for those and for cache-first hits. The only cache write is an `ok` answer put under the URL in the dynamic cache. The reply is `null` exactly for a navigation with no cached copy and no network. A rejection happens exactly on a network error with no cached copy, for an asset or a non-API resource. A GET with a cached copy is served that copy, unless it goes network-first and the network answers. |
| `ServiceWorker.HandleFetchIntended` | public/sw.js:52-86 | With the intended stale-while-revalidate, the listener never resolves to `null`, and every navigation is served a response. |
| `ServiceWorker.HandleFetchDivergence` | public/sw.js:79-80 | The listener as written and the intended one differ exactly on a navigation with no cached copy and no network, and they always leave the same caches. |
| `ServiceWorker.ApiRequestsNeverRejected` | public/sw.js:52-124 | A GET to an API path whose URL contains that path is never answered with a rejection. |
| `ServiceWorker.CacheFirstMissThenHit` | public/sw.js:127-142 | After an `ok` fetch on a miss, the next request for that asset is served from the cache without the network. |
| `ServiceWorker.Activate` | public/sw.js:29-43 | Exactly the static and dynamic caches survive, in order, and `quest-academy-v1` is deleted. |
| `ServiceWorker.ActivateIsIdempotent` | public/sw.js:33-43 | After activation no `quest-academy-v1` cache is left, and activating again changes nothing. |
| `ServiceWorker.Install` | public/sw.js:9-26 | `addAll` is all or nothing. Every asset is stored when every fetch is `ok`. Otherwise only the opened static cache remains, and other caches are untouched. |
| `ServiceWorker.Upload` | public/sw.js:196-213 | Every payload is POSTed in order, whatever its type. An entry remains exactly when its answer was not `ok`. |
| `ServiceWorker.SyncQuestProgress` | public/sw.js:185-219 | As intended: in a valid database, the entries left are exactly those not answered `ok`; a failed open changes nothing. |
| `ServiceWorker.SyncQuestProgressAsWritten` | public/sw.js:190-218 | As written: the TypeError is caught, so nothing is POSTed and the database is unchanged. |
| `ServiceWorker.SyncAsWrittenNeverDrains` | public/sw.js:193-213 | Even when the server accepts everything, the as-written sync keeps a non-empty outbox while the intended one empties it. |
| `ServiceWorker.OnSync` | public/sw.js:172-182 | Only `quest-progress-sync` touches the outbox; `student-data-sync` and other tags change nothing. |
| `ServiceWorker.CacheQuestData` | public/sw.js:282-296 | Each quest's last occurrence is stored under its id and other quests stay. The cached ids afterwards are exactly the old ones plus, when the open succeeded, the ids passed. Progress, outbox and key generator are untouched, and a failed open changes nothing. |
| `ServiceWorker.OnMessage` | public/sw.js:265-279 | `CACHE_QUEST_DATA` caches, `GET_OFFLINE_STATUS` replies with `!navigator.onLine`, and `FORCE_SYNC` registers `quest-progress-sync`. Any other type has no effect. |
| `ServiceWorker.CacheQuestDataIdempotent` | public/sw.js:288-290 | Caching the same quests twice is the same as caching them once. |
| `DrainComparison.RejectedUploadDivergence` | public/sw.js:196-213 | A progress entry answered with an error status is deleted by the page's drain and kept by the worker's. |
| `DrainComparison.ForeignEntryDivergence` | lib/offline-manager.ts:181-194 | An entry of another type is always deleted by the page's drain. The worker keeps it exactly when its POST is not answered `ok`. |
| `DrainComparison.DrainsAgreeOnClearOutcomes` | lib/offline-manager.ts:165-177 | Both drains keep a progress entry whose POST fails at the network, and both delete one answered `ok`. |
| `Badges.DifficultyTone` | app/page.tsx:186-197 | Green, orange and red for the three difficulties, and gray exactly for anything else. |
| `Badges.GameDifficultyTone` | app/games/page.tsx:40-44 | Green and orange for the first two difficulties, and red for every other value, so a game badge is never gray. |
| `Badges.DifficultyLookupsAgreeOnKnownValues` | app/games/page.tsx:40-44 | The games-hub lookup and the home/journey lookup agree exactly on the three named difficulties. |
| `Badges.RarityTone` | app/achievements/page.tsx:204-217 | Blue, purple and yellow for Rare, Epic and Legendary, and gray exactly for every other rarity. |
| `Badges.ChallengeTypeTone` | app/community/page.tsx:272-283 | Green, blue and purple for Individual, Team and Village, and gray exactly for anything else. |
| `Badges.PlayLabelFor` | app/page.tsx:439 | A game card, on the home page or the games hub, says "Continue" exactly when its progress is positive. |
| `HomePage.FilterMiniGames` | app/page.tsx:159-162 | Keeps exactly the games whose grade range contains the grade, with both ends included, in catalogue order. |
| `HomePage.EveryGradeHasAMiniGame` | app/page.tsx:152-162 | Every grade from 6 to 12 shows at least one mini-game. |
| `HomePage.FilterQuizzes` | app/page.tsx:179-184 | Keeps exactly the quizzes whose subject matches (or the subject is "All") and whose grade and language match, in order. |
| `HomePage.ShownQuizzes` | app/page.tsx:501 | At most six quizzes are shown: a prefix of the matches, equal to all of them when there are fewer than six. |
| `HomePage.SubjectNarrowsAll` | app/page.tsx:179-184 | Choosing one subject shows an in-order sub-list of what "All" shows. |
| `HomePage.ShippedSlotsAscend` | app/page.tsx:164-177 | The quiz catalogue is ordered by grade and, within a grade, by language. |
| `HomePage.ShippedSlotsDistinct` | app/page.tsx:164-177 | No two catalogue quizzes share both grade and language. |
| `HomePage.AtMostOnePerSlot` | app/page.tsx:179-184 | When no two quizzes share a grade and a language, any filter matches at most one quiz. |
| `HomePage.ShippedQuizzesNeverReachCap` | app/page.tsx:164-184 | In the shipped catalogue any filter matches at most one quiz, so the cap of six never applies. |
| `HomePage.HandleQuestClick` | app/page.tsx:199-204 | A click selects an unlocked quest and leaves the selection alone for a locked one. |
| `HomePage.QuestButtonFor` | app/page.tsx:605-630 | The button is disabled exactly for locked quests and outlined exactly for completed ones. Its caption has the precedence Locked, Completed, Continue Safari, Start Safari, each stated as an iff. |
| `HomePage.QuestIconFor` | app/page.tsx:559-566 | The corner icon has the precedence check, lock, then subject, each stated as an iff. |
| `HomePage.ShowsQuestProgress` | app/page.tsx:595-602 | A quest card draws its progress bar exactly when the quest is not locked. |
| `HomePage.ClickSelectsIffButtonEnabled` | app/page.tsx:548-610 | A card click selects the quest, whatever was selected, exactly when its button is enabled. |
| `HomePage.IconAndButtonPrecedenceDiffer` | app/page.tsx:559-630 | A quest that is both locked and completed shows the check icon but a "Locked" button. |
| `GamesPage.CatalogueFingerprintsDistinct` | app/games/page.tsx:26-38 | No two catalogue games share an id fingerprint. |
| `GamesPage.CatalogueIdsDistinct` | app/games/page.tsx:26-38 | The catalogue's game ids are pairwise distinct. |
| `GamesPage.Filtered` | app/games/page.tsx:49-52 | Keeps exactly the games whose grade range contains the grade, in catalogue order, and keeps ids distinct. |
| `GamesPage.FilterKeepsIds` | app/games/page.tsx:49-52 | Filtering a list with distinct ids leaves distinct ids. |
| `GamesPage.ShownGamesDistinct` | app/games/page.tsx:49-52 | For every grade, the hub lists no game twice. |
| `GamesPage.EveryGradeHasGames` | app/games/page.tsx:26-52 | Every grade from 6 to 12 shows at least two games. |
| `GamesPage.CoverUrl` | app/games/page.tsx:87 | The card image is the cover when it is present and non-empty, else the placeholder, and it is never empty. |
| `AchievementsPage.FilterByCategory` | app/achievements/page.tsx:234-235 | "all" shows the list itself. Any other category shows exactly its achievements, in order. |
| `AchievementsPage.EarnedAchievements` | app/achievements/page.tsx:237 | Exactly the earned achievements, in order. There is one per earned position, so its length is the earned count shown at line 276. |
| `AchievementsPage.TotalPoints` | app/achievements/page.tsx:238 | The fold equals the sum of the earned achievements' points, and with non-negative points it lies between zero and the sum over all achievements. |
| `AchievementsPage.EarnedPointsBounded` | app/achievements/page.tsx:237-238 | With non-negative points, the earned points never exceed all points. |
| `AchievementsPage.NothingEarnedNoPoints` | app/achievements/page.tsx:237-238 | With nothing earned, both the count and the points are zero. |
| `AchievementsPage.ShippedTotals` | app/achievements/page.tsx:72-238 | The shipped list has four earned achievements worth 700 points. |
| `AchievementsPage.ProgressRow` | app/achievements/page.tsx:395-421 | The progress row appears exactly under unearned cards with a defined progress and a non-zero `maxProgress`, and it shows the pair. |
| `AchievementsPage.ShippedProgressRows` | app/achievements/page.tsx:72-172 | In the shipped list, exactly the unearned achievements show a progress row. |
| `Seqs.FirstIndex` | app/achievements/page.tsx:472 | `find` stops at the first element that matches (an achievement or a journey node with the id), or finds none. |
| `Seqs.Filter` | app/achievements/page.tsx:237 | `Array.prototype.filter`: never longer than its input; it keeps exactly the elements that pass, and only those. |
| `AchievementsPage.RequirementChip` | app/achievements/page.tsx:471-485 | A chip is ticked exactly when the id names an earned achievement, and then shows its title. Otherwise it shows that achievement's non-empty title, or the raw id when no achievement has the id or its title is empty. |
| `AchievementsPage.RewardCardFor` | app/achievements/page.tsx:455-490 | The equip branch is taken exactly on the stored `unlocked` flag. A locked card shows one chip per required id, in order. |
| `AchievementsPage.RewardBranchIgnoresAchievements` | app/achievements/page.tsx:455 | Earning achievements never changes which branch a reward card takes. |
| `AchievementsPage.LockedRewardWithEarnedRequirements` | app/achievements/page.tsx:455-490 | A locked reward whose requirements are all earned shows only ticked chips, and still no equip button. |
| `AchievementsPage.ShippedRewardsAgreeWithRequirements` | app/achievements/page.tsx:174-202 | In the shipped data each stored `unlocked` flag equals "every requirement earned". |
| `JourneyPage.TotalXP` | app/journey/page.tsx:178 | The skipping fold equals the sum of the completed nodes' rewards, and with non-negative rewards it is at most the sum over all nodes. |
| `JourneyPage.CompletedXpBounded` | app/journey/page.tsx:178 | With non-negative rewards, the completed rewards lie between zero and all the rewards. |
| `JourneyPage.CompletedNodes` | app/journey/page.tsx:179-180 | The number of completed nodes, counted by position. So it is at most the total, equals the total exactly when every node is completed, and is zero exactly when none is. |
| `Seqs.FilterCountsIndices` | app/journey/page.tsx:179 | `filter(...).length` is the number of positions whose element passes the test. |
| `JourneyPage.LinesFrom` | app/journey/page.tsx:258-262 | A node's lines go exactly to the connection ids that resolve. A line is highlighted exactly when its source is completed and its target unlocked. |
| `JourneyPage.Lines` | app/journey/page.tsx:257-279 | Every drawn line comes from a connection that resolves, and every such connection is drawn, with the same highlighting rule. |
| `JourneyPage.PathUnlocked` | app/journey/page.tsx:262 | A line is drawn solid orange exactly when its source is completed and its target unlocked. |
| `JourneyPage.ShippedConnectionsResolve` | app/journey/page.tsx:30-151 | Every connection id on the shipped map names a node. |
| `JourneyPage.UnresolvedConnectionDrawsNothing` | app/journey/page.tsx:259-260 | An id that names no node draws no line. |
| `JourneyPage.StatusOf` | app/journey/page.tsx:153-163 | The colour and the icon share one precedence: completed, then unlocked, then locked, each stated as an iff. |
| `JourneyPage.NodeButtonFor` | app/journey/page.tsx:351-379 | Disabled exactly when the node is not unlocked. Captions by precedence: Completed, Continue, Start Quest, Locked. |
| `JourneyPage.StatusButtonAndBarAgree` | app/journey/page.tsx:341-379 | The progress bar is shown exactly for available nodes, and the caption names the status. A completed node that is not unlocked has a disabled "Completed" button. |
| `JourneyPage.ShowsProgressBar` | app/journey/page.tsx:341 | The details panel draws the progress bar exactly for nodes that are unlocked and not completed. |
| `CommunityPage.XpShown` | app/community/page.tsx:392-396 | Weekly XP for "weekly", monthly XP for "monthly", and total XP for any other value. |
| `CommunityPage.TimeframeColumn` | app/community/page.tsx:434-438 | The shown figure is one of the three stored ones, and any unnamed timeframe behaves like "alltime". |
| `CommunityPage.Podium` | app/community/page.tsx:354-381 | At most the first three students, each numbered by position plus one. |
| `CommunityPage.PodiumAgreesWithRanks` | app/community/page.tsx:354-416 | The podium numbers equal the printed ranks exactly when the first three ranks are 1, 2 and 3. |
| `CommunityPage.ShippedPodiumMatchesRanks` | app/community/page.tsx:81-134 | On the shipped leaderboard the podium numbers match the printed ranks. |
| `CommunityPage.MedalAt` | app/community/page.tsx:356-378 | Gold, silver and bronze by position, each stated as an iff. |
| `CommunityPage.Gallery` | app/community/page.tsx:467-469 | "all" shows every achievement. Any other category shows exactly its achievements, in order. |
| `CommunityPage.WeeklyChampionOnlyUnderAll` | app/community/page.tsx:455-469 | "Weekly Champion" appears only under "all", because no option names its category. |
| `CommunityPage.RedeemButtonFor` | app/community/page.tsx:606-623 | "Redeem" exactly when 1250 XP covers the requirement. Otherwise it shows a positive shortfall that closes the gap exactly. |
| `CommunityPage.RedeemDisabled` | app/community/page.tsx:609 | The button is disabled exactly when 1250 XP is below the requirement. |
| `CommunityPage.DisabledExactlyWithShortfall` | app/community/page.tsx:606-623 | The `disabled` comparison and the caption never disagree. |
| `CommunityPage.ShippedRewardStore` | app/community/page.tsx:136-192 | In the shipped store only "Weekly Champion" is out of reach, by 250 XP. |
| `Text.IncludesOccurrence` | public/sw.js:72 | `includes` finds an occurrence at any position. |
| `Text.IncludesHasOccurrence` | public/sw.js:72 | `includes` holds only when an occurrence exists. |

## Left out

- **Not part of this model:**
  - IndexedDB and Cache Storage as asynchronous APIs. Transactions, request objects and their `onsuccess`/`onerror` callbacks are collapsed into pure functions over `Store.Db` and `ServiceWorker.CacheStorage`.
  - Concurrency and interleaving. Examples are two drains at once, or a save racing a drain. The model has no single-flight guard and no retry limit for an entry that always fails, because the code has none. The manager's `syncPendingData` returns before its `onsuccess` loop runs, so `forcSync` and the hook's `forceSync` do not wait for the drain. The model treats each drain as finishing in one step.
  - Service-worker registration and `sync.register` (`lib/offline-manager.ts:61-75`). These are browser calls with no data effect in this model.
  - `skipWaiting`, `clients.claim`, `postMessage` transport and the `onlineStatusChange` `CustomEvent` object. The event's `detail.isOnline` is kept as a boolean.
- **Outside inputs become parameters:** `Date.now()`, network answers, `navigator.onLine`, the availability of IndexedDB, and whether a service-worker controller exists.
- **`syncStudentData` and the `studentData` store:** the function only logs, and nothing reads or writes the store.
- **URL parsing and request fields:** the URL parser is not modelled; a request carries its `pathname` beside its `url`. Response headers such as `Content-Type` are not modelled either.
- **Numbers:**
  - JavaScript numbers are modelled as unbounded integers. Progress and XP values are integers in every shipped record.
  - The progress-bar percentages at `app/achievements/page.tsx:418` are floating point and are left out.
  - `Number(...)` parsing of the grade selects is left out; the grade arrives as an integer.
- **Styling and rendering:** each Tailwind class string is reduced to its hue. Markup, icons, text and navigation are left out.
- **Home page timer:** the random online/offline simulation at `app/page.tsx:64-69` is a timer with randomness.
- **Journey details panel:** opening it by clicking a node is plain `useState` and is not modelled. The panel's button and progress bar are modelled.
- **Shipped journey totals:** the total XP and highlighted lines of the eight shipped nodes are not evaluated. Only the general properties of `JourneyPage.TotalXP` and `JourneyPage.Lines` are proved.
- GetCachedQuests: `getAll` returns an array in key order; the model returns the same quests as a set, so the order is not modelled. No modelled caller depends on that order, and comparing string keys in IndexedDB key order is left out. `UseOffline.GetCachedQuests` returns the same set.
- Create: `initializeDB` is started but not awaited. The model takes its outcome as settled before the manager's next call or event, so no call races the open.
- **Other pages and components:** AI tutor, login, parent, teacher, profile and the UI component library.

## Findings

| source | as written | input that shows it | evidently intended | confidence | as-written member | corrected member |
|---|---|---|---|---|---|---|
| public/sw.js:163-168 | The logical-or chain over `cachedResponse`, `networkResponsePromise`, `caches.match("/")` and the placeholder stops at the promise, which is always truthy. So the root-page and 503 fallbacks are never used, and a failed fetch resolves to `null`. | A navigation to an uncached page while offline, with `/` in the static cache: the reply is `null`, not the cached root page. | Await the network promise first, then fall back to the cached root page, then to the 503 placeholder. | not executed | `ServiceWorker.StaleWhileRevalidateAsWritten` (`ServiceWorker.SwrFallbacksUnreachable`; used by `ServiceWorker.HandleFetch`) | `ServiceWorker.StaleWhileRevalidateStrategy` (`ServiceWorker.SwrAlwaysServes`; used by `ServiceWorker.HandleFetchIntended`, compared in `ServiceWorker.HandleFetchDivergence`) |
| public/sw.js:193-196 | `await store.getAll()` yields the `IDBRequest`, not the entries. `for...of` over it throws a TypeError, which the outer `catch` logs, so background sync never uploads or deletes anything. | Any non-empty outbox and a server that accepts every upload: after `quest-progress-sync` the outbox is unchanged. | Wait for the request's `onsuccess`, upload each entry, and delete the entries answered `ok`. | not executed | `ServiceWorker.SyncQuestProgressAsWritten` (`ServiceWorker.SyncAsWrittenNeverDrains`) | `ServiceWorker.SyncQuestProgress` (used by `ServiceWorker.OnSync`) |
