# Insurance-price predictor: record store, client state and dashboard

This project models the logic of a small web application. The application predicts health-insurance prices and keeps each user's prediction history and profile.

The model has three parts:

- **The record service.** This is the server in `src/supabase/functions/server/index.tsx`. It builds keys from a user id: `predictions:{userId}:{id}` for each prediction and `profile:{userId}` for the profile. It then lists, saves and clears predictions, and gets and sets the profile, in a key-value table.
  - The table itself (`kv_store.tsx`) is not part of this model. It is the class `KvStore.Store`: a `map<string, Value>` plus a `reachable` flag. When the flag is false, every call fails and changes nothing. That is how a storage failure is modelled, and the handlers then return their fixed error messages.
  - `RecordService` holds the keys, the handlers, and one pure function per handler giving the table afterwards (`AfterSave`, `AfterClear`, `AfterSetProfile`).
  - `RecordLaws` proves what these functions guarantee across calls.
- **The client state.** This is `src/App.tsx`, modelled as the class `ClientState.App`. Its fields are the sign-in flag, the history, the profile, the loading flag and the browser's local storage (a map).
  - Each handler states its whole new state.
  - The invariant `Valid` says that, while the user is signed in, what is in memory is what is in storage. `Reload` proves the consequence: reloading the page shows the same history and profile.
- **The statistics and labels.** These come from `src/components/DashboardPage.tsx` and `src/components/HistoryPage.tsx`, in the modules `Dashboard`, `History` and `Rounding`.

Two facts about the key scheme shape the record-service lemmas:

- A user's prefix `predictions:{u}:` also matches the keys of any user whose id is `{u}:{more}`. So isolation between users is proved only for ids without `:`, and `ColonUserVisible` proves that it fails otherwise. The server takes the user id from the request path and does not check it, so ids without `:` are an assumption about the callers, not something the service enforces.
- The clear handler does not delete the keys its scan found. It deletes keys rebuilt from each document's `id`. So it empties the user's listing exactly when every listed key is one of the rebuilt keys (`ClearEmptiesIffListedRebuilt`). In particular it does so if each listed key is the prefix followed by its document's id (`ClearEmptiesWhenKeysMatchIds`), though that is not necessary (`SwappedIdsStillCleared`). That holds on every table written only by users without `:` (`ClearIsTotal`). `ClearMissesColonUser` shows a record that a clear lists but does not delete.

Two behaviours of the code that a reader might not expect:

- The clear handler deletes rebuilt keys, not the scanned ones.
- A save does not check that the record has an `id`.

## Model

| member | source | states |
|---|---|---|
| KvStore.Store.GetByPrefix | src/supabase/functions/server/index.tsx:32 | returns the documents of exactly the keys starting with the prefix, each key once; fails only when storage is unreachable |
| KvStore.ScanSize | src/supabase/functions/server/index.tsx:32-34 | a scan has one entry per matching key, so it is empty exactly when no key matches |
| KvStore.Store.Set | src/supabase/functions/server/index.tsx:49 | replaces the document under the key and changes no other key |
| KvStore.Store.Mdel | src/supabase/functions/server/index.tsx:67 | removes every listed key, present or absent, and nothing else |
| KvStore.Store.Get | src/supabase/functions/server/index.tsx:82 | returns the stored document, or None for a key never set, rather than an error |
| RecordService.PredictionPrefix | src/supabase/functions/server/index.tsx:32 | the prefix is `predictions:`, then the user id, then one `:` |
| RecordService.PredictionKey | src/supabase/functions/server/index.tsx:46 | a prediction key is the user's prefix followed by the record id |
| RecordService.RebuiltKeys | src/supabase/functions/server/index.tsx:64 | one key per scanned document, `predictions:{userId}:{id}`, always under the user's prefix |
| RecordService.ListPredictions | src/supabase/functions/server/index.tsx:28-39 | lists the documents of exactly the keys under `predictions:{userId}:`; `[]` when none; "Failed to fetch predictions" when storage fails |
| RecordService.SavePrediction | src/supabase/functions/server/index.tsx:42-56 | overwrites `predictions:{userId}:{id}` with the whole record and nothing else; "Failed to save prediction" when storage fails |
| RecordService.RebuiltKeysOfScan | src/supabase/functions/server/index.tsx:63-64 | the keys rebuilt from a scan are exactly one rebuilt key per matching key |
| RecordService.ClearPredictions | src/supabase/functions/server/index.tsx:59-75 | deletes the rebuilt keys of all listed documents, skips the delete when there are none, leaves everything else; "Failed to delete predictions" when storage fails |
| RecordService.ProfileKey | src/supabase/functions/server/index.tsx:82 | the profile key is `profile:` followed by the user id |
| RecordService.GetProfile | src/supabase/functions/server/index.tsx:78-89 | returns the document at `profile:{userId}` or None; "Failed to fetch profile" when storage fails |
| RecordService.SetProfile | src/supabase/functions/server/index.tsx:92-105 | replaces the document at `profile:{userId}` wholesale; "Failed to update profile" when storage fails |
| RecordLaws.ColonFreeIdsUnique | src/supabase/functions/server/index.tsx:32 | two ids without `:` whose `id:` forms are prefix-related are the same id |
| RecordLaws.PrefixIsolation | src/supabase/functions/server/index.tsx:32-46 | for distinct users without `:`, no key of one starts with the other's prefix |
| RecordLaws.ColonUserVisible | src/supabase/functions/server/index.tsx:32-46 | a save by user `u:v` is listed for user `u`, so isolation needs ids without `:` |
| RecordLaws.NamespacesDisjoint | src/supabase/functions/server/index.tsx:46-98 | no prediction key is a profile key and no profile key lies under a prediction prefix |
| RecordLaws.SaveThenList | src/supabase/functions/server/index.tsx:46-49 | after a save the user's listing gains exactly the saved key, holding the whole record; other keys keep their documents |
| RecordLaws.SaveThenListed | src/supabase/functions/server/index.tsx:32-49 | any listing taken after a save contains the saved record |
| RecordLaws.SaveIdempotent | src/supabase/functions/server/index.tsx:46-49 | saving the same record twice leaves the table as one save does |
| RecordLaws.SaveIsolation | src/supabase/functions/server/index.tsx:32-49 | between users without `:`, a save leaves the other user's listed keys and documents unchanged |
| RecordLaws.PredictionWritesKeepProfiles | src/supabase/functions/server/index.tsx:46-67 | saves and clears leave every user's profile as it was |
| RecordLaws.SetProfileThenGet | src/supabase/functions/server/index.tsx:82-98 | a get after a set returns exactly the set profile; other users' profiles and all prediction listings are unchanged |
| RecordLaws.ProfileReplacedNotMerged | src/supabase/functions/server/index.tsx:98 | a second profile write leaves nothing of the first |
| RecordLaws.ClearStaysInPrefix | src/supabase/functions/server/index.tsx:63-67 | clear deletes only keys under the user's prefix; the listing keeps exactly the listed keys no rebuilt key names |
| RecordLaws.ClearEmptiesWhenKeysMatchIds | src/supabase/functions/server/index.tsx:63-67 | when each listed key is the prefix plus its document's id, the listing is empty after clear |
| RecordLaws.ClearEmptiesIffListedRebuilt | src/supabase/functions/server/index.tsx:63-67 | the listing is empty after clear exactly when every listed key is a key rebuilt from a listed document |
| RecordLaws.SwappedIdsStillCleared | src/supabase/functions/server/index.tsx:63-67 | two documents whose ids are swapped between their keys are both deleted, so keys matching their own ids is not necessary for clear to empty the listing |
| RecordLaws.ClearMissesColonUser | src/supabase/functions/server/index.tsx:63-67 | clearing `u` after user `u:v` saved leaves that record in `u`'s listing |
| RecordLaws.AfterFirstColon | src/supabase/functions/server/index.tsx:46 | the text after the first `:` exists exactly when the text has a `:` |
| RecordLaws.AfterFirstColonSplits | src/supabase/functions/server/index.tsx:46 | for an id without `:`, the text after the first `:` of `{id}:{rest}` is `rest` |
| RecordLaws.WellKeyedKeyMatchesId | src/supabase/functions/server/index.tsx:63-64 | on a well-keyed table, a listed key of a user without `:` is the key rebuilt from its document |
| RecordLaws.WellKeyedKeysMatchIds | src/supabase/functions/server/index.tsx:63-64 | the same for every listed key of that user |
| RecordLaws.SaveKeepsWellKeyed | src/supabase/functions/server/index.tsx:46-49 | a save by a user without `:` keeps every prediction key matching its document's id |
| RecordLaws.SetProfileKeepsWellKeyed | src/supabase/functions/server/index.tsx:98 | a profile write keeps that invariant |
| RecordLaws.ClearKeepsWellKeyed | src/supabase/functions/server/index.tsx:67 | a clear keeps that invariant |
| RecordLaws.ReplayKeepsWellKeyed | src/supabase/functions/server/index.tsx:42-105 | any sequence of saves, clears and profile writes by users without `:` keeps that invariant |
| RecordLaws.ClearIsTotal | src/supabase/functions/server/index.tsx:59-75 | on any table written only by users without `:`, clearing such a user leaves nothing to list |
| RecordLaws.SavedIdListedOnce | src/supabase/functions/server/index.tsx:46-49 | after a save on such a table, exactly one listed key holds a document with the saved id |
| ClientState.App.constructor | src/App.tsx:37-55 | signed in exactly when the stored flag is "true"; then the saved history and profile are loaded, otherwise the empty list and the default profile |
| ClientState.App.LoadData | src/App.tsx:58-71 | history and profile take their saved copies when present and are kept otherwise; loading ends |
| ClientState.App.HandleLogin | src/App.tsx:74-78 | any credentials store "true", sign in and load the saved data |
| ClientState.App.HandleLogout | src/App.tsx:81-85 | signs out, removes the stored flag, empties the in-memory history; profile and saved history untouched |
| ClientState.App.AddPrediction | src/App.tsx:88-92 | the new record goes before the history of the render that created the handler, in its order, and storage holds the new list |
| ClientState.ClearThenLateAdd | src/components/PredictionPage.tsx:26-56 | a delayed add from an earlier render after a clear restores the cleared history behind the new record, in memory and in storage |
| ClientState.App.UpdateUserProfile | src/App.tsx:95-98 | the profile is replaced wholesale in memory and in storage |
| ClientState.App.ClearHistory | src/App.tsx:101-104 | the history is empty and its stored entry removed |
| ClientState.Reload | src/App.tsx:58-104 | reloading while signed in shows the same history and profile; signed out it shows no history |
| History.RegionLabel | src/components/HistoryPage.tsx:21-29 | each of the four region codes gets its fixed name; any other text is returned unchanged |
| History.GenderLabel | src/components/HistoryPage.tsx:31-33 | "Laki-laki" exactly for "male", "Perempuan" for everything else |
| History.SmokerLabel | src/components/HistoryPage.tsx:35-37 | "Ya" exactly for "yes", "Tidak" for everything else |
| History.MonthlyPrice | src/components/HistoryPage.tsx:124 | the monthly figure is the yearly price over 12 rounded half up |
| Rounding.RoundedQuotient | src/components/DashboardPage.tsx:14 | `Math.round(num / den)` is the nearest integer, halves rounded up |
| Dashboard.CountWith | src/components/DashboardPage.tsx:30 | a `filter(...).length` count is at most the number of records |
| Dashboard.CountsPartition | src/components/DashboardPage.tsx:27-72 | when every record's value is one of distinct values, their counts sum to the number of records |
| Dashboard.SmokerCountsCoverAll | src/components/DashboardPage.tsx:27-38 | "yes" and "no" counts sum to the number of records when each record says one of them |
| Dashboard.GenderCountsCoverAll | src/components/DashboardPage.tsx:40-51 | "male" and "female" counts sum to the number of records when each record says one of them |
| Dashboard.Sum | src/components/DashboardPage.tsx:14 | the `reduce` total is 0 for no records |
| Dashboard.SumFromFront | src/components/DashboardPage.tsx:14 | the total is the first price plus the total of the rest |
| Dashboard.SumBetween | src/components/DashboardPage.tsx:14 | the total lies between n times the lowest price and n times the highest |
| Dashboard.Average | src/components/DashboardPage.tsx:13-15 | 0 for no records, otherwise the mean price rounded half up |
| Dashboard.AverageBetween | src/components/DashboardPage.tsx:13-15 | the average lies between the lowest and the highest price |
| Dashboard.CountRegions | src/components/DashboardPage.tsx:54-57 | the table has an entry for each region that occurs, holding its count, and absent regions have count 0 |
| Dashboard.TopRegions | src/components/DashboardPage.tsx:66-72 | always four bars, named for northwest, northeast, southwest, southeast in that order |
| Dashboard.Summarize | src/components/DashboardPage.tsx:11-72 | total is the length; the average as above; the first min(5, n) records in order; the smoker and gender counts; four region bars with each region's count, 0 if none |
| Dashboard.RegionBarsCoverAll | src/components/DashboardPage.tsx:55-72 | the four region counts sum to the number of records when each record names one of the four regions |

## Left out

- Routing, CORS, the logger, `Deno.serve` and the `/health` endpoint are left out: they are transport with no state.
- Request bodies are taken as already-parsed records. A body that is not JSON, or a prediction without `id`, is not modelled. The source would store such a prediction under the key suffix `undefined`.
- The store's `delete`, `mget` and `mset` are left out because no handler calls them.
- `kv_store.tsx` is not part of this model. Its failures are a single `reachable` flag, and a partly applied `mdel` is not modelled.
- Scan-then-delete in the clear handler is not atomic. Requests that run at the same time are not modelled; each handler is one atomic step on the table.
- KvStore.Store.GetByPrefix: does not state the order of the returned documents, because the backend decides it. The ghost key sequence records the order chosen.
- RecordService.ListPredictions: inherits the same unstated order.
- The prediction form's 1.5-second timer is not modelled. `AddPrediction` takes the history its handler captured as the parameter `rendered`, and any change made in between is modelled by calling other handlers first, as `ClearThenLateAdd` does.
- Local storage holds typed entries. The model takes `JSON.stringify` followed by `JSON.parse` to return the same value. Timestamps turning into strings after a reload is not modelled. An entry of the wrong shape under "predictions" or "profile" is ignored, whereas `JSON.parse` might throw or misread it.
- `timestamp` is an integer instant, and `age` and `bmi` are reals. Floating-point effects are not modelled: prices are integers (the prediction form rounds them), and their sum is taken to be exact.
- Object keys that name JavaScript prototype members (such as `toString`) are not modelled. This applies to the region-label table and to the region counting.
- Several parts have no logic to verify and are left out:
  - the loading screen and all rendering, charts and date formatting;
  - the constant accuracy (94.5) and global average (13270) the dashboard displays;
  - `src/utils/api.tsx`, which the application never calls;
  - the prediction form's floating-point price formula;
  - the login, profile and layout screens.
