# srbasar-backend in Dafny

This project models the referee-exchange backend of srbasar.de ("Spielebasar"). Clubs that owe referees
for basketball games of the regional federation use it to publish open referee slots. Other clubs and
referees find those slots and take them over.

The backend has two generations, and both are modelled.

The newer SQL API (`src/`):
- the TeamSL synchronisation engine. It logs in to basketball-bund.net, collects every page of open
  games in batches of ten, and reconciles them with the `spiele`, `vereine` and `sr_qualifikationen`
  tables:
  - it applies the visibility rule of the clubs' `hideLink` flag;
  - it derives each game's required licence with `fieldFn`;
  - it removes orphans after a full-horizon run;
- the cron service. Its three scheduled jobs share one guard, so at most one synchronisation runs at a time;
- the game listing, with filters, search, sort whitelist, pagination and the available filter values;
- the club listing and the club `hideLink` switch;
- account administration (create, delete, change role);
- the account endpoints: login, the password-reset cycle, profile update;
- the token and role middleware and the error handler;
- the CORS origin rule.

The legacy MongoDB API (`_controller/`, `_middleware/`, `_teamsl/`):
- the league and match import with its reconciliation rules and change notices;
- the shareable links with their licence-level filter;
- the referee listings (all games, the bazaar with contacts, the club list);
- the slot update `refgame`;
- the account endpoints (reset, sign-up, sign-in) and the profile update;
- the sign-up checks, the token and role middleware and the error handler.

## How the model is built

Each source file becomes one Dafny module. Shared vocabulary lives in its own modules:
- `Wrappers`: `Option`, `Result`, and `Sent` for a JSON body field that is left out, null or given;
- `Seqs`: first match, filter, de-duplication by first occurrence, sorting;
- `Strings`: ASCII case mapping, trim, split, `includes`, `parseInt`;
- `Paging`: `Math.ceil` with its NaN and Infinity cases, LIMIT/OFFSET windows;
- `SyncData`, `LegacyData`, `LegacyUsers` and `Accounts`: the rows and documents.

Database tables are maps keyed by primary key, or sequences in natural order where `findOne` returns the
first match. Code that updates state in place becomes a class with those fields and methods:
- `CronService` and `TeamSLService`;
- the sync tables, `SyncStore`;
- the stores of each controller.

Each such method is proved against a specification function, and the properties are lemmas about that
function.

Calls into code outside the model become parameters:
- HTTP, the federation SDK and the clock;
- JWT signing and verification;
- bcrypt;
- random tokens and UUIDs;
- the mailer's success.

## Model

| member | source | states |
|---|---|---|
| License.LeagueName | src/utils/licenseUtils.js:7 | the league name is `liganame`, else `ligaName`, else the empty string |
| License.Cascade | src/utils/licenseUtils.js:9-34 | the licence is LSE, LSD or the given upper label |
| License.FieldFn | src/utils/licenseUtils.js:6-35 | the result is one of "LSE", "LSD", "LSE+,LSD" |
| License.CascadeIsFirstMatch | src/utils/licenseUtils.js:9-34 | the cascade's result is the tag of the first rule whose words the name contains |
| License.HerrenRule | src/utils/licenseUtils.js:9-14 | a "Herren" league needs LSE for a Kreisliga, else LSD, whatever else the name contains |
| License.HerrenLsd | src/utils/licenseUtils.js:9-13 | a name starting with "Herren" and without a 'K' gives LSD |
| License.DamenRule | src/utils/licenseUtils.js:16-24 | a "Damen" league without "Herren" needs LSE for a Bezirksliga or Landesliga, else LSD |
| License.UpperRule | src/utils/licenseUtils.js:26-32 | an Oberliga or Playoffs name without Herren/Damen needs "LSE+,LSD" |
| License.DefaultRule | src/utils/licenseUtils.js:34 | a name matching no rule needs LSE |
| License.NoRuleWord | src/utils/licenseUtils.js:9-34 | a name in which none of "Herren", "Damen", "Oberliga", "Playoffs" can start gives LSE |
| License.NoNameIsLse | src/utils/licenseUtils.js:7-34 | a game without league name needs LSE |
| License.DamenLse | src/utils/licenseUtils.js:16-18 | a name starting with "Damen", without 'H' and containing "Bezirksliga", gives LSE |
| License.DamenLsd | src/utils/licenseUtils.js:16-23 | a name starting with "Damen" and without 'H', 'B' or 'L' gives LSD |
| License.DamenKreisliga | src/utils/licenseUtils.js:16-23 | "Damen Kreisliga" gives LSD: a Kreisliga is LSE only for Herren |
| License.HerrenOberliga | src/utils/licenseUtils.js:9-13 | "Herren Oberliga" gives LSD, Herren outranking Oberliga |
| License.Playoffs | src/utils/licenseUtils.js:30-31 | a Playoffs name gives "LSE+,LSD" |
| License.FallbackName | src/utils/licenseUtils.js:7 | an empty `liganame` falls back to `ligaName`: "Playoffs" there gives the upper label |
| UpstreamClient.Entries | src/services/teamSLService.js:58-61 | no header or an empty single value gives no entries, an array its elements, a non-empty single value one entry |
| UpstreamClient.PickSessionCookie | src/services/teamSLService.js:57-67 | the scan returns the first entry's pair that starts with "SESSION=", or nothing |
| UpstreamClient.FirstSessionSpec | src/services/teamSLService.js:62-66 | the chosen pair comes from the first session entry; none exactly when no entry carries one |
| UpstreamClient.NoSessionCookie | src/services/teamSLService.js:57-67 | a missing header or one without a session entry yields nothing |
| UpstreamClient.SessionPairOf | src/services/teamSLService.js:63-64 | `SESSION=v; attrs` yields exactly `SESSION=v` |
| UpstreamClient.BuildSearchPayload | src/services/teamSLService.js:84-104 | a falsy date becomes today's midnight; the fixed fields and the paging are as given |
| PageCollector.CeilDiv | src/services/teamSLService.js:145 | the page count is the least `n` with `n * pageSize >= total` |
| PageCollector.Range | src/services/teamSLService.js:176 | a batch requests the pages `lo` to `hi - 1` in order |
| PageCollector.Responses | src/services/teamSLService.js:176-187 | the answers of a batch, one per requested page, in order |
| PageCollector.Collect | src/services/teamSLService.js:134-237 | total and page count are the first page's; one page or fewer returns the first page's results as is; more pages give a list without repeats |
| PageCollector.RangeSplit | src/services/teamSLService.js:168-176 | consecutive page ranges concatenate |
| PageCollector.BatchesCover | src/services/teamSLService.js:168-176 | the batches request every page from 1 to `totalPages - 1` once, in order, at most ten per batch |
| PageCollector.RangeNoDups | src/services/teamSLService.js:168-177 | no page is requested twice |
| PageCollector.GatherFails | src/services/teamSLService.js:186-210 | a batch fails exactly when one of its requests fails |
| PageCollector.GatherMembers | src/services/teamSLService.js:187-200 | a successful batch delivers exactly the records of its pages |
| PageCollector.BatchMembers | src/services/teamSLService.js:173-200 | a record arrives from a batch iff a page of it holds the record and no request of it failed |
| PageCollector.DeliveredMembers | src/services/teamSLService.js:168-216 | the batches deliver a record iff a page of a fully answered batch holds it |
| PageCollector.CollectMembers | src/services/teamSLService.js:143-221 | a record is collected iff the first page or a page of a fully answered batch holds it |
| PageCollector.FirstPageKept | src/services/teamSLService.js:163-165 | every record of the first page is kept |
| TeamSL.LoginStep | src/services/teamSLService.js:13-55 | success iff the login answers without the invalid-login marker, sets a session cookie and that session verifies; an unanswered or refused login keeps the session; a new client always wraps a "SESSION=" cookie |
| TeamSL.LoginForgetsSession | src/services/teamSLService.js:24-47 | a login's outcome and resulting session do not depend on the session before it |
| TeamSL.FetchPage | src/services/teamSLService.js:106-132 | without a client the fetch fails; otherwise it is the search request for the given page |
| TeamSL.CronJobSpec | src/services/teamSLService.js:255-293 | success needs both credentials, a login and the collection; the count is the reported total |
| TeamSL.TeamSLService.constructor | src/services/teamSLService.js:7-11 | a new service has no cookie and no client |
| TeamSL.TeamSLService.Login | src/services/teamSLService.js:13-55 | the new fields and the outcome are those of `LoginStep` |
| TeamSL.TeamSLService.VerifyLogin | src/services/teamSLService.js:69-82 | success iff `/rest/user/lc` reports a non-empty login name for the session |
| TeamSL.TeamSLService.IsLoggedIn | src/services/teamSLService.js:239-247 | true iff a client exists and its session verifies |
| TeamSL.TeamSLService.Logout | src/services/teamSLService.js:249-253 | cookie and client are cleared |
| TeamSL.TeamSLService.FetchOpenGames | src/services/teamSLService.js:106-132 | the result is `FetchPage` for the current client |
| TeamSL.TeamSLService.FetchAllOpenGames | src/services/teamSLService.js:134-237 | the result is `CollectAll` for the current client, and the batches requested are `Batches(1, pages)` when there is more than one page |
| TeamSL.TeamSLService.CollectBatches | src/services/teamSLService.js:168-216 | the records are what the batches from page 1 on deliver, added after the given ones; the batches requested are `Batches(1, totalPages)` |
| TeamSL.TeamSLService.FetchBatch | src/services/teamSLService.js:176-187 | one request per page of the batch, in order |
| TeamSL.TeamSLService.ExecuteCronJob | src/services/teamSLService.js:255-293 | the result is `CronJob`, and the service is logged out afterwards |
| TeamSL.TeamSLService.ProcessGamesData | src/services/teamSLService.js:295-318 | a failed job changes no table; a successful one is saved as `saveGamesToDatabase` does; the tables become `TablesAfter`'s |
| TeamSL.AddEach | src/services/teamSLService.js:164 | adding records to the set keeps the first occurrence of each, in order |
| TeamSL.AddBatch | src/services/teamSLService.js:187-200 | a failed batch adds nothing; otherwise each page's records in order |
| Reconciliation.UpsertVerein | src/services/teamSLService.js:395-414 | a club row is created iff its id is new; the table gains exactly that id, one row per creation; the club's row holds the record's number, name and association, the district ids the record sends (a left-out one keeps its stored value, since the update drops `undefined`, and is null in a new row) and its stored `hideLink` (false for a new club); every other club is unchanged |
| Reconciliation.UpsertClub | src/services/teamSLService.js:394-418 | an absent club changes nothing; a present one is `UpsertVerein`, so only a new id creates a row, a left-out district id keeps its stored value and every other club is unchanged; the count grows by the creations; `hideLink` flags are kept |
| Reconciliation.VisibleKept | src/services/teamSLService.js:448-489 | visibility depends only on the stored `hideLink` flags |
| Reconciliation.UpsertQual | src/services/teamSLService.js:493-516 | the qualification row is created or overwritten with both fields |
| Reconciliation.Lizenz | src/services/teamSLService.js:519-520 | the game's licence is LSE, LSD or "LSE+,LSD", as `fieldFn` gives for its league |
| Reconciliation.Step | src/services/teamSLService.js:368-590 | a record that is open with both clubs missing fails with `MissingClubs` and the tables as they were; any other failure is `RejectedRow`; every error names the record's game |
| Reconciliation.UpsertClubs | src/services/teamSLService.js:392-446 | the home and then the guest upsert; only the club table and its counter change; each named club is stored afterwards; a record naming no club changes nothing; the flags tested are those stored before |
| Reconciliation.Decide | src/services/teamSLService.js:448-489 | the error iff both clubs are missing and not both flags are hidden, naming the game |
| Reconciliation.QualStep | src/services/teamSLService.js:491-516 | only the qualification table and its counter change; the record's qualification, if any, is stored and the counter counts the rows created |
| Reconciliation.SaveSpiel | src/services/teamSLService.js:491-583 | the record fails with `RejectedRow` iff the row it writes is refused: a null home or guest club id, or a club or qualification key naming no stored row; the qualification upsert stays; otherwise the row holds the record and is storable, no other game and no club changes, the game counter rises iff the row is new and the qualification counter counts the rows created |
| Reconciliation.NotOpenRemoves | src/services/teamSLService.js:371-390 | a record offering no open slot deletes its game and writes nothing else |
| Reconciliation.OneClubMissingRejected | src/services/teamSLService.js:523-560 | an open, visible record with exactly one club missing fails with `RejectedRow`: a new game gets a null club id, an existing one the id 0, which names no club |
| Reconciliation.BothClubsStored | src/services/teamSLService.js:392-583 | an open, visible record naming both clubs with non-zero ids, and a third club that is absent or stored, is stored |
| Reconciliation.StepSpiele | src/services/teamSLService.js:368-583 | the game row exists after a successful record iff it is open and visible; the row then holds the record and is storable, and an update without top-level `spieldatum` keeps the stored date; other games are untouched |
| Reconciliation.StepKeepsHideLinks | src/services/teamSLService.js:392-446 | no record changes a club's `hideLink`, whether it succeeds or fails; a new club does not hide; a successful record only adds qualifications |
| Reconciliation.StepCounters | src/services/teamSLService.js:417-583 | each counter rises by the number of rows the record created |
| Reconciliation.HiddenAfterUpserts | src/services/teamSLService.js:392-448 | the flags tested after the upserts are the flags stored before the record |
| Reconciliation.OrphanRemoval | src/services/teamSLService.js:329-341 | exactly the games whose id is not in the batch are deleted |
| Reconciliation.RunInvariant | src/services/teamSLService.js:368-591 | a successful run keeps `hideLink` flags, stores a batch game only with its last record when that is open and visible and its row is storable, leaves games outside the batch untouched and counts the clubs and qualifications created; a failed run keeps `hideLink` flags |
| Reconciliation.RunSoundStep | src/services/teamSLService.js:368-591 | one more successful record keeps the run's invariant: `hideLink` flags kept, stored games carry their last open and visible record, other games untouched, created clubs and qualifications counted |
| Reconciliation.FirstFatal | src/services/teamSLService.js:462 | the index of the first record whose two clubs are both missing |
| Seqs.FailsAtFirstFailure | src/services/teamSLService.js:368-590 | a record loop that stops at the first error (as the sync loop does, `Reconciliation.Run`) fails iff some record fails after the records before it succeeded, and then it reports exactly that record's failure |
| Seqs.FailsSomewhere | src/services/teamSLService.js:584-590 | a failed run of such a loop has a record where it failed |
| Seqs.FailureEndsLoop | src/services/teamSLService.js:584-590 | the failure of a record after successful ones is the loop's result |
| Reconciliation.FatalStopsRun | src/services/teamSLService.js:462-590 | a batch with a record naming neither club always fails; when the records before the first such record succeed, the run stops there with their tables and `MissingClubs` |
| Seqs.ErrorAbortsRest | src/services/teamSLService.js:584-590 | records after a failing one have no effect on the loop's result |
| Reconciliation.AllCycle | src/services/teamSLService.js:360-608 | after an "all" run only games of the batch are stored, each holding its last record, which is open and visible, in a row naming only stored clubs and qualifications; `hideLink` flags are kept |
| Reconciliation.NarrowCycle | src/services/teamSLService.js:600-602 | a narrower horizon removes no game outside the batch and keeps `hideLink` flags |
| Reconciliation.CountersCountCreations | src/services/teamSLService.js:364-608 | the counters count the clubs and qualifications created |
| Reconciliation.SyncStore.DestroySpiel | src/services/teamSLService.js:378-385 | only that game's row is removed |
| Reconciliation.SyncStore.FindOrCreateVerein | src/services/teamSLService.js:395-417 | the club table becomes `UpsertVerein`'s; the returned flag is the stored `hideLink` |
| Reconciliation.SyncStore.FindOrCreateQual | src/services/teamSLService.js:494-515 | the qualification table becomes `UpsertQual`'s |
| Reconciliation.SyncStore.FindOrCreateSpiel | src/services/teamSLService.js:523-583 | the row `findOrCreate` or `update` writes is stored iff the tables accept it, and nothing else changes; `created` iff the game was new |
| Reconciliation.SyncStore.SaveRecord | src/services/teamSLService.js:368-590 | the tables and counters become `Step`'s; on a failure the error is `Step`'s and the tables are as it left them |
| Reconciliation.SyncStore.SaveOpenRecord | src/services/teamSLService.js:392-489 | an open record: club upserts, then `Decide`, with its tables and error |
| Reconciliation.SyncStore.UpsertClubsOf | src/services/teamSLService.js:392-446 | the club table becomes `UpsertClubs`'s; the flags are those stored before |
| Reconciliation.SyncStore.UpsertSlotClub | src/services/teamSLService.js:392-418 | the club table becomes `UpsertClub`'s (the synced fields written, a left-out district id kept), the counter grows when the club is created, the returned flag is its `hideLink`; Spiele and qualifications unchanged |
| Reconciliation.SyncStore.UpsertQualOf | src/services/teamSLService.js:491-516 | the new tables and counters are exactly those of the qualification upsert of the record's league |
| Reconciliation.SyncStore.SaveKeptRecord | src/services/teamSLService.js:491-583 | the qualification and game upserts of a kept record, with the tables and error of `SaveSpiel` |
| Reconciliation.SyncStore.RemoveOrphans | src/services/teamSLService.js:329-358 | the game table becomes `OrphanRemoval`'s |
| Reconciliation.SyncStore.SaveGamesToDatabase | src/services/teamSLService.js:360-618 | the tables and result are those of the whole run with orphan removal for "all"; a failure rethrows the failing record's error with the tables as far as the run got |
| Cron.Mark | src/services/cronService.js:48 | only the named job's flag changes |
| Cron.Enter | src/services/cronService.js:37-49 | a tick whose job runs, or while any job runs, changes nothing; otherwise it sets its flag and the global flag |
| Cron.Exit | src/services/cronService.js:72-75 | the `finally` block clears the job's flag and the global flag |
| Cron.GuardPreserved | src/services/cronService.js:36-75 | the guard keeps "at most one job flag, global iff one"; finishing a running job restores idle |
| Cron.Remove | src/services/cronService.js:72-75 | every job left was in flight; removing the only in-flight run of a job empties the list |
| Cron.StepExclusive | src/services/cronService.js:36-75 | any admissible tick or finish keeps at most one sync running |
| Cron.ReplayExclusive | src/services/cronService.js:36-75 | from idle flags, every admissible interleaving keeps at most one sync running |
| Cron.CronService.constructor | src/services/cronService.js:5-17 | no job is scheduled, no flag is set and the guard invariant holds |
| Cron.CronService.IsAnyJobRunning | src/services/cronService.js:20-22 | true iff a job flag or the global flag is set |
| Cron.CronService.SetRunning | src/services/cronService.js:48 | the job's flag is set as given; nothing else changes |
| Cron.CronService.SetGlobalRunning | src/services/cronService.js:25-27 | the global flag is set as given |
| Cron.CronService.TryStart | src/services/cronService.js:37-49 | the flags become `Enter`'s; started iff the guard let the tick through |
| Cron.CronService.Finish | src/services/cronService.js:72-75 | the flags become `Exit`'s |
| Cron.CronService.Tick | src/services/cronService.js:36-79 | a refused tick changes neither the flags nor the tables; a started tick leaves the tables as `processGamesData` for its horizon leaves them, and ends with the service logged out and its job's flag and the global flag cleared |
| Cron.CronService.Start | src/services/cronService.js:29-191 | each empty job slot is scheduled with its cron expression; occupied slots are kept |
| Cron.CronService.Stop | src/services/cronService.js:193-198 | while the guard invariant holds nothing changes, since the field it tests is never assigned; were it set, the job flags would be cleared |
| Cron.CronService.GetStatus | src/services/cronService.js:200-216 | the status reports the flags, whether any job runs and which jobs are scheduled |
| SpieleController.PageSize | src/controllers/spieleController.js:18-20 | the page size is the smaller of the requested limit and 100 |
| SpieleController.SortBy | src/controllers/spieleController.js:111-116 | a whitelisted column is used as is; anything else sorts by `spieldatum` |
| SpieleController.SortOrder | src/controllers/spieleController.js:112-119 | ASC or DESC: a value whose upper case is one of them is used upper-cased, anything else or none gives ASC |
| SpieleController.SortFallbacksSettle | src/controllers/spieleController.js:111-119 | the sort fallbacks are idempotent, and "desc" and "Desc" both give DESC |
| SpieleController.BuildWhere | src/controllers/spieleController.js:68-109 | the where clause built step by step is `WhereOf` of the query |
| SpieleController.SearchOverridesFilters | src/controllers/spieleController.js:87-109 | a search replaces the league and venue filters; without one the filters apply |
| SpieleController.Dates | src/controllers/spieleController.js:55-65 | the dates offered are exactly the set, non-zero dates of the rows |
| SpieleController.LexLeOrders | src/controllers/spieleController.js:55-65 | the order of the offered values is a total preorder |
| SpieleController.AvailableFiltersSpec | src/controllers/spieleController.js:55-65 | each filter list is sorted, has no duplicates and holds exactly the non-empty values of the table |
| SpieleController.FilterOfMapped | src/controllers/spieleController.js:55-65 | a value is offered iff some row carries it |
| SpieleController.Item | src/controllers/spieleController.js:194-218 | an item carries the row's id, date and league name |
| SpieleController.Paginate | src/controllers/spieleController.js:189-232 | total pages are `ceil(total/limit)`; a next page iff more items follow; a previous page iff page > 1 |
| SpieleController.StripItems | src/controllers/spieleController.js:194-218 | element `i` of the result is `Item` of row `i` |
| SpieleController.PageItemsSelected | src/controllers/spieleController.js:18-236 | every listed item is `Item` of a table row that satisfies the where clause |
| SpieleController.GetAllSpieleSpec | src/controllers/spieleController.js:18-244 | failure (500) iff a negative LIMIT or OFFSET, or a `spieldatum` filter that `parseInt` makes NaN; otherwise at most a page of items, each from a row satisfying the filters, every selected row counted, the filter values of the whole table, and a full page whenever a next page exists |
| VereinController.HideLink | src/controllers/vereinController.js:4-39 | a non-boolean is 400, an unknown club 404; otherwise only that club's `hideLink` changes |
| VereinController.HideLinkIdempotent | src/controllers/vereinController.js:27 | setting the flag twice is setting it once, and the synced club columns survive |
| VereinController.VereinStore.UpdateHideLink | src/controllers/vereinController.js:4-39 | the table and the answer become `HideLink`'s |
| VereinController.SearchNumber | src/controllers/vereinController.js:56-63 | the number searched is `parseInt(search)`, or 0 when that is NaN |
| VereinController.SearchByNameOrNumber | src/controllers/vereinController.js:56-63 | in the intended listing a club is found iff its name contains the term ignoring case or its number equals the parsed term |
| VereinController.NoSearchListsAll | src/controllers/vereinController.js:55-63 | without a search every club is listed |
| VereinController.ClubOnItsPage | src/controllers/vereinController.js:53-81 | selected club `k` is listed on page `k / limit + 1`, one of the reported pages |
| VereinController.GetAllVereineSpec | src/controllers/vereinController.js:50-83 | in the intended listing: failure iff a negative LIMIT or OFFSET; each page is the selected clubs from its offset, and all are counted |
| VereinController.GetAllVereineAsWritten | src/controllers/vereinController.js:50-90 | as written, a request with a search always fails (500), since `Op.iLike` gives ILIKE, which MySQL cannot parse; without a search it is the intended listing |
| VereinController.SearchAsWrittenFails | src/controllers/vereinController.js:56-66 | for every table, page and limit, a search fails as written, while the intended listing answers a page |
| Accounts.FindByPk | src/controllers/userController.js:261 | the row with that id, or none iff no row has it |
| Accounts.FindByToken | src/controllers/userController.js:162-170 | the first active account holding the token unexpired, or none iff there is none |
| AdminController.Create | src/controllers/adminController.js:28-98 | a missing name or email is 400, a taken name or email 400; 201 iff the table changes, and then exactly the new account with the next id is appended |
| AdminController.CreateKeepsAccountsDistinct | src/controllers/adminController.js:41-74 | creating keeps usernames and emails unique and ids below the next id |
| AdminController.WelcomeTokenLifetime | src/controllers/adminController.js:62-74 | the new account must change its password, and its welcome token opens it exactly until 24 hours after creation |
| AdminController.Without | src/controllers/adminController.js:122-127 | the rows before the removed one keep their place and the later ones move up by one |
| AdminController.WithoutMembers | src/controllers/adminController.js:122-127 | every other row survives the removal and no row is added |
| AdminController.Delete | src/controllers/adminController.js:108-136 | deleting oneself is 400, an unknown id 404; otherwise exactly that row goes |
| AdminController.UpdateRole | src/controllers/adminController.js:146-188 | an invalid role is 400, one's own role 400, an unknown id 404; otherwise only that row's role changes |
| AdminController.CallerUntouched | src/controllers/adminController.js:114-166 | the caller's own row survives delete and role change unchanged |
| AdminController.DeleteRemovesOnly | src/controllers/adminController.js:108-136 | after a delete every other row is still there and the deleted id is gone |
| AdminController.AdminStore.CreateUser | src/controllers/adminController.js:28-98 | the table and answer become `Create`'s |
| AdminController.AdminStore.DeleteUser | src/controllers/adminController.js:108-136 | the table and answer become `Delete`'s |
| AdminController.AdminStore.UpdateUserRole | src/controllers/adminController.js:146-188 | the table and answer become `UpdateRole`'s |
| UserController.FindLogin | src/controllers/userController.js:19-24 | the first account whose username or email is the login name |
| UserController.LoginSpec | src/controllers/userController.js:8-72 | missing fields are 400; a profile iff the first matching active account exists and the password checks, else 401 with the table unchanged; a login records `lastLogin` now and returns the signed token |
| UserController.FindActiveByEmail | src/controllers/userController.js:95-98 | the first active account with that email |
| UserController.ValidateResetToken | src/controllers/userController.js:150-186 | no token is 400; a token no active account holds unexpired is 401; otherwise the holder's email |
| UserController.ResetAgreesWithValidate | src/controllers/userController.js:197-244 | a reset succeeds exactly for the tokens the validation accepts, else 400 with the table unchanged; a success sets that account's password and changes no other row |
| UserController.ResetTokenSingleUse | src/controllers/userController.js:197-244 | after a reset the token opens no account |
| UserController.ForgotSpec | src/controllers/userController.js:83-139 | an unknown email writes nothing; otherwise only that account's row changes and not its password; a failed mail leaves no usable token; a sent token validates exactly until one hour after issue |
| UserController.UpdateUserSpec | src/controllers/userController.js:255-310 | an unknown id is 404; a new password without the current one, or with a wrong one, is 400 and writes nothing; otherwise the edit succeeds with the profile; a success changes only that row's name and email as given and its password, which becomes the new one when one is given; every other field of the row and every other row is unchanged |
| UserController.UserStore.Login | src/controllers/userController.js:8-72 | the table and answer become `LoginResult`'s |
| UserController.UserStore.ForgotPassword | src/controllers/userController.js:83-139 | the table and answer become `Forgot`'s |
| UserController.UserStore.ResetPassword | src/controllers/userController.js:197-244 | the table and answer become `ResetResult`'s |
| UserController.UserStore.UpdateUser | src/controllers/userController.js:255-310 | the table and answer become `UpdateResult`'s |
| AuthJwt.SecondWord | src/middleware/authJwt.js:4 | the second space-separated word of the header, if non-empty |
| AuthJwt.Token | src/middleware/authJwt.js:4 | the second word of `authorization`, else `x-access-token` |
| AuthJwt.BearerToken | src/middleware/authJwt.js:4 | "Bearer t" yields `t` |
| AuthJwt.OneWordHeader | src/middleware/authJwt.js:4 | a one-word header falls back to `x-access-token` |
| AuthJwt.VerifyToken | src/middleware/authJwt.js:3-24 | 403 without a token, 401 when verification fails, else the claims pass on |
| AuthJwt.IsAdmin | src/middleware/authJwt.js:26-34 | only the role "admin" passes; others get 403 |
| AuthJwt.IsModerator | src/middleware/authJwt.js:36-44 | "admin" and "moderator" pass; others get 403 |
| AuthJwt.AdminIsModerator | src/middleware/authJwt.js:26-44 | whoever passes `isAdmin` passes `isModerator` |
| ErrorHandler.FieldErrors | src/middleware/errorHandler.js:8-11 | one field error per validation item, in order, with its path and message |
| ErrorHandler.Handle | src/middleware/errorHandler.js:1-26 | validation errors are 400 with field errors, unique violations 400, anything else 500 |
| ErrorHandler.ClientErrors | src/middleware/errorHandler.js:4-25 | the status is 400 iff the error is one of the two Sequelize kinds |
| AppCors.AllowedOrigins | src/app.js:27-29 | without the variable, or with it empty, the built-in list; otherwise one entry per comma-separated part |
| AppCors.CheckOrigin | src/app.js:32-42 | no origin, an empty one or a listed one is allowed; any other is the CORS error |
| AppCors.TrimmedFixed | src/app.js:28 | trimming entries that are already trimmed changes nothing |
| AppCors.ConfiguredList | src/app.js:27-28 | a comma-joined list of trimmed origins configures exactly that list |
| AppCors.PaddedEntry | src/app.js:28 | white space around a configured entry does not matter |
| AppCors.BuiltInExamples | src/app.js:27-42 | without the variable, srbasar.de is allowed and an unknown site is not |
| LegacyData.FreshSlot | _teamsl/update.js:181-191 | a new slot holds the club and is neither flagged nor open |
| LegacyData.FindMatch | _teamsl/update.js:202-204 | the document with that matchId, or none iff there is none |
| LegacyUpdate.DeriveSr | _teamsl/update.js:136-163 | no list, entry or person gives none; first name "verein" in any case gives the surname; else "Pool" |
| LegacyUpdate.DeriveSrExamples | _teamsl/update.js:141-148 | "VeReIn" names the club; another first name stands for the pool; a missing entry or person gives none |
| LegacyUpdate.NewDoc | _teamsl/update.js:169-192 | a new match document carries its id, the matchId, both team names and a fresh slot for each derived club |
| LegacyUpdate.SlotNotice | _teamsl/update.js:231-272 | a notice is sent iff the slot was flagged, copied to its contact mail when asked |
| LegacyUpdate.ReconcileTeams | _teamsl/update.js:205-224 | the team names always come from the federation and the document keeps its id |
| LegacyUpdate.ScheduleChangeOverwrites | _teamsl/update.js:225-316 | a schedule change overwrites date, time, flags, venue and league, resets both slots to the new clubs, keeps sr2's name and both mails, and sends a cancellation for each slot that was flagged |
| LegacyUpdate.RefereeChangeResets | _teamsl/update.js:318-435 | a changed slot takes the new club with everything else cleared; an unchanged slot is kept; only flagged changed slots are told |
| LegacyUpdate.VenueChangeOnly | _teamsl/update.js:436-524 | a venue change alone writes only the venue and team names and tells each flagged slot, without mail, that the game stays |
| LegacyUpdate.UnchangedIsQuiet | _teamsl/update.js:225-527 | a document agreeing with the federation is left alone and nobody is told |
| LegacyUpdate.ReconcileSettles | _teamsl/update.js:200-531 | reconciling twice with the same data changes nothing more and sends nothing |
| LegacyUpdate.MatchRefSpec | _teamsl/update.js:125-537 | a match without both teams changes nothing and yields no reference; a reference is only produced for a match with both teams |
| LegacyUpdate.MatchRefKeepsIds | _teamsl/update.js:193-204 | match ids stay unique, and the reference names this match's stored document |
| LegacyUpdate.AddRef | _teamsl/update.js:534-536 | the reference is present afterwards, appended iff it was absent, and the list stays free of repeats |
| LegacyUpdate.FindLeague | _teamsl/update.js:52-54 | the league with that ligaId, or none iff there is none |
| LegacyUpdate.SaveLigaSpec | _teamsl/update.js:43-57 | saving a league keeps ids unique; outside association 30 it is stored, in association 30 nothing changes; existing leagues keep id and references, new ones start with none |
| LegacyUpdate.SaveAllSpec | _teamsl/update.js:42-59 | saving a page keeps the leagues valid and keeps every league's match references |
| LegacyUpdate.SaveAllStores | _teamsl/update.js:42-59 | every league of the page outside association 30 that no later entry repeats is stored with its data |
| LegacyUpdate.SaveAllKeepsOthers | _teamsl/update.js:42-59 | a stored league that no entry of the page names is kept as it was |
| LegacyUpdate.UpdateLigenValid | _teamsl/update.js:17-67 | the paged run keeps the leagues valid and every stored league's match references |
| LegacyUpdate.LegacyStore.UpdateLigen | _teamsl/update.js:17-67 | the leagues become `UpdateLigenSpec`'s |
| LegacyUpdate.LegacyStore.MatchRef | _teamsl/update.js:125-537 | the matches, notices and league references become `MatchRefSpec`'s |
| LegacyUpdate.IndexOf | _teamsl/update.js:534 | the first position of the reference, or -1 iff it is absent |
| LegacyUsers.TextOf | _models/user.model.js:1-47 | a field's text when it is set to a string, else none |
| LegacyUsers.Clubs | _models/user.model.js:1-47 | a `club` array field is returned as is |
| LegacyUsers.FindByEmail | _controller/auth.controller.js:21-23 | the first user with that email, or none iff there is none |
| LegacyUsers.FindById | _controller/user.controller.js:21 | the user with that id, or none iff there is none |
| LegacyUsers.Patch | _controller/user.controller.js:38 | the given fields are set and every other field is kept |
| LegacyAuthController.FindByToken | _controller/auth.controller.js:47-50 | the first user holding the token unexpired, or none iff there is none |
| LegacyAuthController.ValidateResetToken | _controller/auth.controller.js:37-64 | no or an empty token is 400; a token no user holds unexpired answers 200 with `valid: false`; otherwise `valid` with the holder's email |
| LegacyAuthController.Authorities | _controller/auth.controller.js:90-93 | one "ROLE_" authority per role, upper-cased, in order |
| LegacyAuthController.AuthorityNamesRole | _controller/auth.controller.js:92 | an authority names its role, up to case |
| LegacyAuthController.NewAccount | _controller/auth.controller.js:110-138 | the stored email is the lower-cased one, the password the hash, the clubs as given; the roles are exactly the given names that are sign-up roles |
| LegacyAuthController.SignupRouteAsWrittenDuplicates | _middleware/verifySignUp.js:11-13 | an upper-case spelling of a registered email registers it a second time |
| LegacyAuthController.SignupKeepsEmailsUnique | _middleware/verifySignUp.js:10-26 | checking the lower-cased email keeps every email registered once, and an account is added iff no user holds that email |
| LegacyAuthController.AccountStore.Reset | _controller/auth.controller.js:17-35 | the account with the lower-cased email gets the token for 24 hours; the answer is "ok" |
| LegacyAuthController.AccountStore.ResetPassword | _controller/auth.controller.js:66-102 | as written: a token no user holds unexpired is rejected and nothing changes; otherwise the hashed password replaces the old and the token is cleared, and then an account with roles gets no reply, one without roles a session signed with JWT_SECRET and no authorities |
| LegacyAuthController.AccountStore.ResetPasswordPopulated | _controller/auth.controller.js:66-102 | with the roles populated: the same update, then a session signed with JWT_SECRET carrying one upper-cased "ROLE_" authority per role |
| LegacyAuthController.ResetAnswerAsWritten | _controller/auth.controller.js:66-102 | rejected iff no user holds the token unexpired; no reply iff the holder has roles; otherwise the session without authorities |
| LegacyAuthController.ResetAnswer | _controller/auth.controller.js:66-102 | rejected iff no user holds the token unexpired; otherwise the holder's session with one "ROLE_" authority per role, in order |
| LegacyAuthController.ResetAsWrittenSilentForSignups | _controller/auth.controller.js:90-93 | an account `signup` created, once the role collection has "user", gets no reply from the as-written reset and its session from the corrected one |
| LegacyAuthController.AccountStore.Signup | _controller/auth.controller.js:109-168 | the new account is appended and registration is reported |
| LegacyAuthController.ResetTokenSingleUse | _controller/auth.controller.js:78-82 | after a reset the token opens no account |
| LegacyAuthController.ResetTokenLifetime | _controller/auth.controller.js:19 | a reset token is honoured until, not at, 24 hours after issue |
| LegacyAuthController.Signin | _controller/auth.controller.js:175-228 | an unknown email is the not-found answer; a failed password check iff the wrong-password answer; otherwise a session signed with SECRET, with the authorities and the clubs |
| VerifySignUp.CheckRolesExisted | _middleware/verifySignUp.js:34-47 | the loop answers what `RolesCheck` states |
| VerifySignUp.RolesCheckPasses | _middleware/verifySignUp.js:34-47 | the request passes iff no roles are given or every role is known |
| VerifySignUp.RolesCheckNamesFirst | _middleware/verifySignUp.js:36-41 | a rejection is 400 naming the first unknown role |
| VerifySignUp.DuplicateCheck | _middleware/verifySignUp.js:10-26 | 400 iff a user has exactly this email |
| LegacyAuthJwt.RawToken | _middleware/authJwt.js:11 | `authorization`, else `Authorization`, when non-empty |
| LegacyAuthJwt.StripBearer | _middleware/authJwt.js:17-19 | a leading "Bearer " is removed once |
| LegacyAuthJwt.StripOnce | _middleware/authJwt.js:17-19 | only one prefix is removed |
| LegacyAuthJwt.VerifyToken | _middleware/authJwt.js:10-28 | 403 without a token, 401 when verification fails, else the user id passes on |
| LegacyAuthJwt.BearerHeader | _middleware/authJwt.js:11-21 | a "Bearer" header is verified on the bare token |
| LegacyAuthJwt.HasRole | _middleware/authJwt.js:53-58 | true iff some role has the name |
| LegacyAuthJwt.RequireRole | _middleware/authJwt.js:36-65 | the caller passes iff it holds the role, else 403; a missing caller is the exception |
| LegacyAuthJwt.IsAdmin | _middleware/authJwt.js:36-65 | `RequireRole` for "admin" |
| LegacyAuthJwt.IsVRSW | _middleware/authJwt.js:73-102 | `RequireRole` for "vrsw" |
| LegacyAuthJwt.GetClub | _middleware/authJwt.js:110-120 | the caller's club list, or the exception when the caller is gone |
| LegacyErrorHandler.Handle | _middleware/error-handler.js:13-31 | a string is 404 when it ends in "not found" ignoring case, else 400; then 400, 401 and 500 by error name |
| LegacyErrorHandler.NotFoundAnyCase | _middleware/error-handler.js:15-20 | any capitalisation of "not found" at the end gives 404 |
| LegacyErrorHandler.NotFoundOnlyForStrings | _middleware/error-handler.js:14-30 | a 404 only comes from a string error |
| LegacyUserController.UpdateData | _controller/user.controller.js:26-37 | the update holds exactly the whitelisted fields the body carries, the password hashed |
| LegacyUserController.Target | _controller/user.controller.js:21-24 | a non-administrator edits their own account; an administrator the account whose id the body names, none without one |
| LegacyUserController.UserStore.Update | _controller/user.controller.js:20-41 | an unknown caller changes nothing and gives no status; otherwise 204, and only the target's whitelisted body fields change, the password stored hashed |
| UpdateController.Write | _controller/update.controller.js:52-59 | all six slot fields are written, left-out and null ones as null; the club is kept |
| UpdateController.RefgameUnknownGame | _controller/update.controller.js:45-49 | a non-numeric path id is never answered (the numeric cast of `NaN` rejects the query, which the handler does not catch); a numeric id naming no game is 404 "Game doesn't exist!"; neither, nor any 404, writes anything |
| UpdateController.RefgameOwnership | _controller/update.controller.js:43-75 | slot 1 is written iff the body carries its offer flag (null counts) and the caller holds its club, else slot 2 under the same test, else 404; nothing else changes |
| UpdateController.ForeignSlotKept | _controller/update.controller.js:51-73 | a slot whose club the caller does not hold is never written |
| UpdateController.MatchStore.Refgame | _controller/update.controller.js:43-75 | the matches and answer become `RefgameResult`'s, no answer for a non-numeric id included |
| LinkController.Lizenzstufe | _controller/link.controller.js:163-186 | no league name gives none, where the source throws; otherwise LSE, LSD or the links' own upper label |
| LinkController.LizenzstufeIsFieldFn | _controller/link.controller.js:163-186 | it agrees with `fieldFn` on every name, up to the label of the upper leagues |
| LinkController.LevelFilterSpec | _controller/link.controller.js:148-152 | "LSE+ \| LSD" admits itself and LSE, "LSE" only itself, anything else everything; order is kept |
| LinkController.AnswersOf | _controller/link.controller.js:18 | an answer is kept iff it belongs to the link |
| LinkController.FindAlias | _controller/link.controller.js:39 | the first link with that alias, or none iff there is none; a link stored without alias never matches |
| LinkController.FindLink | _controller/link.controller.js:73 | the link with that id, or none iff there is none |
| LinkController.ListingSpec | _controller/link.controller.js:11-27 | the listing is the caller's links, with all their answers exactly when `onlyShow` is not true |
| LinkController.Until | _controller/link.controller.js:137-139 | the end date is used only when it is a non-empty string |
| LinkController.Since | _controller/link.controller.js:135 | the start date, else today |
| LinkController.TagAll | _controller/link.controller.js:145-147 | each match tagged with its level, or none when one has no league name |
| LinkController.GetSpec | _controller/link.controller.js:128-157 | an empty or unknown alias is the missing-link answer; a found link returns exactly the matches of its clubs in its date range whose level it admits, in collection order, each tagged with its level |
| LinkController.LevelFilterGames | _controller/link.controller.js:145-152 | the level filter keeps exactly the tagged matches whose level the link admits, in order |
| LinkController.Vereine | _controller/link.controller.js:45-50 | "ALLE" stands for all the caller's clubs; any other value for itself |
| LinkController.StoredAlias | _controller/link.controller.js:35-43 | a null alias stores the UUID, a given one itself, a left-out one no alias at all |
| LinkController.LinkStore.List | _controller/link.controller.js:11-27 | the listing is `Listing`'s and nothing changes |
| LinkController.LinkStore.Add | _controller/link.controller.js:34-62 | a missing caller gets no response and leaves the links unchanged; an alias that is found (a given one already in use, or a left-out one the lookup matches) is 409; otherwise one link with `StoredAlias` and the chosen clubs is appended; answers are untouched |
| LinkController.LinkStore.Remove | _controller/link.controller.js:69-87 | the link and its answers go only when the caller owns it; "not found" iff the link or its owner is missing |
| RefController.Listed | _controller/ref.controller.js:21 | a listed game carries the game's head data and both slots' clubs |
| RefController.AllSelects | _controller/ref.controller.js:20-25 | every recent game that is not cancelled or forfeited and has both referee clubs is listed, and only such games are |
| RefController.AllDropsOldGames | _controller/ref.controller.js:23 | a game that kicked off a full day ago or more is never listed |
| RefController.ContactOf | _controller/ref.controller.js:72-86 | the contact holds exactly the user's contact fields |
| RefController.Basar | _controller/ref.controller.js:56-112 | one entry per selected game, in order, each as `BasarEntry` states |
| RefController.PushEntries | _controller/ref.controller.js:65-110 | the pushed list holds the entry of each game at its position |
| RefController.BasarSelects | _controller/ref.controller.js:58-63 | a game is in the bazaar iff it is not cancelled or forfeited, a slot is open, and it is recent |
| RefController.BasarContacts | _controller/ref.controller.js:70-107 | a slot carries contacts iff it is offered in the bazaar; the candidates are the contactable users whose clubs include the slot's club |
| RefController.Vereine | _controller/ref.controller.js:119-137 | the list is every set referee club once, in first-seen order |
| RefController.PushClub | _controller/ref.controller.js:124-131 | a set club not yet listed is appended |
| RefController.Position | _controller/ref.controller.js:124 | the first position of the club, or -1 iff it is absent |
| RefController.VereineSpec | _controller/ref.controller.js:119-133 | a club is listed iff some game's slot holds it, and only once |
| RefController.Uebernehmen | _controller/ref.controller.js:32-49 | a non-numeric path id is never answered, since the rejected query is not caught; a numeric id naming no game is the 404 answer; otherwise a mail goes to the emails of every user holding the requested club, in order, after which no response is sent |
| Paging.CeilDiv | src/controllers/spieleController.js:189 | `Math.ceil(n / d)`: NaN iff `d = 0` and `n = 0`, Infinity iff `d = 0` and `n > 0`, a finite number otherwise |
| Paging.CeilDivSpec | src/controllers/spieleController.js:189 | for a positive size, `Math.ceil(n / d)` is the least non-negative count of pages covering `n` |
| Paging.NextPageIffMoreItems | src/controllers/spieleController.js:189-190 | page < totalPages iff items follow the page |
| Paging.PagesPartitionItems | src/controllers/spieleController.js:19-20 | each item lies on exactly one page |
| Paging.Window | src/controllers/spieleController.js:184-185 | LIMIT/OFFSET: at most `size` rows from `offset` on, a full page when enough remain |
| Paging.RowOnItsPage | src/controllers/vereinController.js:53-54 | item `k` is entry `k % size` of page `k / size + 1` |

## Left out

- Network, the federation SDK and axios: answers are parameters of the model; the 200 ms pause and the concurrency of `Promise.all` are not modelled.
- Mail delivery, console logging, `node-cron` expressions as schedules, and the Berlin time zone.
- JWT signing and verification, bcrypt, random strings and UUIDs: oracles passed as parameters.
- The clock: `now` is a parameter in milliseconds. Date formatting and date parsing are parameters too.
- Database errors: the 500 branches modelled are SQL errors the request itself causes (a negative LIMIT or OFFSET, a NaN date filter, the ILIKE of the club search) and a Spiel row the schema refuses. Connection failures, the other 500 branches of every controller, and Mongoose/Sequelize callbacks failing are not modelled.
- Reconciliation.Storable: the tables are taken to carry the NOT NULL columns of src/models/Spiel.js and the foreign keys of the `belongsTo` associations in src/models/index.js, as `sequelize.sync` creates them. A database without those constraints would store the rows the model refuses.
- Reconciliation.UpdatedRow: a top-level `spieldatum` sent as JSON null is treated like a missing one, so the stored date is kept. Sequelize would write null, which the NOT NULL column refuses.
- src/models/User.js is not part of this model. New accounts are taken to be active by default. No password-hashing hook is modelled, so `resetPassword` and `updateUser` store the new password as given.
- `LIKE` is modelled as a case-insensitive substring test with ASCII case mapping, as the default MySQL collations compare; collation details are not modelled.
- AdminController.Create: the lookup by username or email is modelled as intended, as two equality tests joined by "or". As written, the where clause uses the string key `$or`. Sequelize reads that key as an operator only when `operatorsAliases` is set, and src/config/database.js does not set it. So the lookup most likely fails, and the request then ends in the 500 branch.
- Rows come back in the order the table lists them; the ORDER BY of `getAllSpiele` and `getAllVereine` is not applied.
- `spieldatum` is a number in the model; the `bigNumberStrings` option, which may turn it into a string, is not modelled.
- NaN `page`/`limit` values are not modelled; pages and limits are integers. A non-numeric path id of `refgame` and `uebernehmen` is modelled as a request the handler leaves unanswered: whether Express then answers 500 or never answers depends on its version, which is not part of this model.
- `srLizenz` is kept in the Spiel row, although src/models/Spiel.js declares no such column.
- `getAllUsers` and `getProfile` of src/controllers/userController.js, and `getAllUsers` of src/controllers/adminController.js: plain reads with no logic to prove.
- `delete` of _controller/auth.controller.js and `list` of _controller/user.controller.js: plain reads and deletes.
- `removeAnswer`, `getAnswer` and `answer` of _controller/link.controller.js: single database calls and mails.
- `list` of _controller/ref.controller.js: a query on the array `req.club` whose MongoDB matching rules are not modelled.
- `ligen`, `matches` and `all` of _controller/update.controller.js: wrappers that call the import and answer "done".
- `updateMatches` and `updateMatch` of _teamsl/update.js: the per-league loop and `liga.save()` with concurrent `matchRef` calls; each `matchRef` is modelled.
- `getBBNHealth`: it only forwards `processGamesData`.
- LegacyUpdate.UpdateLigenSpec: a `fuel` count bounds the number of further pages, which only the federation decides.
- LegacyAuthController.AccountStore.Reset: the 32-character token is a parameter; that it is random is not modelled.
- Strings compare by code point, not by UTF-16 code unit, in the sorted filter lists.
- The `verein` field of a link is stored as a list, not as the `JSON.stringify` text.
- PageCollector.Collect and TeamSL.AddEach: the source removes repeated records by comparing their `JSON.stringify` text. The model compares records as values. The two agree when equal records serialise their keys in the same order.
- Strings.ToUpper and Strings.ToLower: case mapping is ASCII only. JavaScript's `toUpperCase` and `toLowerCase` also map other letters, and "ß" even becomes "SS", which changes the length. This affects authorities, e-mail lower-casing and the case-insensitive searches.
- UpdateController.Write: a slot field other than the offer flag that the body leaves out is taken to be stored as null. A Mongoose version that drops undefined keys from updates would keep the stored value instead.
- LinkController.LinkStore.Add: a left-out alias is looked up with the filter `{link: undefined}`. Whether that filter finds a document depends on how Mongoose and the driver cast `undefined`, so the outcome is the parameter `undefinedFound`.
- LegacyAuthController.ResetAnswer: the reset session is signed with the variable JWT_SECRET, while `verifyToken` in _middleware/authJwt.js checks tokens with SECRET. The model records which variable signs, but does not model what the two variables hold. Unless a deployment gives both variables the same value, the middleware rejects the reset token.
- LegacyAuthController.Signin: the holder's roles are taken to be populated, as `signin` loads them, and as the profile update of _controller/user.controller.js reads them. Only `resetPassword` loads them without `populate`, and that case is modelled separately in `ResetAnswerAsWritten`.

## Findings

| source | as written | input that shows it | evidently intended | confidence | as-written member | corrected member |
|---|---|---|---|---|---|---|
| _middleware/verifySignUp.js:11-13 | the duplicate check looks up the email as sent, while `signup` (_controller/auth.controller.js:113) stores it lower-cased | users = [a@x.de], sign-up with "A@x.de" | the check compares the lower-cased email, so every email is registered once | not executed | LegacyAuthController.SignupRouteAsWrittenDuplicates | LegacyAuthController.SignupKeepsEmailsUnique |
| _controller/auth.controller.js:68-99 | `resetPassword` loads the holder without `populate("roles")`, so `user.roles[i].name` is undefined and `toUpperCase` throws. This happens after the password update and the mail, so the client gets no reply | an account created by `signup` while the roles collection holds "user", then a reset with its valid token | the roles are populated as in `signin`, and the session carries the account's authorities | not executed | LegacyAuthController.ResetAsWrittenSilentForSignups | LegacyAuthController.AccountStore.ResetPasswordPopulated |
| src/controllers/vereinController.js:56-66 | the name search uses `Op.iLike`, which Sequelize writes as ILIKE under every dialect; the MySQL dialect of src/config/database.js cannot parse it, so the request ends in the 500 branch | `GET /vereine?search=TV` | a case-insensitive LIKE on the name, or the club number equal to the parsed term | not executed | VereinController.SearchAsWrittenFails | VereinController.SearchByNameOrNumber |
