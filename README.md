# A verified model of libanki's deck synchronisation and helpers, and of the ppygui outliner's task tree

This project models, in Dafny, the core of two Python code bases:

- **libanki** (the library behind the Anki flashcard program):
  - the two-way deck synchronisation of `anki/sync.py`. This covers summaries of modification times, the diff of two summaries, payload generation, and applying the payload and its reply.
  - the tag, period and id helpers of `anki/utils.py`.
  - fact field access (`anki/facts.py`).
  - card answer bookkeeping (`anki/cards.py`).
  - the statistics counters and reports of `anki/stats.py`.
  - the Unihan import script `anki/features/chinese/save_unihan.py`.
- **ppygui's outliner demo** (`demo/app/outliner/task.py`): a task tree whose tasks have subtasks, a parent and a "done" flag. Marking a task done or undone propagates down to its subtasks and up to its parents.

Each source file becomes one or more modules:

| module (file) | models |
|---|---|
| `Wrappers` (wrappers.dfy) | `Option` and `Result` |
| `SyncDiff` (sync_diff.dfy) | `diffSummary`, as a method with its loops, proved against the classification function `Classify` |
| `SyncStore` (sync_store.dfy) | a replica's store as values: tables of live rows and tombstones, the deck row, statistics and history; the effect of each sync step as a function |
| `SyncReplica` (sync_replica.dfy) | class `Replica`, whose fields the sync steps update in place; each method is tied to its `SyncStore` function |
| `SyncConverge` (sync_converge.dfy) | what one `sync` achieves per entity kind: convergence, newer edit wins |
| `PyStr` (pystr.dfy) | the Python string methods the helpers rely on (`split`, `strip`, `join`, `lower`) |
| `Tags` (tags.dfy) | `parseTags`, `findTag`, `addTags`, `deleteTags`, `mergeTags` |
| `Period` (period.dfy) | `optimalPeriod` |
| `GenId` (genid.dfy) | `genID` with its state kept between calls |
| `Facts` (facts.dfy) | class `Fact`: its dictionary interface and `assertValid` |
| `Cards` (cards.dfy) | class `Card`: `updateStats` and `hasTag` |
| `Statistics` (stats.dfy) | class `Stats` (`updateStats`), `summarizeStats`, `setPercentage`, `splitIntoIntervals` and the kanji grade helpers |
| `Unihan` (unihan.dfy) | the line-reading loop of the import script and its row filter |
| `TaskTree` (task_tree.dfy) | the shape of the task tree: subtask lists, parent pointers, ancestors, descendants |
| `Outliner` (outliner.dfy) | the task operations, on maps, and class `Outline` holding the tree's state |

Python objects are modelled as follows:

- Database rows become map entries keyed by id.
- A task object becomes an `Id` that keys the maps `subtasks`, `parent`, `done` and `enddate`.
- Anything the code reads from outside is passed in as a parameter:
  - the clock (`time.time()`, `datetime.date.today()`);
  - the random draws of `genID`;
  - the conversion of a time to a day (`date.fromtimestamp`);
  - the lines of the Unihan file.

Where the code differs from its evident intent, the model gives both: a member that follows the code as written, with a lemma showing the difference, and a corrected member that the rest of the model uses. "## Findings" lists each pair. One example: the source's upsert of a fact or card leaves the row's tombstone in place, so an id can be live and tombstoned at once. `SyncStore.UpsertAsWritten` models that upsert. The corrected `SyncStore.Upsert` also drops the tombstone, and every replica method that upserts uses the corrected form.

## Model

| member | source | states |
|---|---|---|
| SyncDiff.DictOf | libanki/anki/sync.py:117-118 | every id of the pair list becomes a key of `dict(pairs)` |
| SyncDiff.DictOfKeys | libanki/anki/sync.py:117-118 | the keys of `dict(pairs)` are exactly the ids of the pairs |
| SyncDiff.DictOfLastWins | libanki/anki/sync.py:117-118 | when an id repeats, `dict(pairs)` keeps the value of its last pair |
| SyncDiff.UnmentionedInSync | libanki/anki/sync.py:141-167 | an id in neither summary is classified as needing no action |
| SyncDiff.ClassifyMirror | libanki/anki/sync.py:142-167 | swapping the local and remote summaries swaps "locally" and "remotely" in every classification |
| SyncDiff.LocalTombstoneNeverPushes | libanki/anki/sync.py:142-167 | an id with a local tombstone is never classified as locally edited or remotely deleted |
| SyncDiff.AddRemoteLive | libanki/anki/sync.py:127-128 | after the first loop, every remotely live id maps to (None, its remote modtime) |
| SyncDiff.AddRemoteDeleted | libanki/anki/sync.py:129-130 | a remote tombstone resets its id to (None, None) and leaves other ids alone |
| SyncDiff.AddLocalLive | libanki/anki/sync.py:131-135 | a locally live id gets its local modtime and keeps its remote slot |
| SyncDiff.AddLocalDeleted | libanki/anki/sync.py:136-140 | a local tombstone clears the local slot and keeps the remote one |
| SyncDiff.FilledTable | libanki/anki/sync.py:124-140 | after the four loops the table holds exactly the mentioned ids, each with its (local, remote) slot |
| SyncDiff.CollectIds | libanki/anki/sync.py:124-140 | the id table built from two summaries maps each mentioned id to its (local, remote) slots |
| SyncDiff.Route | libanki/anki/sync.py:142-167 | the branch chain on the slots and tombstone dictionaries yields the id's classification |
| SyncDiff.Classify | libanki/anki/sync.py:141-167 | only a live side pushes or requests an edit, a delete comes only from a side holding a tombstone, and two live modtimes are in sync exactly when equal |
| SyncDiff.FileOne | libanki/anki/sync.py:142-167 | filing one more id keeps each outcome list equal to the ids visited so far with that outcome |
| SyncDiff.FiledAll | libanki/anki/sync.py:142-167 | after all ids, each outcome list is duplicate-free and holds exactly the ids with that outcome |
| SyncDiff.ClassifyAll | libanki/anki/sync.py:142-169 | the four returned lists hold, without duplicates, exactly the ids of each outcome |
| SyncDiff.DiffSummary | libanki/anki/sync.py:111-169 | each list holds exactly the ids classified into it, without duplicates, and only ids that appear in some summary |
| SyncStore.Upsert | libanki/anki/sync.py:373-377 | `insert or replace` of rows, with the correction of Findings (an upserted id loses its tombstone), keeps a table consistent: live and tombstoned ids stay disjoint |
| SyncStore.UpsertAsWritten | libanki/anki/sync.py:373-377 | the source's `insert or replace`: every sent row is installed, other rows stay, and the tombstones are not touched |
| SyncStore.Updated | libanki/anki/sync.py:251-252 | only the batch's own table changes, by the corrected upsert (and, for facts, the fields); deck, statistics and history stay |
| SyncStore.MergeDaily | libanki/anki/sync.py:506-517 | the old daily rows stay in front; every added row is an incoming one; afterwards every incoming row's day is recorded |
| SyncStore.Bundle | libanki/anki/sync.py:468-485 | the bundle carries the deck row, the global statistics, the daily rows since the last-sync day and the history since the last sync |
| SyncStore.ApplyBundle | libanki/anki/sync.py:487-532 | the deck is taken over and marked synced; global statistics overwritten; old daily rows and history kept in front, incoming history appended; tables untouched |
| SyncStore.Baseline | libanki/anki/sync.py:177-181 | the baseline is the shared `lastSync` when both decks agree on it, and otherwise 0 |
| SyncStore.AfterGen | libanki/anki/sync.py:189-204 | `genPayload` only deletes rows and keeps tables consistent; it advances `lastSync` to `modified` exactly when the local deck is newer; fields, statistics and history stay |
| SyncStore.KindSync | libanki/anki/sync.py:174-187 | a whole sync keeps both tables consistent |
| SyncStore.Delete | libanki/anki/sync.py:392-393 | deleting ids keeps a table consistent |
| SyncStore.Buried | libanki/anki/sync.py:462-463 | a delete creates a tombstone at the deletion time exactly for the requested ids that are live |
| SyncStore.UpsertIdempotent | libanki/anki/sync.py:358-390 | applying the same upsert twice equals applying it once, so a repeated sync is safe |
| SyncStore.UpsertRows | libanki/anki/sync.py:358-390 | an upserted id holds the sent row and no tombstone; any other id keeps its row and tombstone |
| SyncStore.UpsertOne | libanki/anki/sync.py:409-460 | upserting rows one at a time equals upserting them together |
| SyncStore.DeleteOne | libanki/anki/sync.py:337-341 | deleting ids one at a time equals deleting them together |
| SyncStore.DailySince | libanki/anki/sync.py:497-503 | the daily statistics bundled are exactly those on or after the last-sync day |
| SyncStore.HistorySince | libanki/anki/sync.py:524-526 | the history bundled is exactly the entries newer than the last sync |
| SyncStore.UpdatedOf | libanki/anki/sync.py:251-252 | `updateObjsFromKey` upserts into the named kind's table only |
| SyncStore.DeletedOf | libanki/anki/sync.py:248-249 | `deleteObjsFromKey` deletes from the named kind's table only |
| SyncStore.AfterApplyOf | libanki/anki/sync.py:209-214 | per kind, the server upserts the added rows, then deletes the deleted ids |
| SyncStore.AfterReplyOf | libanki/anki/sync.py:230-231 | per kind, the reply only upserts the returned rows |
| SyncStore.AppliedKeepsDeck | libanki/anki/sync.py:209-214 | applying an entity batch leaves the deck row alone |
| SyncStore.UpdatedKeepsDeck | libanki/anki/sync.py:358-390 | updating an entity table leaves the deck row alone |
| SyncStore.SyncKind | libanki/anki/sync.py:174-237 | for one kind, the local and server tables after the whole exchange equal the two tables of `KindSync` |
| SyncStore.SyncKinds | libanki/anki/sync.py:174-237 | the previous statement holds for models, facts and cards together |
| SyncStore.SyncDeck | libanki/anki/sync.py:189-237 | the deck row of the side modified later ends up on both replicas, with `lastSync` set to its `modified` |
| SyncStore.LocalFields | libanki/anki/sync.py:228-232 | after `applyPayloadReply` the local side holds the fields of exactly the facts the reply carried |
| SyncStore.RemoteFields | libanki/anki/sync.py:206-214 | after `applyPayload` the remote side holds the fields of the locally edited facts |
| SyncStore.SyncFields | libanki/anki/sync.py:189-237 | after a sync, the remote side holds the fields of the locally edited facts and the local side those of the remotely edited facts (`FieldSync`) |
| SyncStore.SyncAggregates | libanki/anki/sync.py:189-237 | the side with the older deck takes over the newer side's global statistics, daily statistics since its last-sync day and history since its last sync; the sender's stay as they were |
| SyncStore.ReplyNeverDeletes | libanki/anki/sync.py:228-237 | applying the reply never removes a live row |
| SyncReplica.Collect | libanki/anki/sync.py:86-105 | a `select ... where` returns exactly the selected rows of the table |
| SyncReplica.ElemsOfOutcome | libanki/anki/sync.py:192-197 | the ids of a diff list are exactly the ids with that outcome |
| SyncReplica.Replica.KindSummaryOf | libanki/anki/sync.py:86-91 | a kind's summary lists the rows and tombstones newer than the baseline |
| SyncReplica.Replica.Summary | libanki/anki/sync.py:80-106 | for every kind, the summary is the table's view since `lastSync` |
| SyncReplica.Replica.GetObjs | libanki/anki/sync.py:245-246 | the fetched batch holds exactly the requested ids' rows (and, for facts, their fields) |
| SyncReplica.Replica.UpdateModels | libanki/anki/sync.py:280-288 | the models table becomes the corrected upsert of the sent models (an upserted id also loses its tombstone); nothing else changes |
| SyncReplica.Replica.UpdateObjs | libanki/anki/sync.py:251-252 | the store becomes the corrected upsert of the batch into its kind (an upserted id also loses its tombstone); an empty fact or card batch changes nothing |
| SyncReplica.Replica.DeleteModels | libanki/anki/sync.py:337-341 | the models table becomes the deletion of the ids; nothing else changes |
| SyncReplica.Replica.DeleteObjs | libanki/anki/sync.py:248-249 | the store becomes the deletion of the ids from their kind |
| SyncReplica.Replica.UpdateDeck | libanki/anki/sync.py:487-489 | the deck row becomes the received one, with `lastSync` set to its `modified` |
| SyncReplica.Replica.UpdateStats | libanki/anki/sync.py:506-517 | global statistics are overwritten; daily records are added only for days not already present |
| SyncReplica.Replica.UpdateHistory | libanki/anki/sync.py:528-532 | received history entries are appended |
| SyncReplica.Replica.BundleDeck | libanki/anki/sync.py:468-485 | the bundle carries the deck row, the global statistics, the daily statistics since the last-sync day and the history since the last sync |
| SyncReplica.Replica.GenPart | libanki/anki/sync.py:192-197 | a kind's payload part carries the locally edited rows, the locally deleted ids and the remotely edited ids; remotely deleted ids are deleted locally |
| SyncReplica.Replica.GenPayload | libanki/anki/sync.py:189-204 | the payload holds each kind's part, plus the deck bundle only when the local deck is newer; the new state is `AfterGen` |
| SyncReplica.Replica.ApplyPart | libanki/anki/sync.py:209-214 | the server returns the requested rows as they were, then upserts the added rows and deletes the deleted ids |
| SyncReplica.Replica.ApplyPayload | libanki/anki/sync.py:206-226 | the new server state is `AfterApply`, whose upserts are the corrected ones; the reply answers every request and carries the deck bundle exactly when none was sent |
| SyncReplica.Replica.ApplyPayloadReply | libanki/anki/sync.py:228-237 | the local state becomes `AfterReply` of the reply: corrected upserts only, never a deletion |
| SyncReplica.Replica.Sync | libanki/anki/sync.py:174-187 | per kind, both tables become `KindSync` of the old tables from the agreed baseline, with the corrected upsert; both fields tables become `FieldSync`; both decks become the newer deck with `lastSync` set to its `modified`; the side with the older deck takes over the other side's global statistics, merges in its daily statistics since its last-sync day and appends its history since its last sync, while the sender's statistics and history stay as they were |
| SyncConverge.InOutcome | libanki/anki/sync.py:142-167 | an id is in an outcome's id set exactly when it is classified that way |
| SyncConverge.SlotSince | libanki/anki/sync.py:80-106 | a summary taken since a baseline shows a row or tombstone exactly when it is newer than the baseline |
| SyncConverge.KindSyncAt | libanki/anki/sync.py:174-237 | per id, which side's row survives on each replica and when a tombstone is kept |
| SyncConverge.SyncConvergesAt | libanki/anki/sync.py:174-237 | after a sync, an id mentioned in either summary has the same row, or none, on both replicas; an unmentioned id is untouched |
| SyncConverge.SyncConverges | libanki/anki/sync.py:174-187 | the previous statement for all ids at once; both tables stay consistent |
| SyncConverge.NewerEditWins | libanki/anki/sync.py:143-148 | when both sides edited an id since the baseline, the row with the newer modtime ends up on both sides |
| SyncConverge.StaleTombstoneLosesNewerEdit | libanki/anki/sync.py:373-377 | the source's upsert leaves a tombstone behind, so a later full sync overwrites a newer local edit (see Findings) |
| SyncConverge.ResurrectedEditWins | libanki/anki/sync.py:373-377 | with the corrected upsert, the newer local edit is pushed |
| PyStr.StripLeft | libanki/anki/utils.py:91 | the result is a suffix of the input with only whitespace removed before it, and it does not start with whitespace |
| PyStr.StripRight | libanki/anki/utils.py:91 | the result is a prefix of the input with only whitespace removed after it, and it does not end with whitespace |
| PyStr.Strip | libanki/anki/utils.py:91 | the result has no whitespace at either end and uses only characters of the input |
| PyStr.StripOf | libanki/anki/utils.py:91 | stripping whitespace-padded text gives back the text |
| PyStr.StripEmpty | libanki/anki/utils.py:91 | a string strips to empty exactly when it is all whitespace |
| PyStr.Split | libanki/anki/utils.py:90 | splitting yields at least one piece, and no piece contains the separator |
| PyStr.JoinSplit | libanki/anki/utils.py:90 | joining the pieces of a split with the separator gives back the string |
| PyStr.SplitConcat | libanki/anki/utils.py:90 | splitting `a + sep + b` is splitting `a` followed by splitting `b` |
| PyStr.Lower | libanki/anki/utils.py:96 | lower-casing keeps the length and maps every character through the ASCII case map |
| PyStr.LowerIdempotent | libanki/anki/utils.py:96 | lower-casing twice is lower-casing once |
| Tags.Kept | libanki/anki/utils.py:91 | empty pieces are dropped; pieces without commas give clean tags |
| Tags.ParseTags | libanki/anki/utils.py:88-92 | every parsed tag is non-empty, comma-free and has no edge whitespace |
| Tags.ParseConcat | libanki/anki/utils.py:88-92 | parsing two comma-joined strings is parsing each and concatenating |
| Tags.ParseJoin | libanki/anki/utils.py:98-104 | parsing a ", "-joined list of clean tags gives back the list |
| Tags.FindTag | libanki/anki/utils.py:94-96 | true exactly when some tag equals the query, ignoring case |
| Tags.FindTagIgnoresCase | libanki/anki/utils.py:94-96 | the query's case does not matter |
| Tags.FindTagAppend | libanki/anki/utils.py:94-96 | a tag is found after appending `t` exactly when it was found before or equals `t` ignoring case |
| Tags.AddAllExtends | libanki/anki/utils.py:101-103 | adding tags keeps the current list as a prefix and appends only incoming tags |
| Tags.AddAllKeepsFound | libanki/anki/utils.py:101-103 | a tag found before adding is still found after |
| Tags.AddAllFinds | libanki/anki/utils.py:101-103 | every incoming tag is found after adding |
| Tags.AddAllPresent | libanki/anki/utils.py:101-103 | adding only tags already present changes nothing |
| Tags.AddAllClean | libanki/anki/utils.py:98-104 | adding clean tags to clean tags gives clean tags |
| Tags.AddEach | libanki/anki/utils.py:101-103 | the loop appends each incoming tag not yet found, ignoring case, in order |
| Tags.AddTags | libanki/anki/utils.py:98-104 | `addTags` returns the ", "-join of the current tags followed by the new ones |
| Tags.AddedTags | libanki/anki/utils.py:98-104 | the result parses to the old tags, in order, followed only by requested tags, and every requested tag is found in it |
| Tags.AddedIdempotent | libanki/anki/utils.py:98-104 | adding the same tags twice is adding them once |
| Tags.IndexOf | libanki/anki/utils.py:111-113 | the first position of a tag, or the length when it is absent |
| Tags.RemoveFirst | libanki/anki/utils.py:111-113 | `list.remove` drops the first occurrence, and leaves the list unchanged when the tag is absent |
| Tags.RemoveFirstCounts | libanki/anki/utils.py:111-113 | removal takes exactly one copy of the tag out of the multiset |
| Tags.DeleteAllCounts | libanki/anki/utils.py:109-113 | deleting a list of tags subtracts its multiset |
| Tags.RemoveEach | libanki/anki/utils.py:109-113 | the loop computes `DeleteAll` |
| Tags.DeleteTags | libanki/anki/utils.py:106-114 | `deleteTags` returns the ", "-join of the tags left after the removals |
| Tags.DeletedTags | libanki/anki/utils.py:106-114 | the result parses to the old tags minus one copy of each requested tag |
| Tags.ParseJoinedArgs | libanki/anki/utils.py:84-86 | parsing the comma-joined arguments gives the tags of all arguments |
| Tags.MergeTags | libanki/anki/utils.py:84-86 | the merged string parses to a duplicate-free list holding exactly the tags of the arguments |
| Period.OptimalPeriod | libanki/anki/utils.py:46-62 | each unit exactly on its range of `\|time\|`: seconds below 60, minutes from 60 to below 3599, hours up to one day, days up to 30 days, months up to 365 days, years from there; the decimals are `point` plus the unit's shift, clamped at 0 |
| Period.UnitMonotone | libanki/anki/utils.py:46-62 | a longer span never gets a smaller unit |
| Period.UnitIgnoresSign | libanki/anki/utils.py:47-61 | the sign of the span does not matter |
| Period.UnitIgnoresPoint | libanki/anki/utils.py:46-61 | the unit does not depend on the requested precision |
| Period.UnitBoundaries | libanki/anki/utils.py:47-61 | the unit changes at 60 s, 3599 s, 86400 s, 30 days and 365 days |
| GenId.BitOrShifted | libanki/anki/utils.py:138 | or-ing a value below 2^k into a number shifted left by k is addition |
| GenId.Pack | libanki/anki/utils.py:138-141 | with a 23-bit random value and a 41-bit time, the id is a signed 64-bit value, the two's-complement reading of `rand * 2^41 + t` |
| GenId.Signed | libanki/anki/utils.py:139-141 | the result agrees with its input modulo 2^64, lies in the signed 64-bit range for an input below 2^64, and leaves a value already in that range unchanged |
| GenId.PackInjective | libanki/anki/utils.py:138-141 | distinct (random value, millisecond) pairs give distinct ids |
| GenId.FirstFresh | libanki/anki/utils.py:133-137 | the first draw not used yet in this millisecond, or none when every draw is used |
| GenId.IdGenerator.Next | libanki/anki/utils.py:122-142 | a new millisecond forgets the used values; the chosen value is recorded; within one millisecond a new id never repeats an issued one |
| Facts.FirstNamed | libanki/anki/facts.py:82 | the position of the first field with that name, or none |
| Facts.Lookup | libanki/anki/facts.py:80-84 | the value of the first field with that name, or KeyError exactly when there is none |
| Facts.Assigned | libanki/anki/facts.py:86-90 | assignment to a missing name is KeyError; otherwise names and flags are kept |
| Facts.LookupAfterAssign | libanki/anki/facts.py:80-90 | after `fact[k] = v`, `fact[k]` is v and every other key reads as before |
| Facts.FieldValidMeans | libanki/anki/facts.py:108-109 | `fieldValid` fails exactly when the field is required and `strip()` leaves its value empty |
| Facts.FieldValid | libanki/anki/facts.py:108-109 | a field is invalid exactly when it is required and its value is whitespace only |
| Facts.FirstInvalid | libanki/anki/facts.py:101-106 | the first invalid field, or none exactly when all fields are valid |
| Facts.Fact.Keys | libanki/anki/facts.py:74-75 | the field names, in field order |
| Facts.Fact.Values | libanki/anki/facts.py:77-78 | the field values, in field order |
| Facts.Fact.Get | libanki/anki/facts.py:80-84 | succeeds exactly for names among the keys |
| Facts.Fact.Set | libanki/anki/facts.py:86-90 | sets the first field of that name, or raises KeyError and changes nothing |
| Facts.Fact.GetAsWritten | libanki/anki/facts.py:92-96 | as written, `get` on a missing key raises KeyError instead of returning the default |
| Facts.Fact.GetOr | libanki/anki/facts.py:92-96 | the corrected `get`: the field's value, or the default for a missing key |
| Facts.Fact.AssertValid | libanki/anki/facts.py:101-106 | succeeds exactly when all fields are valid, else names the first empty required field |
| Facts.GetIgnoresDefault | libanki/anki/facts.py:92-96 | a fact without a "Back" field: `get("Back", "none")` raises, while the corrected version returns "none" |
| Cards.BucketOf | libanki/anki/cards.py:117-118 | only mature cards count in the mature ease table; new cards count as young |
| Cards.Card.CountRepetition | libanki/anki/cards.py:103-115 | reps grows by one; the success streak grows on ease > 1 and resets otherwise; a delay under 60 s updates review and average time |
| Cards.Card.CountEase | libanki/anki/cards.py:116-127 | one ease counter of the right table grows by one; yes/no counts, first answer time and modification time are updated |
| Cards.Card.UpdateStats | libanki/anki/cards.py:102-128 | all of the above; an ease outside 0..4 fails after the repetition and time counters have changed, as the missing attribute does in the source |
| Cards.Card.HasTag | libanki/anki/cards.py:130-135 | true exactly when the tag is among the card's, the fact's, the card model's name or the model's tags, ignoring case |
| Cards.FindTagConcat | libanki/anki/cards.py:130-135 | a tag is found in two lists put together exactly when it is found in one of them |
| Statistics.Stats.CountTime | libanki/anki/stats.py:66-76 | reps grows by one; a delay of 60 s or more is distracted and counts the average time; otherwise the average stays review time over undistracted reps |
| Statistics.Stats.CountEase | libanki/anki/stats.py:78-79 | exactly one ease counter, of the card's old type, grows by one |
| Statistics.Stats.UpdateStats | libanki/anki/stats.py:65-79 | both of the above; an ease outside 0..4 fails after the time counters have changed, with the ease counters unchanged; answers never exceed reps |
| Statistics.Percentage | libanki/anki/stats.py:140-144 | 0 for an empty total, else the exact share of 100, between 0 and 100 |
| Statistics.PercentagesComplement | libanki/anki/stats.py:140-144 | the yes and no percentages of a nonzero total add to 100 |
| Statistics.EaseCountsSum | libanki/anki/stats.py:105-113 | "no" (ease 0-1) plus "yes" (ease 2-4) is the sum of the five ease counters |
| Statistics.CountsAgree | libanki/anki/stats.py:103-124 | each type total is its yes plus its no; the grand total is both the sum over types and yes plus no |
| Statistics.SharesComplement | libanki/anki/stats.py:127-134 | yes and no shares add to 100 wherever the total is nonzero |
| Statistics.CountKeysComplete | libanki/anki/stats.py:103-124 | the summary has a count for every key |
| Statistics.CountTypes | libanki/anki/stats.py:103-113 | the per-type loop records exactly the per-type yes, no and totals |
| Statistics.SumOverTypes | libanki/anki/stats.py:116-119 | summing a column over the types gives that answer's total |
| Statistics.CountAnswers | libanki/anki/stats.py:115-119 | adds the yes and no totals |
| Statistics.CountTotal | libanki/anki/stats.py:121-124 | adds the grand total |
| Statistics.CountShares | libanki/anki/stats.py:127-134 | records each percentage key with its share |
| Statistics.PartialAnswerAll | libanki/anki/stats.py:115-119 | the running sum over all types is the answer total |
| Statistics.PartialTotalAll | libanki/anki/stats.py:121-124 | the running sum over all types is the grand total |
| Statistics.SummarizeStats | libanki/anki/stats.py:97-134 | counts hold exactly the count of every key; percentages hold exactly the share of every percentage key |
| Statistics.CountIn | libanki/anki/stats.py:294 | the number of intervals in a half-open range |
| Statistics.CountInSplit | libanki/anki/stats.py:294 | counts over adjacent ranges add up |
| Statistics.BoxesPartition | libanki/anki/stats.py:288-297 | over ascending bounds, the boxes count every interval between the first and last bound exactly once |
| Statistics.SplitIntoIntervals | libanki/anki/stats.py:288-297 | a box is present exactly when its range holds some interval, and then holds the count |
| Statistics.LastGrade | libanki/anki/stats.py:340-343 | the last grade containing the character, or 0 |
| Statistics.GradeChars | libanki/anki/stats.py:340-343 | the characters of all grades |
| Statistics.GradeHash | libanki/anki/stats.py:337-343 | maps exactly the graded characters, each to the last grade that lists it |
| Statistics.StoreGrade | libanki/anki/stats.py:341-343 | every character of the list gets the grade, the other entries stay |
| Statistics.KanjiGrade | libanki/anki/stats.py:345-346 | the stored grade, and 0 for a character without one |
| Statistics.KanjiGradeIsLast | libanki/anki/stats.py:345-346 | `kanjiGrade` is the last grade listing the character, and 0 for an ungraded one |
| Statistics.NotInAny | libanki/anki/stats.py:345-346 | a character in no grade gets grade 0 |
| Statistics.MissingInGrade | libanki/anki/stats.py:422-425 | exactly the grade's characters not yet seen, in order |
| Statistics.MissingSplitsGrade | libanki/anki/stats.py:422-425 | missing plus seen characters make up the grade; with nothing seen, all are missing |
| Statistics.MissingInOrder | libanki/anki/stats.py:422-425 | the missing characters keep the grade list's order: those of two pieces of the list are the first piece's followed by the second's, and one character is missing exactly when it is unseen |
| Statistics.Seen | libanki/anki/stats.py:422-425 | exactly the grade's characters already seen |
| Statistics.Repeat | libanki/anki/stats.py:360 | `s * k`: k copies of s, empty for k <= 0 |
| Statistics.Rjustfig | libanki/anki/stats.py:358-360 | the number followed by one `&nbsp;` per missing column; unchanged when already wide enough |
| Unihan.HexChar | libanki/anki/features/chinese/save_unihan.py:42 | a hex digit with the given value |
| Unihan.Hex | libanki/anki/features/chinese/save_unihan.py:42 | a non-empty hex numeral with no leading zero whose value is n |
| Unihan.HexRoundTrip | libanki/anki/features/chinese/save_unihan.py:42 | `int(hex(n), 16) == n` |
| Unihan.ParseInt | libanki/anki/features/chinese/save_unihan.py:42 | `int(s, base)`: a blank string raises; a negative result comes only from a leading `-` |
| Unihan.ParsePlain | libanki/anki/features/chinese/save_unihan.py:42 | `int(s, base)` of a non-empty string of digits of that base is the digits' value |
| Unihan.RemoveU | libanki/anki/features/chinese/save_unihan.py:42 | removing "U" characters keeps strings without them unchanged |
| Unihan.FieldsOf | libanki/anki/features/chinese/save_unihan.py:36-39 | a stripped, tab-separated line splits into its three fields |
| Unihan.CodepointOf | libanki/anki/features/chinese/save_unihan.py:40-42 | "U+" followed by a hex numeral is accepted and parses back to the codepoint |
| Unihan.ClassifyFields | libanki/anki/features/chinese/save_unihan.py:36-50 | a three-field U+ line sets its attribute, or raises when the value cannot be parsed |
| Unihan.AttrOf | libanki/anki/features/chinese/save_unihan.py:43-50 | only an unparsable `kGradeLevel` raises; an unknown field name gives the empty attribute; readings are kept verbatim and a grade is the parsed value |
| Unihan.Classify | libanki/anki/features/chinese/save_unihan.py:36-50 | a line is skipped exactly when it has not three fields or no `U+`; a line that sets something names the parsed codepoint and attribute |
| Unihan.ClassifyWellFormed | libanki/anki/features/chinese/save_unihan.py:36-50 | the outcome of every well-formed line, from its codepoint, field name and value |
| Unihan.ClassifySkips | libanki/anki/features/chinese/save_unihan.py:36-41 | lines without three fields, or not starting with U+, are skipped |
| Unihan.Outcomes | libanki/anki/features/chinese/save_unihan.py:35-50 | one outcome per line |
| Unihan.OutcomeAt | libanki/anki/features/chinese/save_unihan.py:35-50 | the i-th outcome is the classification of the i-th line |
| Unihan.LaterLineWins | libanki/anki/features/chinese/save_unihan.py:43-50 | a later line setting an attribute overrides earlier values of that attribute |
| Unihan.OtherLinesKeep | libanki/anki/features/chinese/save_unihan.py:43-50 | a line about another codepoint leaves the entry alone |
| Unihan.SetOnceSurvives | libanki/anki/features/chinese/save_unihan.py:43-50 | a Mandarin reading stays unless a later line sets another |
| Unihan.ReadOne | libanki/anki/features/chinese/save_unihan.py:43-50 | reading one line creates the entry on first mention and changes only its own codepoint |
| Unihan.Unmentioned | libanki/anki/features/chinese/save_unihan.py:43-44 | an unmentioned codepoint has an empty entry |
| Unihan.Store | libanki/anki/features/chinese/save_unihan.py:43-50 | updating the dictionary by one outcome keeps it equal to the entries of the lines read |
| Unihan.ReadLine | libanki/anki/features/chinese/save_unihan.py:36-50 | reading a line yields its classification |
| Unihan.Load | libanki/anki/features/chinese/save_unihan.py:35-50 | fails at the first line that raises; otherwise the table holds exactly the entries the lines define |
| Unihan.Rows | libanki/anki/features/chinese/save_unihan.py:52-56 | one row per codepoint with a non-empty entry, carrying its values |
| Unihan.RowsDistinct | libanki/anki/features/chinese/save_unihan.py:52-56 | no two rows share a codepoint |
| TaskTree.AncestorsStep | ppygui/demo/app/outliner/task.py:87-93 | the parents of x are its parent followed by the parent's parents |
| TaskTree.ChildLevel | ppygui/demo/app/outliner/task.py:87-93 | a listed subtask sits one level below its parent, whose parents follow it |
| TaskTree.ChildOffChain | ppygui/demo/app/outliner/task.py:87-93 | a task is neither its own subtask nor a subtask of itself through its parents |
| TaskTree.DescendantsStep | ppygui/demo/app/outliner/task.py:96-99 | the descendants of x are x and the descendants of its subtasks |
| TaskTree.DescendantsBelow | ppygui/demo/app/outliner/task.py:96-99 | every descendant is x or lies strictly below it, so the recursion ends |
| TaskTree.NewTaskShaped | ppygui/demo/app/outliner/task.py:4-10 | a new task without subtasks or parent keeps the tree well formed |
| TaskTree.GraftShaped | ppygui/demo/app/outliner/task.py:12-18 | linking a detached task under a task that is not below it keeps the tree well formed and leaves the new parent's parents alone |
| TaskTree.GraftAncestors | ppygui/demo/app/outliner/task.py:12-18 | grafting does not change the parents of the task it grafts under |
| TaskTree.IndexOf | ppygui/demo/app/outliner/task.py:36 | the first position of a listed task |
| TaskTree.RemoveFirst | ppygui/demo/app/outliner/task.py:36 | `list.remove` drops the first occurrence |
| TaskTree.RemoveFirstNoDup | ppygui/demo/app/outliner/task.py:36 | in a duplicate-free list, removal keeps the others and drops only that task |
| TaskTree.InsertPosition | ppygui/demo/app/outliner/task.py:17 | Python's `list.insert` index rule: negative indices count from the end, out-of-range ones clamp |
| TaskTree.InsertAt | ppygui/demo/app/outliner/task.py:17 | the task appears at that position, with the list around it unchanged |
| TaskTree.InsertAtNoDup | ppygui/demo/app/outliner/task.py:16-18 | inserting a new task keeps the list duplicate-free and adds only that task |
| TaskTree.UnlinkShaped | ppygui/demo/app/outliner/task.py:34-36 | removing a task from its parent's list keeps the tree well formed and leaves it detached |
| Outliner.IsLate | ppygui/demo/app/outliner/task.py:59-62 | a task without an end date is never late |
| Outliner.LateStaysLate | ppygui/demo/app/outliner/task.py:59-62 | a late task stays late on later days, and has an end date before today |
| Outliner.ChildrenDone | ppygui/demo/app/outliner/task.py:88-91 | the loop finds whether all subtasks are done |
| Outliner.ParentDone | ppygui/demo/app/outliner/task.py:81-93 | `_set_parent_done` sets the flag, then every parent above is done exactly when all its subtasks are; nothing else changes |
| Outliner.Recompute | ppygui/demo/app/outliner/task.py:26-31 | recomputing a task from its subtasks settles it and every parent above it |
| Outliner.SubDone | ppygui/demo/app/outliner/task.py:96-99 | `_set_sub_done` sets exactly the task and all its descendants to d |
| Outliner.SubtasksSubDone | ppygui/demo/app/outliner/task.py:98-99 | the loop sets exactly the subtasks' descendants |
| Outliner.MarkDone | ppygui/demo/app/outliner/task.py:64-79 | `set_done` sets the task and its descendants, settles every parent above, and changes nothing else |
| Outliner.Unlink | ppygui/demo/app/outliner/task.py:34-43 | removes the task from its parent's list, or ValueError when the parent does not list it; the parents are settled; an only child leaves its parent done |
| Outliner.Odds | ppygui/demo/app/outliner/task.py:56-57 | the subtasks at odd positions, in order |
| Outliner.SecondSubtaskKept | ppygui/demo/app/outliner/task.py:56-57 | with two or more subtasks, the second one survives the as-written loop |
| Outliner.PassStep | ppygui/demo/app/outliner/task.py:56-57 | each pass of the iterating loop removes the element at the iterator's position |
| Outliner.PassNext | ppygui/demo/app/outliner/task.py:56-57 | one more pass skips the next element |
| Outliner.PassesEnd | ppygui/demo/app/outliner/task.py:56-57 | when the iterator passes the end, the list left is the odd-position elements |
| Outliner.RemovePass | ppygui/demo/app/outliner/task.py:56-57 | removing one subtask keeps the loop invariant and drops it from x's list |
| Outliner.UnlinkShrinks | ppygui/demo/app/outliner/task.py:45-47 | unlinking only shrinks lists and cuts the old parent off x's subtree |
| Outliner.RemovedShrunk | ppygui/demo/app/outliner/task.py:45-57 | a whole removal only shrinks lists and leaves x detached |
| Outliner.RemovedLists | ppygui/demo/app/outliner/task.py:45-57 | after removal, the parent's list lost x and lists outside x's subtree are unchanged |
| Outliner.RemovedFlags | ppygui/demo/app/outliner/task.py:45-57 | flags outside x's subtree and parents are unchanged |
| Outliner.RemoveWrap | ppygui/demo/app/outliner/task.py:45-57 | unlinking then removing the subtasks establishes the postcondition of `remove` |
| Outliner.RemoveAsWritten | ppygui/demo/app/outliner/task.py:45-57 | as written, `remove` leaves the odd-position subtasks listed under x |
| Outliner.SkipRemoveSubtasks | ppygui/demo/app/outliner/task.py:56-57 | the as-written loop leaves x's list as its odd-position elements |
| Outliner.RemoveTask | ppygui/demo/app/outliner/task.py:45-57 | the corrected `remove` empties x's list, detaches x, settles the parents and changes nothing outside the subtree |
| Outliner.RemoveSubtasks | ppygui/demo/app/outliner/task.py:56-57 | iterating over a copy removes every subtask |
| Outliner.Grafted | ppygui/demo/app/outliner/task.py:12-18 | grafting keeps the whole state well formed |
| Outliner.Outline.NewTask | ppygui/demo/app/outliner/task.py:4-10 | a new task has no subtasks, no parent, no end date and is not done |
| Outliner.Outline.SetEndDate | ppygui/demo/app/outliner/outliner.py:313-315 | setting a task's end date changes nothing else |
| Outliner.Outline.SetParentDone | ppygui/demo/app/outliner/task.py:81-93 | the flag is set and every parent above is settled; the tree is unchanged |
| Outliner.Outline.SetSubDone | ppygui/demo/app/outliner/task.py:96-99 | exactly the subtree takes the flag |
| Outliner.Outline.SetDone | ppygui/demo/app/outliner/task.py:64-79 | the subtree takes the flag, the parents are settled, and nothing else changes |
| Outliner.Outline.Add | ppygui/demo/app/outliner/task.py:12-14 | appends the subtask and sets its parent; the tree stays well formed |
| Outliner.Outline.Insert | ppygui/demo/app/outliner/task.py:16-18 | inserts at Python's insert position and sets the parent |
| Outliner.Outline.Attach | ppygui/demo/app/outliner/task.py:20-31 | appends the subtask, then the task and its parents are settled |
| Outliner.Outline.AttachAtAsWritten | ppygui/demo/app/outliner/task.py:20-24 | as written, `attach` with an index raises NameError |
| Outliner.Outline.AttachAt | ppygui/demo/app/outliner/task.py:20-31 | the corrected `attach` with an index inserts there, then settles the task and its parents |
| Outliner.Outline.Detach | ppygui/demo/app/outliner/task.py:34-43 | unlinks the task, keeping its parent pointer; ValueError when its parent no longer lists it |
| Outliner.Outline.RemoveSkipping | ppygui/demo/app/outliner/task.py:45-57 | as written, `remove` leaves every other subtask listed; the old parent's list loses exactly the first occurrence of the task |
| Outliner.Outline.Remove | ppygui/demo/app/outliner/task.py:45-57 | the corrected `remove` empties the task's subtask list and detaches the task; the old parent's list loses exactly the first occurrence of the task; no other list outside the task's subtree changes |

## Left out

- Networking, HTTP, zlib and JSON encoding of the sync (`HttpSyncServerProxy` and friends) are not modelled. A payload is a typed value, so a malformed payload cannot be represented.
- The SQL database and the ORM become maps and sequences. `postSyncRefresh`, `flush` and `realTuples` have no effect on values.
- `deck.deleteFacts`, `deck.deleteCards` and `deck.deleteModel`: deck.py is not part of this model. A deletion is modelled as what the sync relies on: the live row goes, and a tombstone stamped with the deletion time is added.
- `mergeFieldModels` and `mergeCardModels`: a received model replaces the stored one whole. Field models and card models inside a model are not modelled.
- `bundleModel`, `dictFromObj` and `applyDict` copy object attributes. Rows are opaque records with a modification time.
- Fields of a fact travel with the fact batch, but the model does not relate them to the fact table beyond selecting them by fact id.
- Timings and percentages are exact reals, not floating point. Rounding in `setPercentage`'s display and in `optimalPeriod` is not modelled.
- Python dictionary iteration order is not modelled. `diffSummary`'s lists and `summary`'s rows are specified by their contents, without an order.
- SyncStore.Upsert: also removes the tombstone of every upserted id, which the source does not do (see Findings); the rest of the model uses this corrected upsert.
- UpdateModels (`SyncReplica.Replica.UpdateModels`): applies the corrected upsert, so an upserted model also loses its tombstone; the source's `updateModels` keeps it.
- UpdateObjs (`SyncReplica.Replica.UpdateObjs`): applies the corrected upsert, so an upserted fact or card also loses its tombstone; the source's `updateFacts` and `updateCards` keep it.
- ApplyPayload (`SyncReplica.Replica.ApplyPayload`): the server's upserts are the corrected ones and drop the tombstones of the added rows, which the source's `applyPayload` keeps.
- ApplyPayloadReply (`SyncReplica.Replica.ApplyPayloadReply`): the upserts of the reply are the corrected ones and drop the tombstones of the returned rows, which the source's `applyPayloadReply` keeps.
- Sync (`SyncReplica.Replica.Sync`): both sides' tables are stated with the corrected upsert, through `KindSync`; the tombstones the source would leave behind are shown only by `SyncConverge.StaleTombstoneLosesNewerEdit`.
- PyStr.Lower: folds the ASCII letters A-Z only. Python's `lower` also folds other Unicode letters.
- Statistics.SummarizeStats: models the call without a key prefix (`pre`), and leaves out the `AverageTime`, `ReviewTime` and `DistractedTime` entries, which copy floating-point timings.
- Outliner.Outline.Remove: states that the task's own list is emptied, but not that the lists of all its descendants are emptied too, which the recursive calls also do.
- Unihan.ParseInt: accepts ASCII digits only. Python's `int()` also accepts other Unicode decimal digits.
- GenId.IdGenerator.Next: is given a finite list of random draws, and produces no id when all of them are already used. The source keeps drawing until it finds a new one.
- `genKanjiSets`, the HTML reports of `DeckStats` and the rest of stats.py beyond the members listed above are left out. So is reading the Unihan file from disk and inserting into its database.
- `datetime.date.today()` and `time.time()` are parameters (`today`, `now`).
- The task name and description are left out. The GUI around the outliner is not modelled.
- Outliner.Outline.Add: requires the subtask to be detached, different from the target and not above it. Grafting a task under its own descendant would make `_set_parent_done` recurse until Python's recursion limit raises RuntimeError. The application only attaches a task that was cut first.
- Outliner.Outline.Insert: same requirement as `Add`, for the same reason.
- Outliner.Outline.Attach: same requirement as `Add`, for the same reason.
- Outliner.Outline.AttachAt: same requirement as `Add`, for the same reason.
- The tree keeps a ghost bound on parent chains. Depth is computed with fuel up to that bound, and the bound grows when a task is grafted.

## Findings

| source | as written | input that shows it | evidently intended | confidence | as-written member | corrected member |
|---|---|---|---|---|---|---|
| libanki/anki/sync.py:373-377 | `insert or replace` brings a fact or card row back, but its tombstone stays | local deletes id 1 at 10; remote edits it at 15; a full sync (baseline 0) copies it back; local edits it at 20; another full sync classifies it as remotely edited, so the older remote row overwrites the newer local edit | a row that becomes live again loses its tombstone | low, not executed | SyncConverge.StaleTombstoneLosesNewerEdit | SyncConverge.ResurrectedEditWins |
| libanki/anki/facts.py:92-96 | `get` catches IndexError, but a missing key raises KeyError | a fact without a "Back" field, `get("Back", "none")` | return the default for a missing key | high, not executed | Facts.GetIgnoresDefault | Facts.Fact.GetOr |
| ppygui/demo/app/outliner/task.py:56-57 | the loop removes subtasks from the list it iterates over, so every other subtask is skipped | a task with two subtasks a and b: b stays listed | every subtask is removed | high, not executed | Outliner.SecondSubtaskKept | Outliner.RemoveTask |
| ppygui/demo/app/outliner/task.py:24 | `self.insert(subtask, i)` names an undefined `i`, and swaps the arguments | `attach(s, 0)` | `self.insert(index, subtask)` | high, not executed | Outliner.Outline.AttachAtAsWritten | Outliner.Outline.AttachAt |
