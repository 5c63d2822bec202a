# Showcase and operations: a verified model

A Dafny 4.11 model of four parts of the repository and proofs about them:

1. the showcase audio command protocol: the server, the display pages that follow `screen.js`, the receipts, the
   confirm loop and the wake-up hub (`AudioDesk`, `AudioHistory`, `AudioAccounts`, `ScreenPage`, `ScreenRun`,
   `ScreenLaws`, `AudioProtocol`, `ConfirmLaws`, `AudioInvariant`, `AudioSafety`, `AudioLater`, `AudioStops`,
   `AudioRecovery`, `SignalHub`);
2. the showcase rounds: revisions, publication, display leases, ballots, totals and the rate limiter (`RoundLedger`,
   `RoundAccounts`, `Tally`, `RateLimiter`), and the store that holds them and the audio tables (`ShowcaseStore`);
3. the transcript edit distance (`EditDistance`);
4. the row stream of the SQLite backup manifest (`Utf8`, `RowStream`, `RowText`) and the public resource bundle
   (`ResourceBundle`, `ResourceExport`, `ResourceSelection`, `ResourceImport`).

`Wrappers` and `Sets` hold the option and result types and one fact about set sizes.

`dafny verify dfyconfig.toml` checks everything.

## How the parts fit together

A handler of `app.py` runs as one transaction under one lock. `RoundLedger` and `AudioDesk` say what each handler does
as a function of the tables; `ShowcaseStore` makes the same updates in place, statement by statement, and is proved
equal to those functions. `ScreenPage` does both for the module variables of a display page. The results about whole
runs are proved of the functions, and carried over to the objects by four methods that take an object through any
sequence of calls: `ShowcaseStore.Serve`, `ScreenRun.Live`, `SignalHub.Interleave` and `RateLimiter.CheckAll`.

What a handler does is also told a second time, from the outside. `RoundAccounts` and `AudioAccounts` follow a run by its
requests alone: which were accepted, and what their own fields said. In every reachable state the tables hold exactly
what these accounts say, and a request is accepted exactly under conditions stated of the account. `ScreenLaws` and
`ConfirmLaws` do the same for the events of a page and for the answers of the server.

`AudioHistory` lets anything at all be sent to the server, in any order and under any succession of stages.
`AudioProtocol` is the closed system: pages that follow `screen.js`, the server, the confirm handlers, and a network
that may lose, delay, reorder and repeat messages. Its `Story` records what happened (commands issued, ids drawn and
registered, commands taken by pages, sounds started, commands dropped or acknowledged). `AudioInvariant` states what
every part of the system keeps; `AudioSafety` proves that every step keeps it and draws the conclusions.

Unlike `cancel_unconfirmed`, the operator's `audio_recover` expires a command at once, without waiting for the responses
on their way. `AudioRecovery` says exactly when that is safe: a recovery is never followed by an execution of a command
it expired if and only if it comes at least four seconds after the command was issued. For every shorter delay there is
a run in which a display starts the sound after the recovery.

`AudioStops` says what an acknowledgement settles for good: a display that confirmed a command executes only later ones
from then on, and after an acknowledged `stop` it sounds only for a `play` that was issued later.

A thread reads the clock before it takes the limiter's lock, so stamps can reach the lock out of order. `RateLimiter`
bounds the admissions of a half-open interval of one window length by how far a stamp can be behind an earlier one: the
sharp bound is one less than twice the limit when stamps are in order, and one less than three times the limit when they
are out of order by up to a quarter of a window; there is no bound at all from a whole window on.

What the protocol results assume:

- one clock rate: a page's clock differs from the server's by a constant;
- display ids, epochs and round ids drawn at random never repeat;
- a confirmation is requested after the playback response, as in `apps/showcase/static/control.js:163-179`;
- a stamp read before a lock is never ahead of the clock inside it;
- a page checks a response's validity and starts the sound in one turn of its event loop, as `screen.js` does.

## Model

| member | source | states |
|---|---|---|
| EditDistance.Compute | scripts/qa/asr_long_sample.py:28-41 | the two-row table returns the least number of single-character insertions, deletions and substitutions that turn one string into the other: a path of that many edits exists and none is shorter |
| EditDistance.DistanceIsLeast | scripts/qa/asr_long_sample.py:28-41 | the recursion behind the table is the length of a shortest edit path |
| EditDistance.LeastCountIsDistance | scripts/qa/asr_long_sample.py:28-41 | a number is the least edit count exactly when it is the distance, so the specification fixes the result |
| EditDistance.NoPathIsShorter | scripts/qa/asr_long_sample.py:28-41 | every edit path between two strings is at least as long as the distance |
| EditDistance.PathOfThatLength | scripts/qa/asr_long_sample.py:28-41 | an edit path of exactly that length exists |
| EditDistance.TableStep | scripts/qa/asr_long_sample.py:32-39 | an inner table entry is the cheapest of its three neighbours plus the edit it stands for |
| EditDistance.ZeroIffEqual | scripts/qa/asr_long_sample.py:28-41 | the distance is zero exactly for equal strings |
| EditDistance.Symmetric | scripts/qa/asr_long_sample.py:28-41 | the distance does not depend on the order of its arguments |
| EditDistance.Triangle | scripts/qa/asr_long_sample.py:28-41 | the triangle inequality, for all three strings |
| EditDistance.LengthBounds | scripts/qa/asr_long_sample.py:28-41 | the distance lies between the length difference and the larger length |
| Utf8.CharForm | scripts/ops/backup_v2.py:365 | a character is encoded in its shortest form, with the first and continuation bytes of section 3 of RFC 3629 |
| Utf8.RoundTrip | scripts/ops/backup_v2.py:365 | decoding the UTF-8 bytes of any text gives the text back |
| RowStream.TypedRow | scripts/ops/backup_v2.py:350-365 | a row becomes one UTF-8 JSON line of tagged values, and is refused exactly when some value has an unsupported type |
| RowStream.FeedDigest | scripts/ops/backup_v2.py:399-403 | the bytes fed to a table's digest are the concatenated lines of its rows, counted one by one; the table is refused exactly when a row is |
| RowStream.LineRoundTrip | scripts/ops/backup_v2.py:350-365 | a line parses back to its row and to whatever follows it (strings by section 7 of RFC 8259, integers by section 6) |
| RowStream.FloatRoundTrip | scripts/ops/backup_v2.py:358 | the hexadecimal text of every binary64 value, signed zeros, infinities, NaN and subnormals included, reads back as that value |
| RowStream.LineFeedOnlyEndsLine | scripts/ops/backup_v2.py:365 | the LF that ends a line is its only LF byte: no encoded value contains the separator |
| RowText.EscapeIsMinimal | scripts/ops/backup_v2.py:365 | only quotes, backslashes and controls are escaped, in their short form if they have one and else by four lower-case hexadecimal digits |
| RowText.PlainTextIsItself | scripts/ops/backup_v2.py:365 | a text without these is written as it is, between quotes |
| RowText.IntegerIsShortest | scripts/ops/backup_v2.py:360 | an integer is written in decimal, with a sign only if negative and no leading zero |
| RowText.BlobIsHex | scripts/ops/backup_v2.py:356 | a blob is two lower-case hexadecimal digits a byte, the high one first |
| RowText.FloatForm | scripts/ops/backup_v2.py:358 | a float is `nan`, `inf`, a short zero, or a leading digit with thirteen fraction digits and a signed power of two |
| RowText.TagSaysType | scripts/ops/backup_v2.py:352-364 | every value is written under the name of its type and keeps its contents |
| RowStream.StreamRoundTrip | scripts/ops/backup_v2.py:399-403 | the byte stream of a table decodes to its rows |
| RowStream.StreamDeterminesRows | scripts/ops/backup_v2.py:350-365 | two streams are equal exactly when the row lists are |
| RowStream.FedBytesDetermineTable | scripts/ops/backup_v2.py:350-403 | two tables feed their digests the same bytes exactly when they hold the same driver rows in the same order |
| RowStream.IdentifierRoundTrip | scripts/ops/backup_v2.py:346-347 | any identifier, quotes included, is read back whole from the statement it is put in |
| ResourceBundle.CheckTable | scripts/ops/v2_resources.py:344-355 | a table passes exactly when every row has the columns of `FIELDS`, JSON columns within the public schema, a canonical UUID of its own and no production actor; the index then holds exactly its keys |
| ResourceBundle.CheckModels | scripts/ops/v2_resources.py:406-411 | the models pass exactly when each has an environment key of the allowed form and a known status |
| ResourceBundle.CheckRules | scripts/ops/v2_resources.py:356-365 | the rules pass exactly when they are those of the release and each is configured as required |
| ResourceBundle.CheckRefs | scripts/ops/v2_resources.py:370-403 | a row passes exactly when each reference names a row of the bundle, or is the missing model of a disabled judge |
| ResourceBundle.Validate | scripts/ops/v2_resources.py:342-405 | a bundle is refused exactly when it is not valid: fields, public JSON, identities, actors, rules, prompt count, closure under every reference, no historical format, environment keys |
| ResourceExport.ExportBundle | scripts/ops/v2_resources.py:242-310 | a source exports exactly when no column that is read is missing, its selected rows are public and the bundle made of them is valid, and then to that bundle |
| ResourceExport.BundleRows | scripts/ops/v2_resources.py:248-300 | a row is in a table of the bundle exactly when it is the public form of a selected row of that table, and the tables are in the order of their keys |
| ResourceSelection.ExportedExactly | scripts/ops/v2_resources.py:248-299 | a source row is in the bundle if and only if what it belongs to is: stages, agents and judge configurations by an exported rule, actions and prompts by an exported stage, generations and recordings by an exported rule's current generation, models and voices by an exported row that names them, rules by the release |
| ResourceSelection.NothingElse | scripts/ops/v2_resources.py:248-299 | every row of the bundle is the public form of a source row that belongs to it |
| ResourceSelection.ProjectedIsPublicForm | scripts/ops/v2_resources.py:286-299 | the public form has the public columns as they were, actors as `@admin`, recordings at their place in the bundle, and a key name for every model |
| ResourceSelection.LessExactly | scripts/ops/v2_resources.py:300 | keys are ordered by their first different character, a prefix first |
| ResourceExport.SortOrdersRows | scripts/ops/v2_resources.py:300 | sorting a table leaves the same rows, as often as before, in the order of their keys |
| ResourceExport.ReferenceIsKept | scripts/ops/v2_resources.py:248-280 | in a consistent source, whatever a selected row refers to is selected too |
| ResourceExport.ExportIsClosed | scripts/ops/v2_resources.py:248-403 | the bundle made from a consistent source is closed under every reference that validation checks |
| ResourceExport.ExportedModelsAndVoicesAreNamed | scripts/ops/v2_resources.py:257-260 | every exported model and voice is referred to by an exported row |
| ResourceImport.Database.Insert | scripts/ops/v2_resources.py:727-733 | the database takes a row exactly when its key is free and every foreign key of it names a stored row; otherwise nothing changes |
| ResourceImport.ForeignKeysAreChecked | migrations/versions/0002_rules_catalogs.py:75-184 | every foreign key of the schema (migrations 0002, 0013, 0034, 0037 and 0044 together) is an actor, a format, or a reference that validation checks, to a table inserted earlier, but for the current generation of a rule |
| ResourceImport.RowHoldsOnInsert | scripts/ops/v2_resources.py:727-733 | when a row of a valid bundle is inserted, in `FIELDS` order, its key is free and none of its foreign keys dangles |
| ResourceImport.RulesNeedDeferral | scripts/ops/v2_resources.py:730-732 | without the deferral of the current generation, the insert of every rule of every valid bundle would break a foreign key |
| ResourceImport.GenerationIsSet | scripts/ops/v2_resources.py:734-740 | the update of one rule changes that rule alone, and completes it |
| ResourceImport.PreparedKeepsCells | scripts/ops/v2_resources.py:662-678 | a prepared row agrees with the bundle on every public column, names the administrator for `@admin`, and has no other columns than these and the sealed key |
| ResourceImport.ImportBundle | scripts/ops/v2_resources.py:696-760 | a valid bundle imports into a fresh database with no refused insert or update and a passing postcheck; every public cell is stored as the bundle has it, with the administrator for `@admin`, and each model with the ciphertext, nonce and last four characters of its own key; in every other case nothing changes |
| ResourceImport.StoredKeysOpen | scripts/ops/v2_resources.py:718-726 | under the same master key, the stored ciphertext and nonce of every model open to the key that the environment gives under the name in its row |
| RateLimiter.Limiter.Check | apps/showcase/app.py:410-417 | one locked check of the limiter, in place: what it admits and the windows it leaves |
| RateLimiter.WindowsAreBounded | apps/showcase/app.py:410-417 | over every call sequence at most 4096 windows are live |
| RateLimiter.CheckAll | apps/showcase/app.py:410-417 | a new limiter, taken through any calls, admits exactly those that the call sequence admits, and ends with its windows, at most 4096 |
| RateLimiter.AdmittedIntoWindow | apps/showcase/app.py:412-417 | a call into an open window is admitted if and only if that window has admitted fewer than its limit |
| RateLimiter.AdmittedWithoutWindow | apps/showcase/app.py:412-417 | a call without an open window is admitted if and only if its limit is positive and fewer than 4096 windows are open |
| RateLimiter.PerWindow | apps/showcase/app.py:410-417 | for any stamps at all, from a call that opens a window of a key to the next that does, at most `limit` calls of the key are admitted, and the window counts them |
| RateLimiter.LaterWindow | apps/showcase/app.py:410-417 | the next window of a key opens at least one window length after the one before, less the skew of the stamps |
| RateLimiter.FewerThanWindows | apps/showcase/app.py:410-417 | when `m` window lengths, each less the skew, cover two window lengths and the skew, a half-open interval of one window length sees fewer than `m` times the limit, wherever it starts |
| RateLimiter.BoundInOrder | apps/showcase/app.py:410-417 | with stamps in order, `n` bounds such an interval in every run if and only if it is at least `2 * limit - 1` |
| RateLimiter.BoundOutOfOrder | apps/showcase/app.py:410-417 | with stamps behind by up to any positive skew of at most a quarter of a window, if and only if it is at least `3 * limit - 1` |
| RateLimiter.BoundedExactly | apps/showcase/app.py:410-417 | some number bounds it in every run if and only if the limit is zero or the skew is shorter than a window |
| RateLimiter.TwiceTheLimitExactly | apps/showcase/app.py:410-417 | twice the limit bounds it in every run if and only if the limit is zero, the stamps are in order, or the limit is one and the skew at most half a window |
| SignalHub.Hub.Subscribe | apps/showcase/audio_events.py:14-20 | a subscriber gets a fresh empty queue, and is refused exactly when the limit is reached |
| SignalHub.Hub.Deliver | apps/showcase/audio_events.py:32-35 | a delivery leaves one token in every queue |
| SignalHub.NoLostWakeUp | apps/showcase/audio_events.py:8-35 | a waiter left blocked with an empty queue and no delivery scheduled began its latest check after every notified record, over every interleaving |
| SignalHub.MissedRecordCanBeDelivered | apps/showcase/app.py:1104-1150 | a notified record that a blocked waiter has not seen leaves a step that wakes the waiter |
| SignalHub.Interleave | apps/showcase/audio_events.py:8-35 | a new hub object and its queues, taken through any interleaving, follow the state machine step by step: no more queues than the limit, and no waiter misses a notified record |
| SignalHub.QueuesNeverExceedLimit | apps/showcase/audio_events.py:14-20 | the number of queues never exceeds the limit, over every interleaving |
| Tally.CountBallots | apps/showcase/app.py:376-388 | the loop counts exactly the side votes and first choices of the ballots, historical ones included |
| Tally.BuildRanking | apps/showcase/app.py:389-402 | each seat once, by points and then seat order, with its place, and marked tied exactly when another seat has as many points |
| Tally.Count | apps/showcase/app.py:376-402 | the totals are the mathematical tally of the ballots |
| Tally.RankingIsUnique | apps/showcase/app.py:389-402 | only one ranking fits given points |
| Tally.SumsMatchTotal | apps/showcase/app.py:376-402 | side votes and seat points never exceed the ballots, and each sum to their number when all came through `vote` |
| Tally.PageAnnouncesMaxima | apps/showcase/static/screen.js:554-573 | the page announces exactly the sides, and exactly the seats, with a positive maximum |
| RoundLedger.RevisionCountsWrites | apps/showcase/app.py:494-499 | from a new store on, the current revision is the number of accepted writes, across rounds, and each was based on the revision of its moment |
| RoundLedger.OneWritePerRevision | apps/showcase/app.py:494-499 | of the writes based on one revision at most one is ever accepted |
| RoundLedger.OneBallotPerVoter | apps/showcase/app.py:779-805 | an accepted ballot is the only one of its round and voter, and stays as it was cast |
| RoundLedger.BallotsStay | apps/showcase/app.py:779-805 | in every reachable store the stored ballots are exactly those accepted, each as it was cast |
| RoundLedger.ReachableTalliesAddUp | apps/showcase/app.py:376-402 | in every reachable store, any selection of ballots counts once each for a side and once each for a seat |
| RoundLedger.BallotsNeedLiveDisplay | apps/showcase/app.py:313-326 | at every accepted ballot the round was published in phase vote, and a display of that round and epoch had been accepted within the six seconds before |
| RoundLedger.LaterPublicationsAgree | apps/showcase/app.py:866-881 | after a round's first vote, everything published for it has the topic, sides and roster that were on the draft at that vote |
| RoundLedger.NewRoundArchives | apps/showcase/app.py:1176-1199 | `new-round` leaves the round it replaces, and its ballots, as they were, and no longer current |
| RoundLedger.ArchivedRoundsNeverChange | apps/showcase/app.py:1161-1199 | a round that is not current never changes again, nor do its ballots, whatever follows |
| RoundAccounts.LedgerIsAsRequested | apps/showcase/app.py:656-1199 | in every reachable state each draft, publication, ballot and lease is what the accepted requests said: the last draft, the draft as last shown, the side and the seat the voter chose, the display's last report |
| RoundAccounts.RunAcceptsExactly | apps/showcase/app.py:656-1199 | over every run a request is accepted if and only if its revision, round, epoch, sequence, voter and fixture fit what was accepted before |
| RoundAccounts.RefusedAs | apps/showcase/app.py:656-1199 | the status code of every refusal |
| RoundAccounts.StaleExactly | apps/showcase/app.py:670-675 | a display report is stale if and only if its display has reported that number or a later one within a minute |
| RoundAccounts.LeasesAfter | apps/showcase/app.py:669-696 | which leases a request leaves: a report clears those a minute old, a withdrawal those of its round, nothing else any |
| RoundAccounts.VotesCountAsAsked | apps/showcase/app.py:376-388 | in every reachable state each side and each seat of a round has as many votes as accepted requests asked for it |
| RoundAccounts.VoteCountsOnce | apps/showcase/app.py:779-805 | an accepted vote raises the counts of its own side and seat by one, in its round, and no other count of any round |
| RoundAccounts.FirstChoiceExactly | apps/showcase/app.py:385-388 | a ballot counts for the seat it names first, and for no other |
| ShowcaseStore.Store.Collecting | apps/showcase/app.py:313-326 | ballots are taken exactly while the round is published in phase vote and a display lease for its epoch is live |
| ShowcaseStore.Store.DisplayLease | apps/showcase/app.py:657-697 | the in-place handler accepts, ignores or refuses a report, and leaves the leases, as the ledger says; a refusal undoes its clean-up |
| ShowcaseStore.Store.Vote | apps/showcase/app.py:780-805 | the in-place handler takes a ballot exactly when the ledger does |
| ShowcaseStore.Store.Draft | apps/showcase/app.py:864-882 | the in-place handler saves a draft exactly when the ledger does |
| ShowcaseStore.Store.Publish | apps/showcase/app.py:1161-1172 | the in-place handler publishes the draft as the ledger says |
| ShowcaseStore.Store.Withdraw | apps/showcase/app.py:1173-1178 | the in-place handler withdraws the round and its leases as the ledger says |
| ShowcaseStore.Store.NewRound | apps/showcase/app.py:1179-1199 | the in-place handler starts the next round as the ledger says |
| ShowcaseStore.Store.Playback | apps/showcase/app.py:347-374 | the search from the newest command down finds the command that displays should execute |
| ShowcaseStore.Store.AudioDisplay | apps/showcase/app.py:700-770 | the in-place handler of a page's report leaves the rows as the desk says, and answers with its outcome and the command offered to the page |
| ShowcaseStore.Store.PlaybackCommand | apps/showcase/app.py:885-971 | the in-place handler issues, repeats or refuses a command, assigns it target by target and trims the table, as the desk says |
| ShowcaseStore.Store.CancelUnconfirmed | apps/showcase/app.py:995-1023 | the in-place cancellation keeps the confirmed displays or expires the command, display by display, as the desk says |
| ShowcaseStore.Store.AudioRecover | apps/showcase/app.py:1062-1092 | the in-place recovery expires the scope's commands and unreadies its displays, as the desk says |
| ShowcaseStore.AudioReceipts.Record | apps/showcase/audio_events.py:49-67 | a receipt is stored, dropped or ignored in place as the desk says, and what it evicts is an oldest receipt |
| ShowcaseStore.AudioReceipts.Oldest | apps/showcase/audio_events.py:58-59 | the eviction loop finds a receipt that no other is older than |
| ShowcaseStore.Store.ReadyDisplays | apps/showcase/app.py:924-932 | the filter over the live displays leaves exactly those that are ready and whose receipt answers the probe, if there was one |
| ShowcaseStore.Store.Confirmed | apps/showcase/app.py:1116-1127 | the confirm loop's list holds exactly the targets of the command whose receipt is of the scope, names the command and fits its operation |
| ShowcaseStore.Serve | apps/showcase/app.py:494-1199 | a new store and its receipts, taken through any requests in the order of the clock, end where the ledger and the desk end under exactly these requests, none passed over, each audio request under the stage the rounds had reached; so rows, commands, receipts, drafts, publications, ballots and leases are what these requests said, the revision counts the writes, the stored ballots are exactly the accepted ones, every row is backed by an assignment or a report, the table holds exactly the latest 128 ids, and at most 512 receipts are kept, none ahead of the probes |
| AudioDesk.PlaybackIsNewest | apps/showcase/app.py:347-358 | what `playback` offers is the newest command of the current scope, and it has not expired |
| AudioDesk.GrantedCommand | apps/showcase/app.py:890-948 | a granted command is of the current scope, goes only to live displays of it, and its request id is not in the table |
| AudioAccounts.TablesAreAsTold | apps/showcase/app.py:699-1092 | in every reachable state a row is what its display last reported (readiness, status, lease end, sequence) less what has been given, failed or taken back since, a command is what was asked, and a receipt is what was recorded |
| AudioAccounts.ReadyRowsSaidSo | apps/showcase/app.py:764 | a row is ready only if its display's last accepted report was active, on the opening page, ready and not hidden, and no recovery or failed confirmation has come since |
| AudioAccounts.ReadyAsReported | apps/showcase/app.py:732-768 | a report accepted on the opening page that says so, about the command the display has, makes its row ready with its status and a six-second lease |
| AudioAccounts.ReportAcceptedExactly | apps/showcase/app.py:708-731 | a report is accepted if and only if it is of the current scope, from the display's own key and newer than the last, or new with room left |
| AudioAccounts.ReportOutcome | apps/showcase/app.py:708-731 | the status code of a refused report, and when a report is stale |
| AudioAccounts.RowsAfterReport | apps/showcase/app.py:710-717 | which other rows a report leaves: those not older than ninety seconds, unchanged |
| AudioAccounts.GrantedReaches | apps/showcase/app.py:914-950 | a granted command goes to a display if and only if its row is of the opening's scope and unexpired and, for a `play`, ready with a receipt between the probe and the counter; every field of it is what was asked |
| AudioAccounts.GrantedExactly | apps/showcase/app.py:894-934 | a command is granted if and only if its request is new in the current scope and, for a `play`, the opening is shown, the recording exists and it reaches somebody |
| AudioAccounts.RepeatedExactly | apps/showcase/app.py:896-913 | a request granted before is answered with its command if it asks the same, and else refused |
| AudioAccounts.GrantGives | apps/showcase/app.py:951-958 | after a grant every display it reaches has the new id and shows nothing of an earlier command, and every other row is unchanged |
| AudioAccounts.PlaybackExactly | apps/showcase/app.py:347-358 | a command is offered if and only if it is the newest of the opening's scope and unexpired |
| AudioAccounts.NothingCancelled | apps/showcase/app.py:998-1006 | a cancellation of anything but the current command of the current scope changes nothing |
| AudioAccounts.ValidUntil | apps/showcase/app.py:369-373 | a command may be started until it expires or four seconds after its issue, whichever is first |
| AudioAccounts.ReceiptsAfterRecord | apps/showcase/audio_events.py:49-60 | which other receipts a record leaves: those of the last ninety seconds, less an oldest one if there was no room |
| AudioAccounts.ReceiptRecorded | apps/showcase/audio_events.py:55-67 | what it leaves of its own display: nothing when that left, the report unless it runs ahead of the probes |
| ConfirmLaws.OfferIsCurrent | apps/showcase/app.py:347-374 | a response offers exactly the current command, as it stands in the table, with the time left to start it |
| ConfirmLaws.DeliveryAnswers | apps/showcase/app.py:723-777 | a report that is not refused is answered with the current offer, and recorded if it was accepted |
| ConfirmLaws.ConfirmedExactly | apps/showcase/audio_events.py:78-90 | a display confirms a command if and only if it is one of its displays and its receipt is of that scope and command, playing or played for a `play`, not playing for a `stop` |
| ConfirmLaws.ConfirmationLooks | apps/showcase/app.py:1103-1114 | a confirmation has four seconds, and looks at the command and at what is current |
| ConfirmLaws.EvaluatedExactly | apps/showcase/app.py:1107-1150 | a confirmation acknowledges if and only if the command is still on and all its displays confirmed; it drops the command when its time is over, and else looks again |
| ConfirmLaws.CancelAcknowledges | apps/showcase/app.py:1136-1146 | a confirmation whose time is over acknowledges exactly those that confirmed, if anybody did |
| AudioHistory.ReportedRow | apps/showcase/app.py:731-770 | a report never gives a row a command, and makes it `playing` or `ended` only by naming the row's own command with that status |
| AudioHistory.HeardRowsReported | apps/showcase/app.py:731-770 | in every reachable state a row's command was assigned by the server in the row's scope, and a row shown as `playing` or `ended` has an accepted report of that, later than the assignment |
| AudioHistory.ReceiptsStayTimed | apps/showcase/audio_events.py:44-67 | in every reachable state there are at most 512 receipts, none is ahead of the probe counter, and each is younger than the probe it answers |
| AudioHistory.ProbedTargetsAnswered | apps/showcase/app.py:924-932 | a `play` sent with a probe targets only ready, unexpired displays of the scope whose receipt was recorded after that probe was issued |
| AudioHistory.TableStaysRecent | apps/showcase/app.py:936-962 | ids are issued as 1, 2, 3 and so on, and the table always holds exactly the latest 128, or all of them, with distinct request ids |
| AudioHistory.ReplayReturnsOriginal | apps/showcase/app.py:896-913 | sending a retained request again in its scope changes nothing and returns the original id, or is refused if it asks for something else |
| AudioHistory.ExpiredIsNeverPlayedBack | apps/showcase/app.py:347-358 | a command that has expired is never offered again, whatever follows |
| ScreenPage.Screen.Release | apps/showcase/static/screen.js:127-143 | leaving a scope in place: the page after it, and its last report |
| ScreenPage.Screen.SendReport | apps/showcase/static/screen.js:385-401 | a report in place: sent exactly while the scope is current, under the next sequence number |
| ScreenPage.Screen.Process | apps/showcase/static/screen.js:338-383 | handling a command in place: the page after it, and the report it sends |
| ScreenPage.Screen.Maintain | apps/showcase/static/screen.js:417-437 | `maintainAudio` in place, up to the `await` of its report |
| ScreenPage.Screen.Arrive | apps/showcase/static/screen.js:686-714 | a state in place: an older revision changes nothing |
| ScreenLaws.ReportsSpeakOfPage | apps/showcase/static/screen.js:385-401 | every report of every event tells the page's own name, probe, readiness, status and command, and every farewell closes the scope and the name the page had |
| ScreenLaws.ReportSentExactly | apps/showcase/static/screen.js:385-401 | a page reports if and only if it is in scope, and a report changes nothing but its number |
| ScreenLaws.ReleaseLeavesForGood | apps/showcase/static/screen.js:127-143 | what a released page keeps and gives up, and when it says farewell |
| ScreenLaws.MaintainExactly | apps/showcase/static/screen.js:417-437 | a maintained page is released when there is no opening to serve, and else in the scope of the state, past its current command if it just joined, with a report unless one is under way |
| ScreenLaws.ArrivalExactly | apps/showcase/static/screen.js:686-714 | an older state changes nothing; a newer one is known from then on, and a recovery takes the page out of the scope |
| ScreenLaws.CommandTakenExactly | apps/showcase/static/screen.js:338-383 | which command a page takes, and its command, sound, status and report then |
| ScreenLaws.AnswerActedOnExactly | apps/showcase/static/screen.js:402-446 | an answer is acted on if and only if it is to a maintaining report of the name and opening the page still has, and has not run out |
| ScreenLaws.FailureExactly | apps/showcase/static/screen.js:408-415 | a failed report takes the page out of its scope if and only if it still goes by that name and scope |
| ScreenLaws.SoundEndExactly | apps/showcase/static/screen.js:365-373 | when the sound ends the page shows it, and says so if it is still in the scope it played for |
| ScreenLaws.JoinedPagesSkipTheCurrent | apps/showcase/static/screen.js:431-434 | whatever follows, a page that joins a scope executes neither the command that was current there nor an older one |
| ScreenRun.LivesAreOrdered | apps/showcase/static/screen.js:338-447 | whatever states and responses a page gets, in any order, its reports are numbered one by one and the ids it executes strictly increase |
| ScreenRun.Live | apps/showcase/static/screen.js:385-401 | the same of the page object, driven through any events: its sequence number counts what it sent |
| AudioInvariant.ReleaseKeepsPage | apps/showcase/static/screen.js:127-143 | a page that leaves a live scope goes by a fresh id afterwards, and keeps no claim to any command |
| AudioInvariant.ProcessKeepsPage | apps/showcase/static/screen.js:338-383 | a page only ever names commands it has executed or was never a target of, and sounds only for a `play` it was told to start |
| AudioSafety.PageObeysWhatItTakes | apps/showcase/static/screen.js:338-447 | a page's sound starts exactly when it takes a `play` it is ready for, and a response it does not take changes neither command nor sound |
| AudioSafety.TakenCommand | apps/showcase/static/screen.js:385-447 | a command that a page takes from a response was addressed to it, is newer than any before, and less than four seconds have passed since it was issued |
| AudioSafety.ConfirmedIsProved | apps/showcase/app.py:1116-1126 | a receipt that confirms a command goes back to a report that a display sent after it had done what the command asked |
| AudioSafety.NextKeepsInv | apps/showcase/app.py:699-1150 | every step of the protocol keeps the invariant |
| AudioSafety.RunKeepsInv | apps/showcase/app.py:699-1150 | the invariant holds after every run |
| AudioSafety.ExecutionsAreTimely | apps/showcase/app.py:369-373 | however late responses arrive, a command is executed within four seconds of its issue, in its own scope, or never |
| AudioSafety.NoExecutionOnceDropped | apps/showcase/app.py:1103-1137 | under any network delay, no display executes a command at or after the moment `cancel_unconfirmed` drops it |
| AudioSafety.AcknowledgedDisplaysActed | apps/showcase/app.py:1116-1146 | every display counted in an acknowledgement was an original target; for a `play` it had started its sound for that command in that scope, for a `stop` it had processed it and was then not playing; the report that proves it was sent after that execution |
| AudioSafety.PartialAcknowledgementsAreLate | apps/showcase/app.py:1127-1146 | an acknowledgement covers every display of the command, or came when the command's four seconds were over, and never counts nobody |
| AudioSafety.DropTakesEffect | apps/showcase/app.py:995-1022 | a drop leaves the command to the displays that confirmed it, or makes sure it is not offered again, and marks every other display of it as failed |
| AudioRecovery.RecoveryIsSafeAfterFourSeconds | apps/showcase/app.py:1061-1092 | in every run, no display executes a command after a recovery of its scope that came `delay` seconds after its issue, if and only if `delay` is at least four seconds |
| AudioRecovery.LateRecoveriesAreSafe | apps/showcase/app.py:369-373 | from four seconds after the issue on, every execution of the command came before the recovery, by the clock and in the order of steps |
| AudioRecovery.EarlyRecoveriesCanBeOvertaken | apps/showcase/app.py:1076-1083 | for every shorter delay, a run that a real page can make: the recovered command is not offered any more, and a response on its way still starts its sound |
| AudioStops.ConfirmedDisplaysMoveOn | apps/showcase/app.py:1116-1146 | once a command has been acknowledged, every display that confirmed it executes only commands with larger ids, over any continuation |
| AudioStops.AcknowledgedStopsSilence | apps/showcase/app.py:1116-1146 | after an acknowledged `stop`, whenever a display that confirmed it sounds, it does so for a `play` with a larger id |
| AudioSafety.PagesExecuteInOrder | apps/showcase/static/screen.js:338-347 | a page executes commands in strictly increasing order of their ids, each at most once, for any reordering of responses |
| AudioSafety.ExecutesOnlyLaterCommands | apps/showcase/app.py:924-935 | a display executes only commands issued after its id was drawn and first registered |
| AudioSafety.ReleasedPagesForgetOldCommands | apps/showcase/static/screen.js:127-143 | once a page has left a live scope, it executes no command issued before its fresh id first registered |

## Left out

- `AudioSafety.NoExecutionOnceDropped`: is about `cancel_unconfirmed`; of `audio_recover` the same holds only from four
  seconds after the issue on, which is what `AudioRecovery.RecoveryIsSafeAfterFourSeconds` states.
- Display lists are sets: the order in which displays are listed is not modelled.
- Sequence numbers of a display are compared only while its row is retained (60 s for leases, 90 s for audio).
- Rate limiting inside the handlers, sign-in, cookies, request validation beyond the non-empty epoch, and the JSON views
  the handlers return.
- SQLite itself, its busy timeouts and its crash recovery: a handler is one atomic step.
- The probe handler's own loop: its waiting is that of `SignalHub`, its answer is what `ShowcaseStore.AudioReceipts.Fresh` says.
- Timers, retries, event sources, audio buffers and drawing in `screen.js`; the browser events that change readiness,
  visibility, connectivity and status are arbitrary steps.
- `ScreenPage.Screen.Process`: whether the recording is decoded and whether the source starts are parameters.
- Floating-point rounding: times are real numbers, and the page's milliseconds are seconds.
- `RowStream.TypedRow`: text is a sequence of Unicode scalar values: the SQLite driver decodes text as strict UTF-8, so the
  lone surrogates that Python refuses to encode cannot come out of it; the hash itself and the choice of table order in
  `sqlite_content_manifest` are left out.
- `ResourceBundle.Validate`: secrets, prompt templates, assets, hashes, endpoint URLs, cross-rule prompts and audio
  manifests are further checks of the source that are not part of this model; which check refuses first is not stated;
  the release's rule ids and revisions are a parameter.
- `ResourceBundle.CheckModels`: the endpoint test of `base_url` is left out with the other endpoint URLs.
- `ResourceExport.ExportBundle`: the asset manifest is given by its host files; its own order, the fingerprints and the
  search for secrets are left out.
- `ResourceImport.Database.Insert`: unique, check and not-null constraints and the conversion of timestamps are left out;
  keys are compared as their canonical text.
- `ResourceImport.ImportBundle`: the database guard and the asset files are left out; AES-GCM is a parameter, of which
  `ResourceImport.StoredKeysOpen` takes only that it opens what it seals.
- `ResourceImport.PreparedKeepsCells`: the conversions of `typed_row` from text to UUID and timestamp objects are left out;
  cells keep their text.
- The match runtime (`MatchActor`), the speech services, the migrations as programs, provider probes and the web
  configuration.
