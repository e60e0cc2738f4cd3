# EVE industry planner: verified models

Dafny models of the parts of the planner whose correctness does not show from reading one function, with proofs of what
they promise. `dafny verify dfyconfig.toml` checks everything. Each module models one source file, or the part of it
that is named here.

The form follows the source. Code that changes state is a `class` or a method with loops, and its `ensures` ties the new
state to a function on values (`View()` gives the value of an object). What the source promises is proved about those
functions, mostly as invariants of runs: a run is a sequence of states in which each follows from the one before by an
event that the surroundings allow, and every theorem over runs quantifies over all of them.

| file | models |
|---|---|
| `CanonicalJson.dfy` | the canonical text and weak ETag of a JSON payload, and `If-None-Match` |
| `AcceptEncoding.dfy` | the one-pass `Accept-Encoding` scanner of the Go middleware and of the frontend server, against section 12.5.3 of RFC 9110 |
| `JsString.dfy` | the six replacements that escape text for `env.js`, against section 12.9.4 of ECMA-262 |
| `ClientIdentity.dfy` | the websocket client id of a tab, and the events by which document locks follow it |
| `LockStateBatch.dfy` | lock-state-batch requests that wait for an acknowledgement |
| `Realtime.dfy` | the realtime socket of a tab as a state machine over everything that can happen to it |
| `Scheduler.dfy` | one-time jobs in gocron, in the tracking map and in Redis, with crashes and restarts |
| `DocQueues.dfy` | per-document queues: senders, workers and the cleaner as interleaved goroutines |
| `TaskSubscriber.dfy` | task types of subjects, and batches processed under a semaphore |
| `DiscordText.dfy` | cutting UTF-8 text into parts for Discord |
| `TransactionIds.dfy` | transaction ids, with FNV-1a in 32-bit arithmetic |
| `PlannerJob.dfy` | the ledgers of a job and their cached totals and id sets |
| `JobSetups.dfy` | the setups of a job and the quantities recalculated from them |
| `JobGroup.dfy` | the id sets and output count of a group |
| `ShoppingLists.dfy` | the shopping list of a selection of jobs |
| `Seqs.dfy`, `Text.dfy`, `Unicode.dfy`, `Arithmetic.dfy` | sequences, filters, string order, splitting, trimming, white space and powers, shared by the others |

## What the proofs found

- A header that refuses brotli gets it nevertheless exactly when a wildcard is the first element to have the greatest
  weight (`RefusedBrotliIsChosenExactly`); `br;q=0, *` is one (`WildcardOverridesRefusal`). A refused gzip stays refused
  (`RefusedGzipIsNeverChosen`). A tie of gzip with a wildcard is decided by the order of the list
  (`TieIsOrderDependent`). Everything else does not depend on the order (`OrderIsIrrelevant`).
- Equal JSON values have the same canonical text, and so the same ETag, except that Go takes 0 and -0 for equal and writes
  them differently: the texts agree exactly when the negative zeros stand in the same places (`TextDecidesUpToZeros`).
- A send to a document queue can hit a closed channel exactly when the time a sender may take to send and the time it may
  take to store the time of last use add up to more than the idle timeout (`PanicExactly`); otherwise senders are called
  timely below. A bound on the first alone is
  not enough, because a late store sets the time of last use back.
- Under the very same condition, and with no panic, an event that was reported accepted can be lost (`LossExactly`): it is
  sent after the cleaner has seen the queue empty and before the cleaner closes it. It then lies in a closed queue that no
  worker comes to any more (`AbandonedForGood`).
- A worker looks a queue up and takes its mutex in two steps. When the cleaner closes the queue in between, the worker
  drains a closed channel, which never ends (`WorkerCanBeCaught`, `SpinsForever`). It is caught exactly when the table no
  longer names its queue at the moment it takes the mutex (`CaughtExactly`).
- Scheduling a job id that is live, or restoring from a scan that returns a surviving key twice, leaves a timer that
  nothing can remove (`PlanningAgrees`, `RepeatedIdOrphansTimer`, `RestoreAgreesExactly`). After a restart a handler can be
  called twice for one job exactly when the scan returned a surviving key twice (`RunsTwiceExactly`), which Redis allows.
- An open handler that a replaced socket left waiting, when it goes on, makes the current handler miss its `resume_ack`:
  the answer arrives exactly when no such handler has gone on before it (`AnswerArrivesExactly`), and otherwise a session
  is synced that the server allowed to skip (`SyncsDespiteAnswerExactly`). `AnswerCanBeMissed` is a run in which it
  happens. That run stashes a client id and connects with no disconnect in between, as this module's callers may; its one
  caller, `frontend/src/Realtime/useAccountWebSocket.js:31-34`, always disconnects after a stash.
- A resume hint is sent exactly when the attempt that takes it up makes a socket, and the first of that socket's open, its
  close, a disconnect and another attempt is its open (`HintIsUsedExactly`). Otherwise it is lost: when the constructor
  throws, and when the socket closes or is replaced before it opens (`HintCanBeLost`), as in a failed first attempt.
- The setter of the client id accepts an empty one, for which its own branch empties the storage. Assigned to a live
  client it makes the tab forget its last live id, unless a soft clear of the same id is still remembered and no reload
  follows (`EmptyAssignmentLosesLive`). The repository's server never announces an empty id: it sends the address of the
  connection (`services/websocket/server/handler.go:152`).
- The Discord splitter loses exactly the visible bytes that trimming to valid UTF-8 drops at its cuts
  (`ConservesExactly`). A cut inside a rune costs more than the rune: when more than one part is left, the next part is
  empty and all its text is dropped (`BrokenCutEmptiesNext`). `BrokenRune` is the smallest case.
- Unlinking a job or removing an invention takes off the cost that the caller names but drops the entries that have the
  id: the totals stay right exactly when those cost that much (`UnlinkAgreesExactly`,
  `InventionRemovalAgreesExactly`). Removing a market order also drops the ids of the transactions at its location, of which
  one that stays may have the same, as all blank ids are 0: the id set stays right exactly when none has
  (`OrderRemovalAgreesExactly`).
- A material that no setup covers keeps its old quantity (`RecalculationIsRightExactly`).
- A group counts an output job again when it is added again: its count stays that of distinct jobs exactly when no output
  job is added twice or was there before (`AdditionCountsExactly`).
- The required quantity on a shopping list is that of the first material of its kind only, so it is the sum over the kind
  exactly when the later ones require nothing (`RequiredIsSumExactly`).

## Model

| member | source | states |
|---|---|---|
| CanonicalJson.CanonDecidesEquality | services/api/helper/httpcache.go:11-55 | Two decoded JSON values have the same canonical text if and only if they are equal, objects being compared as maps. |
| CanonicalJson.TextDecidesUpToZeros | services/api/helper/httpcache.go:11-55 | With numbers compared as Go compares them: values with the same text are equal, and equal values have the same text if and only if their negative zeros stand in the same places. |
| CanonicalJson.Readable | services/api/helper/httpcache.go:11-55 | Unique readability: from the front of a text, followed by whatever can follow a value, one value can be read in one way only. |
| CanonicalJson.ItemsReadable | services/api/helper/httpcache.go:25-33 | The items of an array are recovered from the text between its brackets, however many there are. |
| CanonicalJson.MembersReadable | services/api/helper/httpcache.go:41-50 | The keys of an object and the value of each are recovered from the text between its braces. |
| CanonicalJson.QuoteReadable | services/api/helper/httpcache.go:22 | A quoted string ends at the first quote that no escape covers and determines the string, for any notion of a printable character. |
| CanonicalJson.EscapePrefixFree | services/api/helper/httpcache.go:22 | No escape of a rune is a proper prefix of another's, so a sequence of escapes is read in one way. |
| CanonicalJson.EscapeExamples | services/api/helper/httpcache.go:22 | Which escapes quoting writes for quotes, backslashes, line feeds, control and other unprintable characters. |
| CanonicalJson.HexReadsBack | services/api/helper/httpcache.go:80 | Hexadecimal digits stand for the number that was written, the highest first. |
| CanonicalJson.FormatFloatInjective | services/api/helper/httpcache.go:24 | Different decimals are written differently. |
| CanonicalJson.SortStrings | services/api/helper/httpcache.go:57-65 | The insertion sort by swaps, in place, ends with the same strings, of which none precedes an earlier one at the first place where they differ. |
| Text.LessMeaning | services/api/helper/httpcache.go:60 | A string is less than another exactly when, at the first place where they differ, it ends or has the smaller character. |
| CanonicalJson.KeysOf | services/api/helper/httpcache.go:35-38 | The loop over the map collects every key once, in whatever order it meets them. |
| CanonicalJson.SortedIsListing | services/api/helper/httpcache.go:35-40 | After sorting, the list of keys depends on the set of keys only, not on the order in which the map was traversed. |
| CanonicalJson.WriteCanonicalJSONValue | services/api/helper/httpcache.go:11-55 | The writer appends to the builder the canonical text that equality is decided by, and nothing else, for every value. |
| CanonicalJson.WriteItems | services/api/helper/httpcache.go:25-33 | The same for an array: brackets, and commas between the items only. |
| CanonicalJson.WriteMembers | services/api/helper/httpcache.go:34-50 | The same for an object: its members in the order of its keys, whatever order the map gave them in. |
| CanonicalJson.TwoMembersText | services/api/helper/httpcache.go:34-50 | An object with two keys is written with the preceding one first, in braces, with a colon after each key and a comma between the members. |
| CanonicalJson.PairText | services/api/helper/httpcache.go:25-33 | An array of two is written in brackets with a comma between its items. |
| CanonicalJson.ScalarTexts | services/api/helper/httpcache.go:13-24 | Null, truth values, a negative decimal and a line feed are written so. |
| CanonicalJson.BuildWeakETag | services/api/helper/httpcache.go:73-81 | The tag is the weak tag of the digest of the canonical text of the payload. |
| CanonicalJson.ETagExample | services/api/helper/httpcache.go:80 | The tag of a digest of one byte. |
| CanonicalJson.ETagDecidesEquality | services/api/helper/httpcache.go:68-82 | With an injective digest two payloads have the same tag if and only if they are equal values. |
| CanonicalJson.HexBytesInjective | services/api/helper/httpcache.go:80 | The hexadecimal form of a digest determines the digest. |
| CanonicalJson.IfNoneMatchSatisfied | services/api/helper/httpcache.go:85-96 | True exactly when some comma-separated candidate, trimmed, is `*` or the tag. |
| Text.TrimMeaning | services/api/helper/httpcache.go:90 | Trimming takes white space off both ends, and leaves none there. |
| CanonicalJson.NotModifiedExactlyWhenHeld | services/api/helper/httpcache.go:68-96 | A client that sends the tags of the payloads it holds is told "not modified" exactly when it holds one equal to the current payload. |
| AcceptEncoding.Negotiate | services/api/middleware/compression.go:94-196 | The scanner ends, never reads out of range, and returns the choice over the elements that splitting at commas and parsing each piece gives; a refused brotli is returned exactly when a wildcard wins, a refused gzip never. |
| AcceptEncoding.ReadElement | services/api/middleware/compression.go:107-151 | From the first character of a name it reads exactly the name and weight of the one piece it stands in, and stays inside that piece. |
| AcceptEncoding.ReadWeight | services/api/middleware/compression.go:126-150 | The weight is that of the text after the semicolon, which `WeightIsRead` and `OtherParameterIsOne` tell. |
| AcceptEncoding.WeightIsRead | services/api/middleware/compression.go:126-150 | `q=` in either case, with blanks before it and after the sign, gives the number that the word after it parses to, and 1 when there is no word or it does not parse. |
| AcceptEncoding.OtherParameterIsOne | services/api/middleware/compression.go:126-150 | Any other parameter gives the weight 1. |
| AcceptEncoding.HeaderIsRead | services/api/middleware/compression.go:94-196 | A header written from names and weights, with any blanks around them, is read as exactly those, in their order, without the ones that have weight 0. |
| AcceptEncoding.WeightsDecide | services/api/middleware/compression.go:162-190 | `gzip;q=x, br;q=y` is answered with gzip and x if y is less than x, and otherwise with brotli and y. |
| AcceptEncoding.SkipSeparators | services/api/middleware/compression.go:99-105 | Skipped blanks and commas add and drop no element. |
| AcceptEncoding.SkipToComma | services/api/middleware/compression.go:192-195 | Whatever is left of a piece is skipped to its very end. |
| AcceptEncoding.Weigh | frontend/deployment/server.js:84-115 | The character-by-character tests decide what comparing the names without case decides. |
| AcceptEncoding.CodingNames | services/api/middleware/compression.go:168-184 | Gzip and brotli are named without regard to case, brotli in two ways. |
| AcceptEncoding.ChoiceIsBest | frontend/deployment/server.js:12-124 | For every list of elements the result of the scan is the best choice: the greatest weight of an element that counts, brotli when it or a first wildcard has it. |
| AcceptEncoding.BestIsUnique | services/api/middleware/compression.go:162-190 | Only one choice is best. |
| AcceptEncoding.NegotiationMeaning | services/api/middleware/compression.go:94-196 | For every header, with and without `*`, the scan returns a choice if and only if it is the best of the header's elements. |
| AcceptEncoding.OrderIsIrrelevant | services/api/middleware/compression.go:94-196 | Headers with the same elements, in any order and any number, get the same choice, unless gzip ties with a wildcard for the greatest weight. |
| AcceptEncoding.TieIsOrderDependent | services/api/middleware/compression.go:162-190 | With such a tie some permutation of the elements gets another choice, so the condition is exact. |
| AcceptEncoding.RefusalIsForgotten | services/api/middleware/compression.go:153-160 | Taking a refusal (weight 0) out of a header never changes the choice. |
| AcceptEncoding.RefusedBrotliIsChosenExactly | services/api/middleware/compression.go:153-166 | A header all of whose brotli elements are refused is answered with brotli if and only if a wildcard is the first of its elements to have the greatest weight. |
| AcceptEncoding.RefusedGzipIsNeverChosen | services/api/middleware/compression.go:153-190 | A header all of whose gzip elements are refused is never answered with gzip. |
| AcceptEncoding.WildcardOverridesRefusal | frontend/deployment/server.js:76-88 | The header `br;q=0, *` names brotli, refuses it wherever it does, and is answered with it. |
| JsString.PassesAreEscapeEach | frontend/deployment/utils.js:4-13 | The six passes over the whole string do what escaping each character by itself does. |
| JsString.SixPassesUnit | frontend/deployment/utils.js:7-12 | No pass touches what an earlier pass has put in. |
| JsString.LiteralReadsBack | frontend/deployment/runtimeConfig.js:11-18 | Between quotes of either kind the result is one literal: its value is the original text and it ends at the closing quote, whatever follows. |
| JsString.EscapeIsInjective | frontend/deployment/utils.js:4-13 | Different texts have different escapes. |
| JsString.PassOrderMatters | frontend/deployment/utils.js:7-8 | With quotes escaped before backslashes a quote in the text would end the literal. |
| ClientIdentity.ClientIdentityModule.SetRealtimeClientID | frontend/src/Realtime/wsClientIdentity.js:34-69 | The new variables, the storage entry and the one event that is dispatched, in every case. |
| ClientIdentity.ClientIdentityModule.ClearRealtimeClientID | frontend/src/Realtime/wsClientIdentity.js:72-79 | The id is remembered once and storage is not touched. |
| ClientIdentity.ClientIdentityModule.ClearRealtimeClientIdentityHard | frontend/src/Realtime/wsClientIdentity.js:82-92 | Nothing is remembered anywhere. |
| ClientIdentity.RunsAreFaithful | frontend/src/Realtime/wsClientIdentity.js:10-92 | Over every run of non-empty assignments, soft and hard clears and reloads, what the variables and storage hold agrees with the last live id since the last hard clear. |
| ClientIdentity.NewIdNamesLastLive | frontend/src/Realtime/wsClientIdentity.js:34-60 | After every such run an event for a new id names the last live id when it differs, and otherwise none. |
| ClientIdentity.ChangesAreAnnounced | frontend/src/Realtime/wsClientIdentity.js:34-92 | Each change of the live id is announced by one event, and nothing else is. |
| ClientIdentity.LiveIsLastAnnounced | frontend/src/Realtime/wsClientIdentity.js:12-92 | Over every run without a reload the live id is the one that the last event announced, whatever it was. |
| ClientIdentity.LockFollowsClient | frontend/src/Realtime/wsClientIdentity.js:12-17 | Rebinding a lock by the events makes it belong to the live client id whenever there is one, through drops, replacements and reloads. |
| ClientIdentity.HardClearForgets | frontend/src/Realtime/wsClientIdentity.js:82-92 | An id that is forgotten and not given again is never named as the previous one, in any run. |
| ClientIdentity.NoRebindAcrossLogout | frontend/src/Realtime/wsClientIdentity.js:81-92 | After a hard clear no run of events moves a lock of an earlier id. |
| ClientIdentity.EmptyAssignmentLosesLive | frontend/src/Realtime/wsClientIdentity.js:34-68 | After an empty assignment to a live client and any run of soft clears and reloads the next new id is paired with the last live one if and only if a soft clear of that id is still remembered and no reload came in between. |
| ClientIdentity.EmptyAssignmentExample | frontend/src/Realtime/wsClientIdentity.js:34-68 | A concrete run in which the pairing is lost. |
| LockStateBatch.PendingBatches.Request | frontend/src/Realtime/realtimeClient.js:468-505 | The request is pending with an armed timer, or settled at once when the send fails. |
| LockStateBatch.PendingBatches.OnAck | frontend/src/Realtime/realtimeClient.js:327-347 | A pending request is settled, its timer disarmed; any other acknowledgement changes nothing. |
| LockStateBatch.PendingBatches.OnTimeout | frontend/src/Realtime/realtimeClient.js:470-475 | The request of the timer is settled if it is pending. |
| LockStateBatch.PendingBatches.RejectAll | frontend/src/Realtime/realtimeClient.js:54-60 | The loop settles each pending request once with the same reason, in whatever order, and leaves no request and no timer of theirs. |
| LockStateBatch.RequestKeepsInv | frontend/src/Realtime/realtimeClient.js:468-505 | A request under a new id keeps it that pending and settled requests exclude each other, that pending ones and armed timers match one to one, and that what is settled was settled once. |
| LockStateBatch.AckKeepsInv | frontend/src/Realtime/realtimeClient.js:327-347 | So does every acknowledgement, also of an unknown or empty id. |
| LockStateBatch.TimeoutKeepsInv | frontend/src/Realtime/realtimeClient.js:470-475 | So does every timeout, and its request is always still pending. |
| LockStateBatch.RejectAllKeepsInv | frontend/src/Realtime/realtimeClient.js:54-60 | So does rejecting all, after which no timer is armed at all. |
| Realtime.RealtimeClient.ConnectRealtime | frontend/src/Realtime/realtimeClient.js:157-207 | The whole new state of module, browser and identity: kept when an open socket of the account exists, replaced otherwise, and a reconnect armed when construction fails. |
| Realtime.RealtimeClient.ScheduleAnotherConnect | frontend/src/Realtime/realtimeClient.js:133-149 | The only timer that is armed afterwards is the new one, with the backoff delay, unless the close was manual or nothing is wanted. |
| Realtime.RealtimeClient.ClearAllTimers | frontend/src/Realtime/realtimeClient.js:122-131 | Both timers are disarmed in the browser and forgotten. |
| Realtime.RealtimeClient.DisconnectRealtime | frontend/src/Realtime/realtimeClient.js:376-398 | The whole new state: requests rejected, a waiting handler answered, identity cleared, timers disarmed, socket closing. |
| Realtime.RealtimeClient.OnOpen | frontend/src/Realtime/realtimeClient.js:209-245 | The open listener up to its wait, or to its end when there is none, and nothing for a socket that is not current. |
| Realtime.RealtimeClient.AfterWait | frontend/src/Realtime/realtimeClient.js:237-285 | The rest of the listener after an answer or 400 ms. |
| Realtime.RealtimeClient.StartSession | frontend/src/Realtime/realtimeClient.js:245-284 | Which syncs are asked for, and the ping interval, only if the socket is still current. |
| Realtime.RealtimeClient.OnResumeAck | frontend/src/Realtime/realtimeClient.js:297-308 | The waiting handler gets the answer once. |
| Realtime.RealtimeClient.OnClose | frontend/src/Realtime/realtimeClient.js:354-369 | The whole new state after a close, with a reconnect when the account is still wanted; nothing for a socket that is not current. |
| Realtime.RealtimeClient.OnReconnectTimer | frontend/src/Realtime/realtimeClient.js:145-148 | A timer that goes off connects to the account that is wanted then. |
| Realtime.RealtimeClient.RequestDocumentLockLockStateBatch | frontend/src/Realtime/realtimeClient.js:456-505 | A request is made exactly when the current socket is open. |
| Realtime.StepKeepsInv | frontend/src/Realtime/realtimeClient.js:122-398 | Every event that can happen keeps the invariant on sockets, timers, handlers, requests and identity. |
| Realtime.NeverStrandedNeverDoubled | frontend/src/Realtime/realtimeClient.js:122-149 | Over every run a wanted connection has a socket or one armed reconnect timer, never both and never neither; an unwanted one has none, and no other timeout is armed. |
| Realtime.OnePing | frontend/src/Realtime/realtimeClient.js:276-284 | Over every run at most one ping interval is alive; it belongs to the current socket, and an open current socket whose handler is through has it. |
| Realtime.ClientIdNeedsSocket | frontend/src/Realtime/realtimeClient.js:186-194 | Over every run a client id is live only while there is a current socket. |
| Realtime.IdentityFollowsSocket | frontend/src/Realtime/realtimeClient.js:186-398 | Over every run the client id has gone through exactly a soft clear for each drop or close of the current socket, a hard clear for each disconnect and an assignment for each announcement over the current socket. |
| Realtime.LocksFollowReconnects | frontend/src/Realtime/realtimeClient.js:186-398 | Over every run without a disconnect in between, a lock of the live client belongs to whichever client is live later. |
| Realtime.DisconnectForgets | frontend/src/Realtime/realtimeClient.js:376-398 | A disconnect leaves no client id behind, and the waiting handler goes on without a skip. |
| Realtime.RequestsSettleOnce | frontend/src/Realtime/realtimeClient.js:52-60 | Over every run a request is settled at most once, is pending if and only if a timer of its own is armed, and is never both pending and settled. |
| Realtime.RequestsAreNotLost | frontend/src/Realtime/realtimeClient.js:456-505 | Over every run a request made on an open socket is from then on pending or settled once. |
| Realtime.FirstCauseSettles | frontend/src/Realtime/realtimeClient.js:327-505 | Over every run a request is settled by the first of its acknowledgement, its timeout, the close of the current socket and a disconnect, with the outcome that belongs to it, or at once when it cannot be sent; until then it is pending. |
| Realtime.NothingPendingOffline | frontend/src/Realtime/realtimeClient.js:354-377 | Closing the current socket and disconnecting settle every pending request and leave no timer. |
| Realtime.QuietAfterDisconnect | frontend/src/Realtime/realtimeClient.js:376-398 | Over every run, from a disconnect until connect is called, no socket is made, no timer runs and no client id is live, whatever old sockets do. |
| Realtime.GivenUpSocketsClose | frontend/src/Realtime/realtimeClient.js:186-194 | Over every run each socket but the current one is closing or closed, so at most one is connecting or open. |
| Realtime.AllSocketsCloseAfterDisconnect | frontend/src/Realtime/realtimeClient.js:390-397 | Over every run, from a disconnect until connect is called, no socket is connecting or open. |
| Realtime.StaleEventsAreIgnored | frontend/src/Realtime/realtimeClient.js:196-371 | Events of a socket that is not current change no variable, timer, request, identity or sync. |
| Realtime.StaleHandlerOnlyForgets | frontend/src/Realtime/realtimeClient.js:240-245 | The one exception: a waiting handler of a replaced socket, when it goes on, forgets whichever handler is to be answered, and changes the variables exactly when there is one. |
| Realtime.AnswerArrivesExactly | frontend/src/Realtime/realtimeClient.js:229-245 | Over every run the first acknowledgement for a current socket whose handler waits reaches that handler if and only if no handler of a replaced socket has gone on since the socket opened. |
| Realtime.SyncsDespiteAnswerExactly | frontend/src/Realtime/realtimeClient.js:237-259 | Over every run a reopened session that the server allows to skip the baseline sync asks for it if and only if such a handler went on before the acknowledgement. |
| Realtime.AnswerCanBeMissed | frontend/src/Realtime/realtimeClient.js:100-105 | A run of fourteen events, from the start, in which that happens. |
| Realtime.NoSessionUntilOpen | frontend/src/Realtime/realtimeClient.js:212-213 | Over every run no session counts as opened between a disconnect and the first open of a current socket. |
| Realtime.FirstOpenAlwaysSyncs | frontend/src/Realtime/realtimeClient.js:247-259 | Over every run the first current socket to open after a disconnect asks for the baseline sync if it is current when its handler ends, whatever the answer to its session_resume. |
| Realtime.SessionIsLastOpened | frontend/src/Realtime/realtimeClient.js:82-86 | Over every run the remembered session is that of the last current socket that opened since the last disconnect. |
| Realtime.SyncsExactlyAtOpen | frontend/src/Realtime/realtimeClient.js:247-274 | Over every run a current socket that opens without a handoff asks for the baseline sync if and only if its session is not the one opened before, and for planner jobs if and only if there was another. |
| Realtime.SyncsExactlyAfterWait | frontend/src/Realtime/realtimeClient.js:221-274 | Over every run, after a handoff was asked for, the same session is synced again if and only if no answer in time allowed to skip it. |
| Realtime.RefetchComesWithSync | frontend/src/Realtime/realtimeClient.js:252-274 | Over every run a socket for which planner jobs are fetched again also gets the baseline sync. |
| Realtime.HintIsUsedOnce | frontend/src/Realtime/realtimeClient.js:177-207 | A connection takes up the stashed hint: its socket gets it if it is for the account, and it is gone also when construction fails. |
| Realtime.HintIsLastStash | frontend/src/Realtime/realtimeClient.js:100-105 | Over every run the hint is that of the last stash with a logged-in account and a live client id, and none once an attempt to connect has come after it. |
| Realtime.HintIsCarriedExactly | frontend/src/Realtime/realtimeClient.js:177-207 | Over every run the next socket that is made carries a hint that an attempt took up if and only if that attempt made it; otherwise it carries none. |
| Realtime.HintIsUsedExactly | frontend/src/Realtime/realtimeClient.js:177-226 | Over every run, until something else is stashed, a hint that an attempt took up is sent in a session_resume if and only if the attempt made a socket and the first of its open, its close, a disconnect and another attempt is its open; nothing else is sent. |
| Realtime.WaitsExactlyWhenSent | frontend/src/Realtime/realtimeClient.js:216-236 | The open handler of the current socket waits for an answer if and only if it sent a session_resume and the send did not fail. |
| Realtime.HintCanBeLost | frontend/src/Realtime/realtimeClient.js:163-200 | A run of eight events in which the socket with the hint is replaced before it opens, and the next one opens without sending any. |
| Realtime.BackoffOverRuns | frontend/src/Realtime/realtimeClient.js:133-149 | Over every run an armed reconnect has the delay of its number, counted from the events since the last open of a current socket or disconnect. |
| Realtime.DelayDoubles | frontend/src/Realtime/realtimeClient.js:139-142 | The backoff starts at 750 ms and doubles with each attempt up to 20 s. |
| Realtime.ReconnectBeforeHandoffExpires | frontend/src/Realtime/realtimeClient.js:69-78 | Over every run an armed reconnect goes off before the server's handoff time is over. |
| Scheduler.TaskScheduler.ScheduleOneTimeJob | services/core/scheduler/handler.go:154-248 | The error cases, and the timer, tracking entry and record of an accepted job with its adjusted time; nothing changes on an error. |
| Scheduler.TaskScheduler.RemoveOneTimeJob | services/core/scheduler/handler.go:251-271 | Timer, entry and record of a job go together. |
| Scheduler.TaskScheduler.RestoreOneTimeJobs | services/core/scheduler/handler.go:299-391 | The restore loop with all its reasons to discard a record, for every list of keys that the scan returned. |
| Scheduler.TaskScheduler.ProcessScheduleRequest | services/core/scheduler/handler.go:418-516 | Which requests become jobs, under their own id or a generated one; a request that becomes one is acknowledged, and it is sent back exactly when it does not parse, or is timely and handled but not requestable. |
| Scheduler.DueInTime | services/core/scheduler/handler.go:166-177 | A job is due at its own time if that is still ahead, otherwise within five seconds and not before now. |
| Scheduler.PlanningAgrees | services/core/scheduler/handler.go:217-243 | Scheduling keeps timers, entries and records in agreement if and only if the job id is not live. |
| Scheduler.RepeatedIdOrphansTimer | services/core/scheduler/handler.go:218-228 | With a live id the earlier timer survives even the removal of the job. |
| Scheduler.RemovalAgrees | services/core/scheduler/handler.go:251-271 | Removal keeps the agreement and takes away that job's timer and no other. |
| Scheduler.RestoreIsExact | services/core/scheduler/handler.go:299-391 | After a crash a restore brings back exactly the records that are still in the future, handled and requestable, each with one timer that has not fired, and deletes the others. |
| Scheduler.RestoreAgreesExactly | services/core/scheduler/handler.go:309-375 | The stores agree after a restore if and only if the scan returned no surviving key twice. |
| Scheduler.RestoreAddsNothing | services/core/scheduler/handler.go:328-386 | However far a restore gets before a crash, it adds no record, brings none forward, keeps its task type and data, and leaves no past record changed. |
| Scheduler.StepKeepsInv | services/core/scheduler/handler.go:154-391 | Every request, firing, removal, crash, restore, and restore cut short by a crash keeps the invariant on stores and history. |
| Scheduler.StoresAlwaysAgree | services/core/scheduler/handler.go:154-271 | Over every run with each id requested once, timers, tracking map and records of a running scheduler name the same jobs, with one timer each. |
| Scheduler.HandlersRunOnce | services/core/scheduler/handler.go:185-215 | Over every run whose scans repeat no surviving key no handler is called twice for one job, also when the crash falls between handler and removal; an accepted job has run, is recorded, or was dropped by a restart. |
| Scheduler.RunsTwiceExactly | services/core/scheduler/handler.go:309-375 | After any such run, a restart with any scan of the stored keys lets events follow that call a handler twice for one job if and only if the scan lists a surviving key twice. |
| Scheduler.TwoTimers | services/core/scheduler/handler.go:328-375 | A surviving key that a scan lists twice, anywhere, gets two timers, and neither has fired. |
| Scheduler.NeverEarly | services/core/scheduler/handler.go:166-243 | Over every run a handler is called with the task type and data that its job was accepted with, and not before the time that it was accepted for, however often the job was restored in between. |
| Scheduler.AcceptedIsNotRedelivered | services/core/scheduler/handler.go:486-513 | Over every run in which requests that were sent back may come again, none comes under the id of a job that was accepted. |
| Scheduler.RestartKeepsFutureJobs | services/core/scheduler/handler.go:345-380 | Over every run a restart keeps exactly the records that are past now, handled and requestable, with their task types and data, and none of a job that has run. |
| DocQueues.Server.GetOrCreateIncomingQueue | services/websocket/server/queue.go:13-32 | The queue of the document, new or not, is handed out with its time of last use set; the table stays one to one with the open queues. |
| DocQueues.Server.EnqueueIncomingEvent | services/websocket/server/enqueue.go:12-32 | Without interference an event is accepted exactly when the buffer has room, and then stands last. |
| DocQueues.Server.DrainIncomingQueue | services/websocket/server/processor.go:20-50 | Without interference a drain returns the buffer in order, and does nothing when there is no queue or its mutex is taken. |
| DocQueues.Server.CleanupIncomingQueues | services/websocket/server/cleanup.go:36-56 | Without interference the sweep, in whatever order it meets the queues, leaves each as it is that was used in time, is locked or holds events, and closes and unmaps the others. |
| DocQueues.SweepIsVisits | services/websocket/server/cleanup.go:36-56 | The sweep is what the steps of the interleaved cleaner do, queue by queue in any order, with no other step in between. |
| DocQueues.Server.CleanupActiveSubscriptions | services/websocket/server/cleanup.go:62-98 | Exactly the fresh subscriptions of existing clients are left, and no client without any. |
| DocQueues.StepKeepsInv | services/websocket/server/cleanup.go:30-56 | With timely senders every step of every goroutine keeps the invariant: open queues and table match, nothing accepted is lost, holders of a closed queue are out of time. |
| DocQueues.NoPanic | services/websocket/server/enqueue.go:16-17 | Under the invariant no send hits a closed channel. |
| DocQueues.AcceptedEventsSurvive | services/websocket/server/enqueue.go:16-24 | In every interleaving with timely senders an accepted event waits in an open, mapped queue until it is taken, and events of a document are taken in the order of acceptance. |
| DocQueues.BuffersFit | services/websocket/server/queue.go:24-27 | In every interleaving no buffer holds more than the capacity. |
| DocQueues.PanicExactly | services/websocket/server/cleanup.go:39-46 | Some interleaving sends on a closed channel if and only if the send bound and the stamp bound together exceed the idle timeout. |
| DocQueues.LossExactly | services/websocket/server/cleanup.go:39-46 | Under the same condition, and only then, some interleaving without a panic leaves an accepted event in a closed queue that is not mapped and that no worker has looked up. |
| DocQueues.AbandonedForGood | services/websocket/server/processor.go:21-47 | In every interleaving what lies in such a queue stays there: no worker ever takes it. |
| DocQueues.OneAtATime | services/websocket/server/processor.go:30-34 | In every interleaving, whatever the delays, a queue's mutex has one holder: no two workers drain it, and the cleaner judges or closes none that is being drained. |
| DocQueues.SpinsForever | services/websocket/server/processor.go:36-47 | In every interleaving a worker that drains a closed queue never finishes and never gives the mutex back. |
| DocQueues.DrainsOpenToTheEnd | services/websocket/server/processor.go:30-47 | In every interleaving a worker that has locked an open queue has it open until its drain ends. |
| DocQueues.CaughtExactly | services/websocket/server/processor.go:21-34 | In every interleaving, whatever the delays, a worker that takes the mutex is caught in a closed queue if and only if the table no longer names the queue it looked up. |
| DocQueues.WorkerCanBeCaught | services/websocket/server/processor.go:21-34 | Whatever the time bounds, some interleaving catches a worker. |
| TaskSubscriber.TaskTypeMeaning | services/worker/task_subscriber.go:92-104 | The task type of a subject with the `task.` prefix is the text after a dot that has no dot itself, and no other text; any other subject has none. |
| TaskSubscriber.Delivery.ProcessMessage | services/worker/task_subscriber.go:35-87 | Each message gets one verdict: sent back exactly when it has a task type and the enqueue fails, acknowledged otherwise; it is enqueued at most once, under its task type. |
| TaskSubscriber.StepKeepsInv | services/worker/task_subscriber.go:177-197 | Every step keeps semaphore and wait group equal to what the goroutines and the caller hold, and verdicts equal to the processed messages. |
| TaskSubscriber.BoundedConcurrency | services/worker/task_subscriber.go:177-194 | In every interleaving at most 20 processors run. |
| TaskSubscriber.ReturnMeansProcessed | services/worker/task_subscriber.go:196-198 | In every interleaving, when the call returns each message was processed and answered exactly once, with a nack exactly when it has a task type and its enqueue failed. |
| TaskSubscriber.NoDeadlock | services/worker/task_subscriber.go:169-198 | In every interleaving some step is possible until the call returns. |
| TaskSubscriber.EveryRunIsFinite | services/worker/task_subscriber.go:169-198 | Every interleaving ends after seven steps for each message and two more. |
| DiscordText.SplitContentForDiscord | services/api/v1endpoints/feedback.go:404-442 | The loop ends for every text and every length from 1 and returns the parts that the theorems below are about. |
| DiscordText.FindCut | services/api/v1endpoints/feedback.go:418-427 | The search loop never reads out of range and returns the cut that `CutMeaning` describes. |
| DiscordText.CutMeaning | services/api/v1endpoints/feedback.go:418-427 | A part ends after the last word boundary within a hundred bytes of the limit, or at the limit when there is none. |
| DiscordText.TrimToValid | services/api/v1endpoints/feedback.go:432-435 | The loop returns the prefix that `ValidPrefixIsLongest` describes. |
| DiscordText.ValidPrefixIsLongest | services/api/v1endpoints/feedback.go:432-435 | No longer prefix of the part is valid UTF-8. |
| DiscordText.SplitFits | services/api/v1endpoints/feedback.go:401-442 | Every part of every text has at most `maxLength` bytes, although a cut may take one more. |
| DiscordText.PartsAreTrimmed | services/api/v1endpoints/feedback.go:434-439 | No part of a text that is cut has white space at its ends. |
| DiscordText.CleanSplitConserves | services/api/v1endpoints/feedback.go:412-439 | If no cut falls inside a rune, the parts are valid UTF-8 and have exactly the visible characters, in order. |
| DiscordText.ConservesExactly | services/api/v1endpoints/feedback.go:404-442 | For every piece cut out of a valid text, wherever it was cut, and every length from 1: the parts have exactly the visible characters if and only if nothing but white space is dropped at the cuts, and otherwise lack as many bytes as are dropped. |
| DiscordText.NarrowConservesExactly | services/api/v1endpoints/feedback.go:429-438 | For valid texts whose white space takes single bytes the condition is that no cut falls inside a rune. |
| DiscordText.HeadlessPartIsEmpty | services/api/v1endpoints/feedback.go:429-437 | What does not begin with a whole rune loses its whole first part. |
| DiscordText.BrokenCutEmptiesNext | services/api/v1endpoints/feedback.go:429-438 | After a cut inside a rune of valid text with more than one part left, the next part is empty and all that it should hold is dropped. |
| DiscordText.AsciiIsClean | services/api/v1endpoints/feedback.go:404-442 | ASCII text is never cut inside a rune. |
| DiscordText.BrokenRune | services/api/v1endpoints/feedback.go:432-438 | For every visible two-byte rune a text and a length with a part that is not valid UTF-8. |
| DiscordText.EncodingsAreValid | services/api/v1endpoints/feedback.go:433 | The encoding of every text is a valid string. |
| DiscordText.WidthIsLeast | services/api/v1endpoints/feedback.go:432-435 | A rune takes as few bytes as UTF-8 has room for it in. |
| DiscordText.ValidStringsAreEncodings | services/api/v1endpoints/feedback.go:433 | Every valid string is the encoding of a text. |
| DiscordText.SanitizeForDiscord | services/api/v1endpoints/feedback.go:328-339 | The loop keeps, in order, what is neither a control character (but for newline and tab) nor DEL. |
| DiscordText.AsciiMessageArrives | services/api/v1endpoints/feedback.go:328-442 | Sanitizing and splitting an ASCII message together: parts that fit, are valid, and have exactly its allowed visible characters. |
| TransactionIds.StableStringHash | frontend/src/Classes/job.js:1358-1367 | The loop computes the FNV-1a state of the text, adjusted so that it is not 0. |
| TransactionIds.XorBit | frontend/src/Classes/job.js:1362 | Each bit of the exclusive or is the sum without carry of the two bits in its place. |
| TransactionIds.TestVectors | frontend/src/Classes/job.js:1360-1366 | The FNV-1a hashes of the empty text and of the character NUL. |
| TransactionIds.UnitsOfOne | frontend/src/Classes/job.js:1362 | A character is one code unit, or a high and a low surrogate that hold its bits. |
| TransactionIds.XorInjective | frontend/src/Classes/job.js:1362 | Exclusive or with the same unit loses nothing. |
| TransactionIds.PrimeIsInvertible | frontend/src/Classes/job.js:1363 | Multiplication by the prime modulo 2^32 loses nothing. |
| TransactionIds.StateInjective | frontend/src/Classes/job.js:1361-1364 | Different states stay different through every further text. |
| TransactionIds.OneUnitChangesState | frontend/src/Classes/job.js:1358-1365 | Texts that differ in exactly one code unit have different states. |
| TransactionIds.OneUnitCollision | frontend/src/Classes/job.js:1365-1366 | They have the same hash if and only if one state is 0 and the other 1. |
| TransactionIds.TruncMeaning | frontend/src/Classes/job.js:1341 | Truncation goes to the next whole number towards 0. |
| TransactionIds.NumbersAreTruncated | frontend/src/Classes/job.js:1339-1355 | A finite number, given or read from text, is truncated; blank text, and what is neither a finite number nor text, gets 0. |
| TransactionIds.NormalizingTwice | frontend/src/Classes/job.js:1339-1356 | A normalized id is not changed by normalizing it again. |
| TransactionIds.HashedIdsAreNegative | frontend/src/Classes/job.js:1344-1352 | Text that is neither blank nor a number gets an id below 0 and above -2^32. |
| PlannerJob.Job.LinkESIJob | frontend/src/Classes/job.js:452-466 | The whole new ledger; a NaN or negative total is recomputed before the new cost is added. |
| PlannerJob.Job.UnlinkESIJob | frontend/src/Classes/job.js:488-504 | The whole new ledger, with the same repair before the cost is taken off. |
| PlannerJob.Job.AddExtrasCost | frontend/src/Classes/job.js:521-531 | The row is last, with its category as text, and the total is the sum over all rows. |
| PlannerJob.Job.RemoveExtrasCost | frontend/src/Classes/job.js:539-548 | All rows with the id go, and the total is the sum over the rest. |
| PlannerJob.Job.AddInventionCost | frontend/src/Classes/job.js:556-561 | The entry and both totals that it belongs to. |
| PlannerJob.Job.RemoveInventionCost | frontend/src/Classes/job.js:570-576 | All entries with the id go; both totals lose the cost that the caller names. |
| PlannerJob.Job.AddPurchaseCostToMaterial | frontend/src/Classes/job.js:924-943 | The first material of the type gets the purchase, its count, cost and completion; no other changes, and an unknown type changes nothing. |
| PlannerJob.Job.TotalRawMaterialPurchaseCost | frontend/src/Classes/job.js:955-964 | The nested reductions add up what was spent on purchases that are not imports from child jobs. |
| PlannerJob.Job.AddTransaction | frontend/src/Classes/job.js:978-1004 | Normalized ids and the order are filled in, ids are added, and the list is sorted; with no market order and something to add the source fails and the job is as before. |
| PlannerJob.Job.RemoveTransaction | frontend/src/Classes/job.js:1016-1022 | Transactions and id go together. |
| PlannerJob.Job.AddMarketOrder | frontend/src/Classes/job.js:1036-1042 | Order, broker's fee and id are added together. |
| PlannerJob.Job.RemoveMarketOrder | frontend/src/Classes/job.js:1057-1079 | The order goes with its fee and id, and with it all transactions at its location and their ids. |
| PlannerJob.NewestFirstSorts | frontend/src/Classes/job.js:997-1003 | The sort keeps the same transactions, newest first, and those of one date in their old order. |
| PlannerJob.RepairRestores | frontend/src/Classes/job.js:454-462 | A NaN or negative total is right after the next link or unlink. |
| PlannerJob.UnlinkAgreesExactly | frontend/src/Classes/job.js:488-504 | The total is right after unlinking if and only if the entries with that id cost what the caller names. |
| PlannerJob.InventionRemovalAgreesExactly | frontend/src/Classes/job.js:570-576 | The same for inventions, for their own total and for the purchase total that they are part of. |
| PlannerJob.OrderRemovalAgreesExactly | frontend/src/Classes/job.js:1057-1079 | After removing an order the id set is still that of the stored transactions if and only if no transaction that goes with the order shares its id with one that stays. |
| PlannerJob.RawAndImportedMakeTotal | frontend/src/Classes/job.js:924-964 | In a balanced job the purchase total is inventions, raw purchases and imports from child jobs together. |
| PlannerJob.StepKeepsBalance | frontend/src/Classes/job.js:452-1079 | Every operation, with new ids on adding and stored entries on removing, keeps every cached total and id set right. |
| PlannerJob.RunsStayBalanced | frontend/src/Classes/job.js:452-1079 | Over every run of these operations totals are the sums of their entries, per material too, id sets are the ids stored, and transactions are newest first. |
| JobSetups.Job.RecalculateTotalQuantityProduced | frontend/src/Classes/job.js:1147-1154 | The total is the sum over all setups. |
| JobSetups.Job.RecalculateTotalMaterialQuantities | frontend/src/Classes/job.js:1162-1180 | Each material that some setup covers gets the sum over the setups; the others keep theirs. |
| JobSetups.Job.AttachNewSetupToJob | frontend/src/Classes/job.js:1192-1197 | The setup is added, or replaces the one with its id in place, and is the active one. |
| JobSetups.Job.DeleteActiveSetup | frontend/src/Classes/job.js:1224-1233 | A single setup stays; otherwise the active one goes and the last one left is active. |
| JobSetups.Job.RecalculateSelectedSetup | frontend/src/Classes/job.js:1235-1258 | A known setup is recalculated in place; an unknown one changes nothing. |
| JobSetups.ProducedIsRunsTimes | frontend/src/Classes/job.js:1148-1152 | The total is the items of one run times all runs of all setups. |
| JobSetups.AttachAdds | frontend/src/Classes/job.js:1147-1197 | A new setup is last, adds its runs times the items of one run to the total, and adds what it needs to every material. |
| JobSetups.DeleteUndoesAttach | frontend/src/Classes/job.js:1192-1233 | Deleting a setup that has just been attached gives the plan back, with the last of the other setups active. |
| JobSetups.RecalculationIsRightExactly | frontend/src/Classes/job.js:1174-1179 | A material has the quantity the setups need after a recalculation if and only if a setup covers it or it had none before. |
| JobSetups.StepKeepsConsistent | frontend/src/Classes/job.js:1192-1258 | Each operation with covering setups keeps quantities right, a setup in the job and the active one among them. |
| JobSetups.RunsStayConsistent | frontend/src/Classes/job.js:1147-1258 | The same over every run. |
| JobGroup.Group.BuildNewGroupData | frontend/src/Classes/group.js:219-259 | The loops give the union and the count over all jobs. |
| JobGroup.OwnIdsMeaning | frontend/src/Classes/group.js:219-259 | The job ids and type ids are those of the jobs. |
| JobGroup.MaterialIdsMeaning | frontend/src/Classes/group.js:219-259 | The material ids are what the jobs make and need. |
| JobGroup.LinkedJobsMeaning | frontend/src/Classes/group.js:219-259 | The linked job ids are those that some job has; `LinkedOrdersMeaning` and `LinkedTransMeaning` say the same for the others. |
| JobGroup.Group.UpdateGroupData | frontend/src/Classes/group.js:661-685 | The group holds what is built from the given jobs, whatever it held before. |
| JobGroup.Group.AddJobsToGroup | frontend/src/Classes/group.js:697-721 | What is built from the new jobs is merged into what the group holds. |
| JobGroup.Group.RemoveJobsFromGroup | frontend/src/Classes/group.js:735-767 | The group holds what is built from the jobs of the array that are its own and not removed. |
| JobGroup.BuildIgnoresOrder | frontend/src/Classes/group.js:219-259 | Any permutation of the jobs gives the same data. |
| JobGroup.CountIsRightExactly | frontend/src/Classes/group.js:234-237 | The output count is the number of distinct output jobs if and only if none is listed twice; otherwise it is more. |
| JobGroup.AdditionCountsExactly | frontend/src/Classes/group.js:697-714 | After an addition a right count is still right if and only if no output job is added twice or was there before. |
| JobGroup.RemovalAgrees | frontend/src/Classes/group.js:735-767 | Given all jobs of the group, in any order and among others, removal leaves what is built from the remaining jobs. |
| JobGroup.RunsMatchScratch | frontend/src/Classes/group.js:661-767 | Over every run of updates, additions and removals the sets and the count equal those built from scratch over the list of current jobs, in which a job that is added again stands again. |
| ShoppingLists.ShoppingList.BuildShoppingList | frontend/src/Classes/shoppingList.js:237-281 | The list that listing every material in turn and sorting by name gives, about which the theorems below speak. |
| ShoppingLists.ListMeaning | frontend/src/Classes/shoppingList.js:237-281 | An item for a type and child state is on the list if and only if something of it is to be bought; there is one, with the sum of exactly its shortfalls, and the list is sorted by name. |
| ShoppingLists.ListConserves | frontend/src/Classes/shoppingList.js:237-281 | The quantities on the list add up to all shortfalls. |
| ShoppingLists.RequiredIsFirst | frontend/src/Classes/shoppingList.js:237-266 | Name, volume and required quantity of an item are those of the first listed material of its kind; it starts hidden, copied and with nothing in the assets. |
| ShoppingLists.RequiredIsSumExactly | frontend/src/Classes/shoppingList.js:237-266 | It is the sum over the kind if and only if the later materials require nothing, which with no negative purchases means that there is only one. |
| ShoppingLists.ByNameSorts | frontend/src/Classes/shoppingList.js:270-278 | The sort by name is a permutation in which no name precedes an earlier one at the first place where they differ. |
| ShoppingLists.ShoppingList.CalculateVisibleItems | frontend/src/Classes/shoppingList.js:85-104 | An item is shown exactly when something is still needed and it is not a hidden intermediate; nothing else changes. |
| ShoppingLists.ShoppingList.CalculateTotalVolume | frontend/src/Classes/shoppingList.js:65-72 | The volume of what is still needed over the items that are shown and included. |
| ShoppingLists.VolumeOfOneMore | frontend/src/Classes/shoppingList.js:65-72 | One item more adds the volume of what is missing in the assets, if it is shown and copied, and nothing otherwise. |

## Left out

- JSON encoding and decoding themselves, and their errors (httpcache.go:69-76); the branch for types that decoding never yields (httpcache.go:51-53).
- Numbers are named by their shortest decimal text, so a number that JSON writes in another way is the same value here.
- `strconv.IsPrint`, SHA-256 and the number parsers are parameters. The theorem on tags assumes an injective digest. A Go weight of `NaN` acts like weight 0, and one of `Inf` is not covered.
- Names in `Accept-Encoding` are trimmed as Go trims them; JavaScript's trimming differs on U+0085 and U+FEFF.
- The brotli and gzip writers, and the rest of both HTTP servers.
- Escapes with hexadecimal digits, Unicode escapes, digits and line continuations in the decoder of string literals: the escaper writes none.
- The server's side of document locks and of the session handoff. The fold of the events over a lock's owner stands for the rebind that the hooks ask the server for.
- Session storage is taken to exist. A read of the store's session id is a parameter of each connect.
- Sending pings, subscribing, document-lock commands and the dispatch of other messages, none of which changes connection state.
- Realtime.RequestsSettleOnce: a request id is taken to be new each time, as `crypto.randomUUID` gives it.
- Redis errors, failures of gocron to create a job, failing id generation, cron jobs, and tasks that outlast the period of their timer. A crash inside one scheduling call, between its timer and its record, is left out too.
- Scheduler.HandlersRunOnce: for runs in which each job id is requested once and a scan repeats no surviving key; a scan that repeats one is `RunsTwiceExactly`, and a repeated id `PlanningAgrees`.
- Scheduler.NeverEarly: for the same runs.
- Scheduler.StoresAlwaysAgree: for runs in which each job id is requested once and a scan repeats no surviving key; what happens otherwise is `PlanningAgrees`, `RepeatedIdOrphansTimer` and `RestoreAgreesExactly`.
- A restored timer counts its interval from the moment of scheduling; gocron counts it from its own start, shortly after.
- Signals to the coordinator, its fallback scan and its read locks, and what a worker does with the events it has drained.
- A queue's time of last use is read and written in single steps, although senders write it without a lock.
- Panics of processors, retries of acknowledgements and the fetch loop around a batch. A processor is taken to return.
- Feedback checks and metadata formatting; content that is not valid UTF-8; a length of 0, for which the source may not end.
- Missing arguments, for which the methods of jobs and groups return at once; setters, projections to documents, refreshes of linked jobs and orders, and constructors that normalize stored data.
- Costs are reals: rounding of floating point is left out, and so is NaN, except for the total that a job repairs.
- Transactions have dates that parse.
- Setups whose ids look like integers, which JavaScript objects list before all others.
- Id conversions when a group reads stored data, its names and status, and creating groups.
- Materials without an entry in the child job table, for which building the shopping list fails. Names are compared by code point, where JavaScript compares UTF-16 units.
- The market value of a shopping list, its text for the clipboard and the import of assets.
- React components, routes, telemetry and all database access.
