# Verified model of the token gateway

The gateway relays LLM calls to upstream vendors, translates between three wire protocols and bills
each call against a two-level quota ledger. This project models that behaviour in Dafny and proves
properties of it. Nothing of the gateway is executed here. To check everything:
`dafny verify dfyconfig.toml`.

## How it is laid out

| part | files |
|---|---|
| words and money | `Words` (int64 and 64-bit words), `Cost`, `UsageRow` |
| streaming | `Chunks`, `Gate`; `Responses*`, `Assembly`; `Anthropic*`; `Sse`, `Pipes` |
| ledger | `Ledger` (transactions as functions), `LedgerStore` (the same statement by statement), `LedgerBooks` (sums and invariants), `LedgerRuns` (all runs), `LedgerEffects` (limits, status and claims over runs), `LedgerMonths` (months by time stamp), `Admission` (overshoot) |
| billing | `Billing` (month chain), `BillDetail`, `Calendar`, `LastOfMarch` (a run) |
| scheduling | `Selector`, `Candidates`, `Relay` (one attempt), `RelayLoop` (the loop and its history), `Cooldown`, `Lease` |
| operations | `Alerts`, `Throttle`, `AlertTiming` (the two together), `UsageArchive`, `Health`, `Routability` |

Code that changes things step by step is a class or a method with loops, proved equal to a function on
values; the properties are then proved of that function and of runs of steps. A table is a map or a
sequence, one SQL transaction or one Redis script is one atomic step, and an interleaving of concurrent
callers is a sequence of steps. Clocks, random draws, client behaviour, JSON decoding and rendering,
byte rewriting and decryption are parameters, so the theorems hold for all of them.

## What is assumed

- The clock goes forward; accounts are charged in the order of their months where the monthly figure is
  concerned (`MonthFigureExact` says what happens otherwise).
- `LedgerSafe` is about runs in which the differences booked fit 64 bits; two lemmas of `LedgerBooks` show
  that this is exactly what is needed.
- Table identifiers are never used again (the schema declares them AUTOINCREMENT).
- A statement that would push an integer column beyond 64 bits aborts its transaction, as PostgreSQL does.
- One ability row per channel and model; key identifiers are unique.
- An archived month gets no more rows (`LateRowsLost` says what happens otherwise).
- A usage row is charged to a month and stamped at one moment; `period` in a row of the model is that month,
  which the source does not store (`MonthlyFigureByStamp` states the figures by the stamps alone,
  `StampedElsewhere` what a stamp beyond the month's end does).
- A usage row is stamped when it is committed. In the source the stamp is taken before the transaction
  commits, so a row stamped in a month may commit after that month's snapshot; `LateCommitExact` says what
  that does to the balance.
- The cooldown table is shared: in `RelayLoop` others may change it arbitrarily before each candidate and
  during each attempt. Asking whether a key is cooling and whether for quota are two calls at one moment.
- Saving a channel or model writes status 0 or 1.
- The writer behind a translator never reports an error, as the gated writer guarantees; so the error
  returns of `emit` are not modelled.

## Where the code does less than its comments say

The model follows the code. Each of these has a lemma that names the exact condition or an input.

- `SetOrgQuota` (internal/service/quota.go:164) promises that grants always sum to the limit; the
  difference is computed unchecked in 64 bits (`SetOrgQuotaBooked`, `HugeLimitLosesTheBooks`).
- The automatic month-end snapshot (internal/service/billing.go:119) means the previous month, but on
  days 29 to 31 it may claim the running one, whose balance then stays wrong (`AutoClaimsPreviousMonth`,
  `EarlySnapshotSticks`; every 31 March: `StartOnLastOfMarch`).
- Renewing a lease does not extend the key that holds it (internal/coord/redis.go:195-199), so the gate
  can be exceeded after four leases without an admission (`TwoInOneSlot`; exactly when: `BusyGateExact`).
- `Backoff` assumes its base is at least every ordinary cooldown (internal/coord/mem.go:62-63), and its
  shift wraps (`RetryAfterCutShort`, `TwentyNinthHit`; exactly when: `NeverShortensIff`, `KthStepExact`). So a
  key may be tried again before the time its upstream asked for (`RetriedEarlyIff`, `RetriedEarly`).
- The 504 branch (internal/gateway/handler.go:896) also fires when every candidate was skipped as cooling
  (`FalseTimeoutIff`). A queue timeout clears every flag although the comment on `onlyRateLimited`
  (internal/gateway/handler.go:556) counts it as rate limited.
- `DecryptFailed` counts channels and is compared with a number of vendors (`DecryptTestExact`).
- Parallel tool calls: the Responses translator mixes their arguments up (`ToolStreamExact`), the
  Anthropic translator sends deltas for closed blocks (`DeltasNameOpenBlockExactly`). Its branch that
  reopens a block (internal/gateway/anthropic.go:635-644) cannot be reached: the continuation test before
  it has already taken every mapped index without a name.
- A call the upstream sends without an id gets one in a stream, and none in a complete reply
  (internal/gateway/responses.go:589-591, internal/gateway/anthropic.go:580-582; exactly when the two agree:
  `ResponsesAgreement.StreamAgreesWithEncoder`, `AnthropicAgreement.StreamAgreesWithEncoder`). A later fragment
  without an index goes on with the open call in a Responses stream (`ResponsesRefinement.PieceWritten`) and
  starts a nameless block in an Anthropic one (`AnthropicAgreement.StartWritten`).
- A stream without a finish reason ends with tool_use after a call; the non-streaming encoder says
  end_turn (`AnthropicAgreement.StreamAgreesWithEncoder`).
- A stream starts with a model only if a mapping is configured (internal/gateway/responses.go:701-703), while
  the encoders are always given the requested one: when the upstream names none, a Responses stream ends
  with an empty model (`UnnamedModelLost`; exactly when: `ResponsesAgreement.StreamAgreesWithEncoder`), and an
  Anthropic stream keeps the model of its beginning (`AnnouncedModelExact`).
- An Anthropic stream does not report tokens read from a cache (internal/gateway/anthropic.go:694-700), the
  non-streaming encoder does (`CacheReadLost`; exactly when: `AnthropicAgreement.StreamAgreesWithEncoder`).
- The translating pipes ask whether the client has left before they send the closing events
  (internal/gateway/responses.go:722), against `pipeSSE`, which asks last: a client not reported gone may lack
  those, and nothing else (`ResponsesPipe`, `AnthropicPipe`). The relay asks the request's context again, so
  only a failing write goes unreported.
- The balance alert's reset is not conditional on the reading it came from (`BalanceSentTwice`; exactly
  when: `MailedAgainIff`, `OnlyMailIff`).
- Rows that arrive after their month was archived are lost, or push out the archived ones (`LateRowsLost`).
- Saving a channel's or a model's form writes the status and leaves the automatic marker: a stop may not
  hold (`EditedStopHoldsIff`, `EditedModelStopHoldsIff`), and an enabled row may carry a marker (`MarksKept`).
- `SelectCandidates` does not look at the vendor's status (`DisabledVendorStillSelected`; exactly when it
  matters: `SelectableIffLive`).

## Model

| member | source | states |
|---|---|---|
| `ResponsesStream.RespStreamTranslator.constructor` | internal/gateway/responses.go:693-703 | a new translator is in the start state and has written nothing |
| `ResponsesStream.RespStreamTranslator.EmitEvent` | internal/gateway/responses.go:433-449 | one event with the next sequence number is appended, and what the writer was offered is exactly the rendering of all events so far |
| `ResponsesStream.RespStreamTranslator.EnsureStarted` | internal/gateway/responses.go:464-470 | the created event is sent once, before anything else |
| `ResponsesStream.RespStreamTranslator.Close` | internal/gateway/responses.go:472-526 | the open item is closed with the done events of its kind and moved to the output; nothing happens when none is open |
| `ResponsesStream.RespStreamTranslator.StartReasoning` | internal/gateway/responses.go:532-552 | a reasoning item is open afterwards, the same one if it was, otherwise a new one at the next index |
| `ResponsesStream.RespStreamTranslator.StartMessage` | internal/gateway/responses.go:554-580 | likewise for a message item and its content part |
| `ResponsesStream.RespStreamTranslator.StartFunctionCall` | internal/gateway/responses.go:582-603 | always a new function-call item, with a call id made up when the upstream sent none |
| `ResponsesStream.RespStreamTranslator.Tool` | internal/gateway/responses.go:640-663 | one tool fragment: continuation test, opening of a new call, registration of its index, arguments delta |
| `ResponsesStream.RespStreamTranslator.OneChoice` | internal/gateway/responses.go:612-664 | one choice: length flag, then reasoning, content and tool fragments in that order |
| `ResponsesStream.RespStreamTranslator.HandleChunk` | internal/gateway/responses.go:605-666 | one chunk: model and usage noted, then every choice |
| `ResponsesStream.RespStreamTranslator.Done` | internal/gateway/responses.go:669-677 | the end of a clean stream: start if needed, close, completed event |
| `ResponsesStream.RespStreamTranslator.Abort` | internal/gateway/responses.go:682-688 | one failed event, whatever was sent before |
| `ResponsesGrammar.StreamIsWellFormed` | internal/gateway/responses.go:433-677 | for every chunk sequence the finished stream is accepted by an independent automaton: created, then items one at a time with gapless indices and sequence numbers, deltas only for the open item, done texts equal to the concatenated deltas, and a completed event whose output is the done items in order |
| `ResponsesGrammar.FailedStreamIsWellFormed` | internal/gateway/responses.go:682-688 | a stream cut by a read error is a proper prefix of that language followed by one failed event |
| `ResponsesGrammar.DeltasRebuildOutput` | internal/gateway/responses.go:472-677 | in any accepted event sequence the deltas of an index spell the item that the final response holds there |
| `ResponsesGrammar.StreamDeltasSpellOutput` | internal/gateway/responses.go:605-677 | whatever the upstream sends, a client that concatenates the deltas of each index ends with the items of the final response |
| `ResponsesEncoder.EncodeResponse` | internal/gateway/responses.go:308-375 | the loop over a complete reply builds the response of the specification: reasoning, message, calls in order, status, model fallback, usage |
| `ResponsesEncoder.OutputExact` | internal/gateway/responses.go:334-362 | the output is the reasoning if any, the text if any, then one item a call, each under the id of its place |
| `ResponsesRefinement.FragmentsWrite` | internal/gateway/responses.go:605-666 | the translator with its cursor, buffers and output simulates a plain list of drafts of which only the last can grow |
| `ResponsesRefinement.StartWritten` | internal/gateway/responses.go:582-651 | a tool fragment with a name, or with an id and no index seen before, adds exactly one call with that name, its id or one made up from its place, and its arguments |
| `ResponsesRefinement.PieceWritten` | internal/gateway/responses.go:643-663 | with a call open, a nameless fragment whose index was seen, or without id, adds its arguments to that call and nothing else |
| `ResponsesRefinement.StrayPieceWritten` | internal/gateway/responses.go:643-651 | with no call open it starts one without a name |
| `ResponsesAgreement.StreamWrites` | internal/gateway/responses.go:605-666 | the same for whole streams, however the fragments are cut into chunks and choices |
| `ResponsesAgreement.StreamHead` | internal/gateway/responses.go:605-615 | model, usage and incomplete status at the end are the last model, the last usage, and whether any choice ended for length |
| `ResponsesAgreement.FinalResponse` | internal/gateway/responses.go:452-462 | whatever chunks arrive, the completed response is incomplete if and only if some choice ended for length, and shows the upstream's last figures: prompt, completion, their sum as 64-bit words add, and the larger of both cached figures, cut at the prompt |
| `ResponsesAgreement.StreamAgreesWithEncoder` | internal/gateway/responses.go:306-375 | for every chunking of one reply sent as reasoning, content, calls (with or without ids and indices), and whatever model the translator starts with: the completed response equals the non-streaming encoder's in status, usage and, up to item ids and with ids made up for calls sent without, in output; the outputs are equal as they are if and only if every call was sent with an id, the models if and only if some chunk names one or both fall back on the same |
| `ResponsesAgreement.UnnamedModelLost` | internal/gateway/responses.go:701-703 | a request without a model mapping and an upstream that names no model: the stream completes with model "" where the encoder gives the requested one |
| `ResponsesAgreement.ToolStreamExact` | internal/gateway/responses.go:640-663 | a stream of tool fragments, whether calls come with ids and indices or not, yields the calls it means if and only if every argument fragment arrives while its own call is the latest opened |
| `ResponsesAgreement.InterleavedCallsMixUp` | internal/gateway/responses.go:643-663 | two calls streamed in parallel: the second one receives an argument meant for the first |
| `AnthropicStream.AnthStreamTranslator.constructor` | internal/gateway/anthropic.go:725-731 | a new translator is in the start state |
| `AnthropicStream.AnthStreamTranslator.EmitEvent` | internal/gateway/anthropic.go:517-529 | one event appended, and the writer was offered exactly the rendering of all events |
| `AnthropicStream.AnthStreamTranslator.EnsureStarted` | internal/gateway/anthropic.go:531-545 | message_start is sent once |
| `AnthropicStream.AnthStreamTranslator.Close` | internal/gateway/anthropic.go:547-554 | the open block is stopped, if any |
| `AnthropicStream.AnthStreamTranslator.StartText` | internal/gateway/anthropic.go:556-571 | a text block is open afterwards |
| `AnthropicStream.AnthStreamTranslator.StartTool` | internal/gateway/anthropic.go:573-590 | a new tool block is open afterwards; its index is returned |
| `AnthropicStream.AnthStreamTranslator.Fragment` | internal/gateway/anthropic.go:614-671 | one tool fragment: continuation by index, otherwise a new block, mapping of the index, arguments delta |
| `AnthropicStream.AnthStreamTranslator.OneChoice` | internal/gateway/anthropic.go:599-672 | one choice: stop reason, content, tool fragments |
| `AnthropicStream.AnthStreamTranslator.HandleChunk` | internal/gateway/anthropic.go:592-674 | one chunk |
| `AnthropicStream.AnthStreamTranslator.Done` | internal/gateway/anthropic.go:677-709 | the end of a clean stream with the fallback stop reason and the usage |
| `AnthropicStream.AnthStreamTranslator.Abort` | internal/gateway/anthropic.go:714-720 | one error event |
| `AnthropicGrammar.StreamIsWellFormed` | internal/gateway/anthropic.go:531-709 | for every chunk sequence: one message_start, blocks one at a time with indices 0, 1, 2, ... each started and stopped once, deltas only for started blocks, then message_delta and message_stop; and the client ends with exactly the blocks the fragments spell |
| `AnthropicGrammar.DeltasNameOpenBlockExactly` | internal/gateway/anthropic.go:614-671 | every delta names the open block if and only if no argument fragment comes for a call whose block has been closed |
| `AnthropicAgreement.StartWritten` | internal/gateway/anthropic.go:573-657 | a tool fragment with a name, without an index or with one not seen adds exactly one tool block, with its id or one made up from its place |
| `AnthropicAgreement.PieceWritten` | internal/gateway/anthropic.go:618-624 | a nameless fragment with an index seen before adds its arguments to the latest block of that index, whatever id it repeats |
| `AnthropicAgreement.ArgumentsReachTheirCall` | internal/gateway/anthropic.go:614-671 | indexed tool fragments reach their own call, interleaved or not, with ids made up for calls sent without |
| `AnthropicAgreement.StreamStop` | internal/gateway/anthropic.go:592-602 | the stop reason and usage at the end come from the last finish reason and the last usage sent |
| `AnthropicAgreement.StopReasonTold` | internal/gateway/anthropic.go:349-361 | every client of a finished stream is told tool_use after tool_calls or function_call, max_tokens after length, refusal after content_filter, end_turn after any other reason, and without a reason tool_use if and only if it holds a tool block; its figures are those of the last usage |
| `AnthropicAgreement.StreamAgreesWithEncoder` | internal/gateway/anthropic.go:402-453 | for every chunking of one reply in order: same input and output figures as the non-streaming encoder, same content with ids made up for calls sent without, equal as it is if and only if every call was sent with an id; the same usage if and only if nothing was read from a cache; the same stop reason if and only if the upstream sent a finish reason or made no call |
| `AnthropicAgreement.CacheReadLost` | internal/gateway/anthropic.go:694-700 | eight cached prompt tokens, which the encoder reports and the stream does not |
| `AnthropicAgreement.AnnouncedModelExact` | internal/gateway/anthropic.go:531-596 | the client is told the model last named, or started with, by the first text or call; it is the encoder's if and only if that is the model named last, or fallen back on |
| `AnthropicAgreement.InterleavedCallsStray` | internal/gateway/anthropic.go:618-671 | two calls streamed in parallel: both are assembled, from deltas one of which names a closed block |
| `Anthropic.EncodeMessage` | internal/gateway/anthropic.go:402-453 | the loop over a complete reply builds the message of the specification, and its stop reason is tool_use, max_tokens, refusal or end_turn by the finish reason |
| `Gate.GatedWriter.constructor` | internal/gateway/sse.go:55-55 | nothing offered, sent or missed yet |
| `Gate.GatedWriter.Gone` | internal/gateway/sse.go:24-24 | reports whether everything is dropped from now on, and never takes it back |
| `Gate.GatedWriter.Write` | internal/gateway/sse.go:27-37 | full success is always reported; what the client received stays a prefix of what was offered; a client that has left receives nothing, one whose connection breaks at this write the first part, any other all of it |
| `Gate.GatedWriter.Flush` | internal/gateway/sse.go:40-47 | delivers nothing and loses nothing |
| `Gate.RenderedFlat` | internal/gateway/sse.go:27-37 | what a translator writes is its events' renderings one after the other |
| `Sse.WriteEvent` | internal/gateway/sse.go:59-74 | one gathered event is offered with the model renamed and the empty field removed |
| `Sse.PayloadExact` | internal/gateway/sse.go:79-81 | a line has payload p if and only if it is white space, data:, white space, p and white space, where p is neither empty nor [DONE] and has no white space at its ends |
| `Sse.PlainDataLine` | internal/gateway/sse.go:79-81 | a data line as upstreams send it carries its text; the end marker, comments and blank lines carry nothing |
| `Sse.UsageHarvested` | internal/gateway/sse.go:79-89 | the usage harvested is the one reported by the last line that reports any, and none if no line does |
| `Sse.ForwardedExact` | internal/gateway/sse.go:90-99 | a line whose payload is an error leaves as its scrubbed payload, every other line as it came |
| `Sse.OutgoingExact` | internal/gateway/sse.go:63-71 | an event is renamed if a mapping is configured, then loses the empty field if it contains it, and nothing else happens to it |
| `Sse.BodyRelayed` | internal/gateway/sse.go:76-112 | any body of whole events and a rest leaves event by event, each line and each event rewritten on its own |
| `Sse.PipeSse` | internal/gateway/sse.go:54-113 | for every client behaviour the usage and the error depend on the upstream alone, the usage being the last one reported; the client receives a prefix of the full output, all of it if it stays, and a proper prefix only if it is reported gone |
| `Sse.PassThrough` | internal/gateway/sse.go:54-113 | with no renaming, no error event and no empty reasoning field the full output is the bytes read |
| `Pipes.ChunksInExact` | internal/gateway/responses.go:704-713 | what reaches a translator is one chunk for each data line that decodes, in order, the upstream's name for the model replaced, and nothing for any other line |
| `Pipes.ResponsesPipe` | internal/gateway/responses.go:693-727 | harvesting: usage and failure as if the client had stayed, whenever it leaves or its connection breaks; a prefix of the rendered events is delivered, all of them to a client that stays, and all but the closing ones to a client not reported gone |
| `Pipes.AnthropicPipe` | internal/gateway/anthropic.go:725-755 | the same for the Anthropic endpoint |
| `Cost.MulAdd128` | internal/gateway/handler.go:185-200 | the two words are a*b + c*d + e*f exactly: no intermediate addition wraps unnoticed |
| `Cost.CalcCostCached` | internal/gateway/handler.go:160-182 | word arithmetic equals the price list: min(10^15, ceil(millionths owed / 10^6)) for all int64 inputs; the division's precondition holds |
| `Cost.CalcCost` | internal/gateway/handler.go:152-154 | the price without cache is the same list price |
| `Cost.CostMonotone` | internal/gateway/handler.go:160-182 | more prompt or completion tokens never cost less, whatever the cache price |
| `Cost.CostPositive` | internal/gateway/handler.go:160-182 | a call costs something if and only if some priced token was used |
| `Cost.NoCachePrice` | internal/gateway/handler.go:156-168 | with cache price 0 cached tokens do not change the bill |
| `Cost.SplittingNeverSaves` | internal/gateway/handler.go:170-182 | the bill of the whole is at most the bills of its parts |
| `Cost.ClampedBillSame` | internal/gateway/handler.go:131-182 | clamping before billing does not change the bill |
| `Cost.BillExact` | internal/gateway/handler.go:156-182 | for all inputs the bill is the millionths owed in whole points, rounded up, at most 10^15: prompt tokens at the input price but the cached ones at the cache price if there is one, completion tokens at the output price; figures from 0 to 10^10 count as sent |
| `UsageRow.BillAsSent` | internal/gateway/handler.go:44-52 | the same of a usage as sent, cached tokens in either dialect |
| `UsageRow.UsageLog.ApplyUsage` | internal/gateway/handler.go:1178-1197 | both costs are those of the raw figures at today's prices, and can be recomputed from the row alone; without usage only the marker changes |
| `Ledger.AddNoWrap` | internal/service/quota.go:249-258 | the wrap-around test is true exactly when the sum fits 64 bits |
| `LedgerStore.Store.PrecheckUser` | internal/service/quota.go:39-80 | the checks in order: user, user total, user month, organization total, organization month |
| `LedgerStore.Store.SettleTx` | internal/service/quota.go:104-128 | both accounts, the month roll-over, arrears and the usage row as one transaction, or nothing |
| `LedgerStore.Store.AddOrgQuotaTx` | internal/service/quota.go:141-161 | limit, recovery from arrears and the grant together, or nothing |
| `LedgerStore.Store.SetOrgQuotaTo` | internal/service/quota.go:167-199 | the limit is set and the wrapped difference booked and returned |
| `LedgerStore.Store.NewOrg` | internal/api/platform/handler.go:85-149 | organization, initial limit with its grant, and administrator |
| `LedgerStore.Store.NewMember` | internal/api/org/handler.go:134-148 | member, initial limit with its grant; amount 0 is unlimited |
| `LedgerStore.Store.AddUserQuotaTx` | internal/service/quota.go:204-227 | limit and grant together; unlimited members are refused |
| `LedgerStore.Store.SetUserQuotaUnlimited` | internal/service/quota.go:263-302 | switching between limited and unlimited with the difference booked; repeating does nothing |
| `LedgerStore.Store.HandleRechargeTx` | internal/api/platform/handler.go:2057-2078 | a pending recharge is claimed and booked in one transaction; a failed booking leaves it pending |
| `LedgerStore.Store.HandleRequestTx` | internal/api/org/handler.go:896-957 | likewise for a member's quota request |
| `LedgerStore.Store.SettleVideoTaskTx` | internal/gateway/video.go:117-130 | an unbilled task is claimed and settled in one transaction, or nothing |
| `LedgerStore.Store.DeleteMemberTx` | internal/api/org/handler.go:238-258 | the user and, by foreign key, its requests go; books and logs stay |
| `LedgerStore.Store.DeleteOrgTx` | internal/api/platform/handler.go:255-280 | the organization goes with its users and their requests |
| `LedgerBooks.SetOrgQuotaBooked` | internal/service/quota.go:167-199 | grants sum to the new limit if and only if the difference to the old one fits 64 bits |
| `LedgerBooks.SetUserUnlimitedBooked` | internal/service/quota.go:263-302 | grants sum to the new limit except when the limit was -2^63 |
| `LedgerBooks.SettleMetered` | internal/service/quota.go:104-128 | with the clock going forward, used stays the sum of logged costs and the monthly figure that of its month, for every account |
| `LedgerBooks.MonthFigureExact` | internal/service/quota.go:107-120 | after a charge, in order or not, the monthly figure is right if and only if the account was in that month or had nothing logged in it |
| `LedgerBooks.ArchiveInv` | internal/service/archive.go:192-210 | moving rows out of the log table keeps every sum over logged and archived rows |
| `LedgerBooks.MonthlyCostExact` | internal/service/quota.go:39-60 | the month's figure admission looks at is the sum logged in that month, also before the first charge in it |
| `LedgerBooks.SettleStopsExactly` | internal/service/quota.go:122-126 | a settlement stops its organization if and only if it was enabled, has a positive limit and the charge uses it up |
| `LedgerRuns.StepSound` | internal/service/quota.go:104-302 | each of the nineteen kinds of step, deletions and archiving included, keeps all ledger invariants |
| `LedgerRuns.AdmittedIffWithinBudget` | internal/service/quota.go:39-80 | in every reachable state a user is admitted if and only if its own and its organization's total and monthly limits are above what the log says was spent |
| `LedgerEffects.RefusalNamesFirst` | internal/service/quota.go:39-80 | in every reachable state a refusal names the first of the four limits, in their order, that the log says is used up |
| `LedgerEffects.UserLimitAfter` | internal/service/quota.go:204-302 | for every kind of step: only the switch changes whether a user is unlimited; on gives no limit, off gives what has been used; a grant raises a limit there is; nothing else touches it |
| `LedgerEffects.NewUserLimit` | internal/api/org/handler.go:134-148 | a user appears as a member, limited to the amount given if there is one, or as a new organization's administrator, unlimited |
| `LedgerEffects.BecomesUnlimited` | internal/service/quota.go:278-280 | switching to unlimited, creation without an amount and being an administrator make a user unlimited: no call is refused for its own limit |
| `LedgerEffects.UnlimitedStays` | internal/service/quota.go:263-302 | over every run without a switch to limited or a deletion an unlimited user is refused no call for a limit of its own |
| `LedgerEffects.SwitchedToLimited` | internal/service/quota.go:281-284 | switching an unlimited user to limited sets the limit to what it has used, so its next call is refused |
| `LedgerEffects.ResumesExactly` | internal/service/quota.go:141-199 | raising or setting an organization's limit enables it if and only if it was in arrears and the new limit is above what was used; otherwise its status stays |
| `LedgerEffects.RechargeDecidedOnce` | internal/api/platform/handler.go:2057-2078 | a recharge decided either way keeps that decision through every run, and every later decision is turned down |
| `LedgerEffects.RequestDecidedOnce` | internal/api/org/handler.go:896-957 | likewise a quota request, whose identifier is not given out again |
| `LedgerEffects.TaskBilled` | internal/gateway/video.go:109-130 | a finished video task adds to its user's and its organization's account its output tokens at the price it was submitted at, in whole points rounded up, nothing for organization 0, and logs one row of that cost |
| `LedgerEffects.LimitAccepted` | internal/service/quota.go:141-302 | when each transaction on a limit, a creation or a removal succeeds, by the rows it finds |
| `LedgerEffects.ClaimAccepted` | internal/api/platform/handler.go:2057-2078 | a claim is decided if and only if it is pending, of that organization, and, to be approved, its grant is possible |
| `LedgerEffects.TaskAccepted` | internal/gateway/video.go:117-130 | a task settles if and only if it is unbilled and its cost fits both accounts |
| `LedgerEffects.GrantEntered` | internal/service/quota.go:141-302 | a change of a limit enters one grant of its amount, and none when it changes nothing |
| `LedgerEffects.RemovalExact` | internal/api/org/handler.go:238-258 | removing a member, or an organization with its users, takes their requests along and leaves everything else as it was |
| `LedgerRuns.LedgerSafe` | internal/service/quota.go:104-302 | over every run from an empty database whose booked differences fit 64 bits: limit = sum of grants, used = sum of logged costs, month = sum in its month, arrears only with the limit used up, every recharge, request and video task books at most once |
| `LedgerMonths.MonthlyFigureByStamp` | internal/service/quota.go:30-60 | over every run in which the month shown is that of the clock, each account's monthly figure, and the one admission reads, is the sum of the costs stamped in that month |
| `LedgerMonths.StampedElsewhere` | internal/service/quota.go:104-128 | a row stamped outside the month it was charged to parts the two sums if and only if it cost something |
| `LedgerRuns.StoppedStays` | internal/service/quota.go:122-126 | an organization stopped by hand stays stopped through any run of transactions |
| `LedgerRuns.HugeLimitLosesTheBooks` | internal/service/quota.go:178-193 | limit -5 set to the largest int64: the grants end up 2^64 away from the limit |
| `Admission.OvershootBounded` | internal/service/quota.go:39-128 | for every interleaving of prechecks and settlements, used + k * C <= limit - 1 + N * C for an organization or limited user with k of at most N calls in flight and at most C a call |
| `Admission.OvershootFromRest` | internal/service/quota.go:82-88 | starting within the limit, used stays below limit + N * C |
| `Admission.BoundReached` | internal/service/quota.go:39-128 | for every limit, N and C some run ends exactly at the bound |
| `Billing.Snapshots.TakeBalances` | internal/service/billing.go:76-112 | the loop over the query's rows, in any order, writes or overwrites exactly the balance of every organization |
| `Billing.Snapshots.TakePreviousOnce` | internal/service/billing.go:117-143 | the month found is claimed and written unless it was claimed before |
| `Billing.SnapshotExact` | internal/service/billing.go:76-98 | a late snapshot is the level at the month's end if and only if no later cost has been archived away |
| `Billing.TurnsKept` | internal/service/billing.go:76-143 | over every run of transactions and snapshots, each balance taken after its month is and remains the sum of all costs logged before the month's end |
| `Billing.StatementsReconcile` | internal/service/billing.go:215-281 | in every reachable state closing minus opening is the month's consumption, and the statement reconciles if and only if none of the month has been archived |
| `Billing.KeptChain` | internal/service/billing.go:241-281 | the same with the live level as closing figure: it reconciles if and only if nothing was consumed since |
| `Billing.ReconcilesIffClosingTrue` | internal/service/billing.go:277-281 | with a true opening a statement reconciles if and only if its closing figure is the true month-end level |
| `Billing.AutoClaimsPreviousMonth` | internal/service/billing.go:117-119 | the automatic snapshot claims the previous month if and only if that month has today's day, otherwise the running one; proved of the date arithmetic of `Calendar` |
| `Billing.LateCommitExact` | internal/service/billing.go:76-98 | a row stamped before the month's end and committed after its snapshot leaves the balance right if and only if it cost nothing |
| `Calendar.NormalizeSameDay` | internal/service/billing.go:117-119 | a date whose day the month lacks is carried over to a date that exists, for the same day |
| `Calendar.AddMonthsIsTheDate` | internal/service/billing.go:117-119 | a date plus months is the one date of the day counted from the first of the other month |
| `Calendar.MonthBackExact` | internal/service/billing.go:117-119 | one month back is in the previous month if and only if that month has the day; otherwise in the same month, on one of its first three days |
| `Calendar.MarchLessOneMonth` | internal/service/billing.go:117-119 | 31 March less a month is 3 March, in a leap year 2 March |
| `LastOfMarch.StartOnLastOfMarch` | internal/service/billing.go:117-143 | for every year, a run started on 31 March claims March; after more consumption that day the statement closes 5 points short and does not reconcile |
| `Billing.EarlySnapshotSticks` | internal/service/billing.go:117-143 | a start on such a day writes the running month early, and the run due on the first does not correct it |
| `BillDetail.TotalCostSum` | internal/service/billing.go:333-335 | the loop adds up the rows shown |
| `BillDetail.GroupsCoverConsumption` | internal/service/billing.go:283-314 | grouping by day, model and cost center loses and doubles nothing |
| `BillDetail.GroupsDistinct` | internal/service/billing.go:299-311 | one row a key |
| `BillDetail.GroupExact` | internal/service/billing.go:297-309 | there is a row for exactly the day, model and cost center of some successful or charged call of the span; it counts those calls and adds up their cost |
| `BillDetail.ShownExact` | internal/service/billing.go:220-225 | the first rows are shown: as many as asked for, 500 by default, 2000 at most |
| `BillDetail.DetailReconciles` | internal/service/billing.go:215-337 | the rows shown add up to the consumption if and only if every row cut off by the limit cost nothing |
| `BillDetail.ConsumptionIsSum` | internal/service/billing.go:272-314 | the detail's consumption is the sum the statement's figures are made of |
| `BillDetail.DetailIsTheMovement` | internal/service/billing.go:215-337 | over every run of transactions and snapshots, the rows shown add up to closing minus opening if and only if every row cut off by the limit cost nothing |
| `Lease.SlotKey.AcquireScript` | internal/coord/redis.go:184-192 | the script: ended leases dropped, one added if there is room, key deadline renewed |
| `Lease.SlotKey.RenewScript` | internal/coord/redis.go:195-199 | a listed lease is extended, the key's deadline is not; 1 only if the score changed |
| `Lease.SlotKey.ReleaseScript` | internal/coord/redis.go:201-201 | the member is removed; idempotent |
| `Lease.StepInv` | internal/coord/redis.go:184-264 | every step of every gateway, crash and clock tick keeps the protocol invariant |
| `Lease.GateHolds` | internal/coord/redis.go:184-264 | in every interleaving the set holds at most max members, and the live calls missing from it are exactly those whose entry went with the key |
| `Lease.OnlyHeld` | internal/coord/redis.go:184-264 | in every run only running and crashed calls are in the set: a finished one frees its slot at once |
| `Lease.RefusedOnlyIfFull` | internal/coord/redis.go:184-192 | a call is turned away only while max calls are running or have crashed; without a crash, only while max are running |
| `Lease.BusyExact` | internal/coord/redis.go:184-199 | from any reachable state, a run loses no entry if and only if some call is admitted within every four leases in which the key has members |
| `Lease.ListedExact` | internal/coord/redis.go:184-264 | every live call is in the set at every moment of a run if and only if the key never vanishes under a running call whose lease reaches beyond that moment |
| `Lease.BusyGateExact` | internal/coord/redis.go:184-264 | both of all runs from the start, with at most max calls live in the second case, which a busy key ensures |
| `Lease.AdmittedIff` | internal/coord/redis.go:184-192 | a call is admitted if and only if fewer than max leases reach beyond its time |
| `Lease.CrashedSlotReclaimed` | internal/coord/redis.go:203-264 | one lease after the last renewal a slot is free for any acquisition, whatever happened in between |
| `Lease.TwoInOneSlot` | internal/coord/redis.go:184-199 | with one slot, a call that renews on time loses its entry after four leases without an admission, and a second call is admitted beside it |
| `Cooldown.Mem.IsCooling` | internal/coord/mem.go:35-47 | exactly the entries in force; deleting an ended one changes nothing from now on |
| `Cooldown.Mem.IsQuotaCooling` | internal/coord/mem.go:98-110 | true only while cooling |
| `Cooldown.Mem.SetCooldown` | internal/coord/mem.go:51-60 | the later deadline wins; a replaced entry loses its hits and its mark |
| `Cooldown.Mem.Backoff` | internal/coord/mem.go:64-83 | the entry in force gets one more hit and the computed duration, an ended one starts again |
| `Cooldown.Mem.MarkQuotaCooling` | internal/coord/mem.go:87-96 | the entry in force is marked, or one is made |
| `Cooldown.Mem.ClearCooldown` | internal/coord/mem.go:114-118 | the scope is free, others untouched |
| `Cooldown.BackoffExact` | internal/coord/mem.go:76-79 | the computed duration is min(base * 2^(hits-1), max) if and only if the product fits 64 bits or wraps to something not below the cap |
| `Cooldown.KthStepExact` | internal/coord/mem.go:76-79 | the k-th step is min(base * 2^(k-1), max) if and only if the product wraps to something not below the cap, or fits 64 bits and k is at most 31, where the shift is held |
| `Cooldown.KthBackoff` | internal/coord/mem.go:64-83 | the k-th backoff in a row has k hits and lasts the k-th step |
| `Cooldown.PlayOn` | internal/coord/mem.go:51-83 | what a sequence of cooldowns and backoffs does to a scope, and whether one of them ended a cooldown early |
| `Cooldown.EntrySparedIff` | internal/coord/mem.go:62-83 | a backoff spares an entry at every moment it is in force if and only if the next step reaches as far from the time it was set |
| `Cooldown.OrdinarySparedIff` | internal/coord/mem.go:62-83 | an ordinary cooldown is spared if and only if it is at most the smaller of base and cap |
| `Cooldown.TwentyNinthHit` | internal/coord/mem.go:76-76 | with a base of a minute the 29th hit wraps to a negative duration: no cooldown at all |
| `Cooldown.NeverShortensIff` | internal/coord/mem.go:62-83 | over every sequence of ordinary cooldowns of at most some limit and of backoffs, no cooldown is ever ended early if and only if the limit is at most base and cap and the base below 2^33 |
| `Cooldown.RetryAfterCutShort` | internal/gateway/handler.go:1029-1034 | an accepted ten-minute Retry-After is cut to one minute by the first backoff |
| `Selector.WeightedShuffle` | internal/gateway/selector.go:211-237 | the loop with its list of remaining positions draws as specified, for every sequence of random numbers |
| `Selector.ShufflePermutes` | internal/gateway/selector.go:211-237 | the result is a permutation for every draw |
| `Selector.PickExactly` | internal/gateway/selector.go:222-254 | item k is picked by one interval of draws as long as its weight, or one if that is not positive |
| `Selector.PickOdds` | internal/gateway/selector.go:222-254 | exactly as many draws pick item k as it weighs, one if that is not positive, out of the sum of these numbers |
| `Selector.FirstDrawn` | internal/gateway/selector.go:210-238 | the item the first number falls on comes first, and the others are shuffled in the same way |
| `Candidates.FirstChannel` | internal/gateway/selector.go:139-148 | in a group that is shuffled each channel comes first for as many numbers as its weight, one if that is not positive |
| `Candidates.OthersAsListed` | internal/gateway/selector.go:146-159 | once a group has yielded a candidate the channels follow in the order listed |
| `Candidates.FirstKey` | internal/gateway/selector.go:203-207 | in a channel each ready key comes first for as many numbers as its weight |
| `Candidates.ExpandChannel` | internal/gateway/selector.go:166-208 | one channel: ready keys shuffled, cooling keys counted, failure to decrypt told apart from cooling |
| `Candidates.SelectCandidates` | internal/gateway/selector.go:78-161 | groups of equal priority, shuffled until one has yielded a candidate; each usable pair exactly once, channels contiguous, priority never rising; the five figures, whatever the order |
| `Candidates.OrderedPermutes` | internal/gateway/selector.go:137-159 | whatever the draws, channels are only reordered, and within their priority |
| `Candidates.CandidatesExact` | internal/gateway/selector.go:78-208 | each pair of a routable channel and a ready key exactly once and nothing else, priority never rising, channels contiguous |
| `Candidates.DecryptTestExact` | internal/gateway/handler.go:495-501 | the test for undecryptable keys is right in every state of the keys if and only if each vendor with keys has one channel |
| `Candidates.FalseDecryptAlarm` | internal/gateway/selector.go:153-155 | two channels of a broken vendor and one merely cooling vendor raise the alarm |
| `Relay.CoolKeys` | internal/gateway/handler.go:1084-1104 | after an ordinary 429 exactly the key, or every candidate key of the vendor, is cooling until the given time; no cooldown is shortened |
| `Relay.ScopesDistinct` | internal/gateway/selector.go:36-38 | two keys share a cooldown if and only if they are the same key of the same vendor |
| `Relay.PooledExact` | internal/gateway/handler.go:1084-1104 | an ordinary 429 reaches exactly the keys on the list that are the one tried or, if set so, of its vendor |
| `Relay.OthersStayFree` | internal/gateway/handler.go:1084-1104 | so the keys of other vendors stay free, and the vendor's other keys too unless set otherwise |
| `Relay.CoolForQuota` | internal/gateway/handler.go:651-662 | after a quota 429 the key has one more hit than whatever is in force by then, the duration of that step and the mark; other keys are untouched |
| `Relay.QuotaStepMeant` | internal/gateway/handler.go:651-655 | as long as it fits a word, a quota cooldown is the base doubled once for each earlier one still in force, a day at most |
| `Relay.Attempt` | internal/gateway/handler.go:561-703 | each failure clears exactly the flags of the other kinds, applies its cooldown to the table as it finds it, and raises the largest one applied to that if it is larger |
| `Relay.MaxAppliedIs` | internal/gateway/handler.go:653-656 | the figure reported is a bound on the cooldowns applied, and reached |
| `Relay.Probe` | internal/gateway/handler.go:861-867 | a key is passed over if and only if it is cooling, and counted for quota if and only if the entry in force says so |
| `RelayLoop.RunCandidates` | internal/gateway/handler.go:854-924 | with others changing the shared table arbitrarily between any two steps: candidates in order and each at most once, within the budget, no key of a channel after the channel failed; a key or vendor left alone while an ordinary 429's cooldown lasts unless others take it away; a candidate met is passed over if and only if its key is cooling then, for which there is a reason before it, and otherwise tried unless the budget is spent; the retry time is the largest cooldown applied, else the configured one; the verdict is the classification of the history |
| `RelayLoop.FlowExact` | internal/gateway/handler.go:869-884 | two keys of one channel are tried only if the first failed by its own fault (429, refused key, unusable request); a candidate left behind untried and uncooled went with its channel after any other failure; an answer or the client's leaving comes last |
| `RelayLoop.AppliedExact` | internal/gateway/handler.go:670-684 | an ordinary 429 applies the cooldown it came with, a failure that is no 429 none |
| `RelayLoop.RetriedEarlyIff` | internal/gateway/handler.go:861-867 | met while an ordinary 429 of this request should keep its key cooling, a candidate is tried if and only if the loop finds its key free, and then others have taken the cooling away since |
| `RelayLoop.RetriedEarly` | internal/gateway/handler.go:652-652 | another request's backoff on the key: a request tries a key again two minutes after a 429 that asked for ten |
| `Relay.VerdictMeansHistory` | internal/gateway/handler.go:886-924 | after at least one attempt 402, 504, 429 and 503 each hold exactly for histories of their kind, named by the outcomes |
| `Relay.FalseTimeoutIff` | internal/gateway/handler.go:886-901 | 504 is reported without any timeout if and only if every candidate was skipped as cooling and not all for quota |
| `Alerts.MulGE128` | internal/service/alerts.go:125-132 | a*sa >= b*sb exactly, for all non-negative int64 |
| `Alerts.ParseLevels` | internal/service/alerts.go:96-110 | the positive levels, each once, ascending |
| `Alerts.Bracket` | internal/service/alerts.go:114-122 | threshold number i is among those returned if and only if used * 100 >= limit * threshold |
| `Alerts.LevelIsPrefix` | internal/service/alerts.go:114-122 | the reached thresholds are the first ones, so the level names the highest |
| `Alerts.LevelsSentOnce` | internal/service/alerts.go:200-223 | in every interleaving of readers and writers the mailed levels strictly increase and the row never claims more than was used |
| `Alerts.LastCheckSettles` | internal/service/alerts.go:146-223 | a check begun after the last settlement leaves the row at the true level |
| `Alerts.BalanceSentOnce` | internal/service/alerts.go:225-247 | once the balance alert is out and while no check holds a reading from above the threshold, no continuation mails it again |
| `Alerts.MailedAgainIff` | internal/service/alerts.go:225-247 | with the alert out and the balance low, some continuation mails it again if and only if some running check holds such a reading |
| `Alerts.OnlyMailIff` | internal/service/alerts.go:225-247 | a mail just sent is the last one in every continuation if and only if no running check holds such a reading |
| `Alerts.BalanceSentTwice` | internal/service/alerts.go:225-247 | with such a reading it is mailed twice while the balance only falls |
| `Throttle.Throttler.ThrottleWindow` | internal/service/alerts.go:68-80 | lets a check through unless one went through less than a minute ago, and says when that minute ends |
| `Throttle.Throttler.Check` | internal/service/alerts.go:146-151 | a throttled call leaves one pending recheck, never two |
| `Throttle.Throttler.Recheck` | internal/service/alerts.go:85-93 | the timer clears the pending mark and checks again |
| `Throttle.EveryCallIsChecked` | internal/service/alerts.go:66-93 | with timers firing when due, every call at time t is followed by a check that goes through in [t, t + 60] |
| `Throttle.AtMostOneAMinute` | internal/service/alerts.go:68-80 | whatever calls and timers come and when, checks go through at least a minute apart |
| `Throttle.TimerStays` | internal/service/alerts.go:85-93 | calls set no second timer while one is pending, and move none |
| `AlertTiming.SettledWithinAMinute` | internal/service/alerts.go:66-223 | a settlement that calls for a check, followed by no other, leaves the row at the true level once the clock is past the minute, whatever calls, timers and other instances do |
| `Throttle.ChainStops` | internal/service/alerts.go:85-93 | without calls the timers fire at most twice more |
| `UsageArchive.ExportMonth` | internal/service/archive.go:129-165 | paging writes each row stamped in the month exactly once, in id order, and no other |
| `UsageArchive.DeleteUsageRange` | internal/service/archive.go:192-210 | batched deletion ends, having removed exactly the rows stamped in the month |
| `UsageArchive.StepKept` | internal/service/archive.go:94-126 | every step, crashes included, keeps the invariant of table, temporary and finished files |
| `UsageArchive.NoRowLost` | internal/service/archive.go:54-126 | after any run with crashes anywhere and reruns, every row is in the table or in its month's finished file |
| `UsageArchive.PassLeaves` | internal/service/archive.go:94-126 | an undisturbed pass leaves of a month the old file if it has at least as many lines as the table has rows, an export of the table otherwise |
| `UsageArchive.LateRowsLost` | internal/service/archive.go:94-126 | an idle archiver keeps a month's rows through every run without new ones, crashes and reruns included, if and only if the table's are among the file's or the file's among the table's; an undisturbed pass already decides it |
| `Health.Registry.DisableNoKeyChannels` | internal/service/modelroute.go:220-231 | exactly the enabled channels without a usable key are stopped and marked |
| `Health.Registry.RecoverKeyedChannels` | internal/service/modelroute.go:235-246 | exactly the channels stopped for want of a key that have one again are started |
| `Health.Registry.SyncModelRoutableStatus` | internal/service/modelroute.go:143-169 | dead enabled models are stopped and marked, marked live ones started, in one transaction |
| `Health.Registry.SyncModelsAndNotify` | internal/service/modelroute.go:253-260 | afterwards nothing enabled is dead and nothing stopped automatically is alive |
| `Health.SyncIsFixpoint` | internal/service/modelroute.go:143-260 | a second synchronization changes nothing |
| `Health.MarksKept` | internal/gateway/breaker.go:49-53 | at every moment of a run enabled rows carry no marker and no channel carries two, if and only if it is so at the start and no edit along the run enables a marked row |
| `Health.ManualStopHolds` | internal/api/platform/handler.go:947-952 | a stop that leaves no marker holds through every run, stale sweeps and edits included, until an administrator starts that channel, or model |
| `Health.EditedStopHoldsIff` | internal/api/platform/handler.go:876-878 | a channel stopped by saving its form stays stopped through every run without an administrator's start if and only if it carried no marker; so also if every sweep is up to date |
| `Health.EditedModelStopHoldsIff` | internal/api/platform/handler.go:1535-1537 | the same of a model |
| `Routability.LiveIsSelectable` | internal/service/modelroute.go:22-28 | a live model has channels and a vendor with keys to select from |
| `Routability.SelectableExact` | internal/gateway/selector.go:82-135 | there is something to select from if and only if some enabled channel of the model has an address and a vendor with a key |
| `Routability.SelectableIffLive` | internal/gateway/selector.go:82-135 | that agrees with being live if and only if the model is live or no such channel belongs to a disabled vendor |
| `Routability.AlignedAgrees` | internal/gateway/selector.go:82-135 | after a synchronization it agrees for every model, and nothing of a disabled vendor can be selected |
| `Routability.DisabledVendorStillSelected` | internal/gateway/selector.go:82-118 | a model live through another vendor: until the next synchronization a disabled vendor's key is a candidate too, whatever the draws |

## Left out

- HTTP, authentication, routing, SQL dialects, Redis networking, SMTP and the front end: only the effect of
  each transaction, statement or script is modelled.
- Request decoding (`decodeResponsesRequest`, `decodeAnthropicRequest`) and JSON: chunks and replies are values,
  rendering and decoding are arbitrary functions, normalised tool arguments an arbitrary function of the text.
- Regular-expression scrubbing, model-name replacement and CSV text: arbitrary functions on strings.
- The grouping of translator fields: buffers and ids form one record, model, usage and status another; the
  flusher, the creation time and the constant response id carry no state.
- Requests of kind "model" in `HandleRequest`: they write grants of visibility and never move the ledger.
- Uniqueness of names and e-mail addresses when organizations and members are created.
- The overflow test of the approval path in `HandleRequest` is that of `AddUserQuota`: it tests `limit > MaxInt64 - amount`, which is
  the same for the positive amounts it is given.
- SQLite turns an overflowing integer column into a floating-point value where PostgreSQL aborts; the abort is modelled.
- Redis errors: every gate, cooldown and lease opens when Redis fails, which no bound survives.
- The Redis form of the cooldown table: its in-process form is modelled; the two differ in that the quota mark is a key of its own.
- The in-process semaphore of `Mem.AcquireSlot`: a buffered channel, with no protocol to prove.
- A `max` of zero or less, which means no gate; and changing `max` while leases are held: it is constant in `Lease`.
- Time zones and daylight saving: months are an increasing sequence of boundaries, and the server's local zone is
  taken to be the billing zone in `MonthBack`.
- A failing snapshot, which resets the marker and is retried.
- Token counts and vendor costs in statement rows; the order of the rows, for which any permutation is allowed.
- `RelayLoop.RunCandidates`: the outcome of each attempt is given, not derived from HTTP status and body; the
  usage billed on success is the subject of `Pipes` and `UsageRow`.
- Counting failures up to a threshold in the breaker and the health check: a trip may come at any time.
- Channel and model deletion; status values other than 0 and 1, which saving a form does not refuse.
- Several archivers on one directory at once, and files damaged after they were renamed.
