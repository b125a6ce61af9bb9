# bunyan-sumologic in Dafny

A model of the Bunyan stream that ships log records to a SumoLogic HTTP collector
(`index.js`). Each `write` serializes a record to one line of text, normally its JSON
encoding, and appends it to an in-memory buffer (`unsynced`). Every sync interval, a timer tick sends the oldest lines, at
most `maxLines` of them, joined by newlines, in one POST request. Only one request is in
flight at a time; the gate is the count `numBeingSent`. When the request completes, the
lines that were sent are removed on success (no transport error, and a status in
[200, 400)). On failure they stay at the head of the buffer and are sent again on the next
tick. Records may have their numeric Bunyan `level` rewritten to a name before they are
serialized.

Modules, one file each:

- `Wrappers` (`wrappers.dfy`): Option and Result, which stand for `undefined` and for thrown errors.
- `Lines` (`lines.dfy`): `Array.prototype.join` and splitting a body back into lines (the JSON Lines wire format).
- `JsonString` (`json_string.dfy`): `JSON.stringify` applied to a string (the QuoteJSONString operation of ECMA-262), with the JSON string decoder of section 7 of RFC 8259 as its inverse.
- `Levels` (`levels.dfy`): the `LEVEL_NAMES` table with the properties every plain object inherits from `Object.prototype`, the property-key conversion of a level, and `safeRewriteLevel` as an in-place update of a `LogRecord` object.
- `Serialization` (`serialization.dfy`): `safeToString`, the three-step fallback chain.
- `Config` (`config.dfy`): the constructor's validation and option defaults.
- `Flush` (`flush.dfy`): the buffer and the gate as pure transitions (write, tick, completion). It also holds the lemmas about single flight, retry order, exact removal and, over any sequence of events, delivery order.
- `SumoLogger` (`sumo_logger.dfy`): the logger object, a class whose methods update `unsynced` and `numBeingSent` in place. Each method is specified by the `Flush` transition it performs.
- `Scenarios` (`scenarios.dfy`): the syncing and level tests of `test/logger.spec.js`, replayed as client code of the class.

A timer tick is a call of `Logger.Tick`, which returns the body it would POST. The
request's completion is a call of `Logger.Complete(error, status)`.

## Model

| member | source | states |
|---|---|---|
| `Lines.Join` | index.js:87 | `lines.join(sep)`: `[]` joins to "", a single line to itself |
| `Lines.JoinAppend` | index.js:87 | joining two non-empty runs of lines puts exactly one separator between their joins |
| `Lines.SplitJoin` | index.js:86-87 | splitting a newline-joined batch at newlines gives back exactly the batch, when no line contains a newline |
| `Lines.JoinPrefix` | index.js:86-87 | the join of a prefix of the lines is the whole join or is followed in it by the separator, so a resent batch's body leads the next body |
| `JsonString.Quote` | index.js:17-19 | a string encoded as JSON is quoted, contains no raw newline, and decodes back to the string |
| `JsonString.Escape` | index.js:17-19 | the escaped body of a JSON string holds no control character |
| `JsonString.EscapeRoundTrip` | index.js:17-19 | decoding the escaped text gives back every string |
| `JsonString.QuotePlain` | index.js:17-19 | text without control characters, quotes or backslashes is encoded as itself between quotes |
| `Levels.RewriteLevel` | index.js:25-39 | a falsy level and one whose key conversion throws are kept; otherwise the result is the level, `undefined`, a name from the table, or a value inherited from `Object.prototype` |
| `Levels.RewriteNumericLevel` | index.js:25-36 | with rewriting, 10/20/30/40/50/60 become TRACE/DEBUG/INFO/WARN/ERROR/FATAL, 0 is kept, and every other number becomes `undefined` |
| `Levels.RewriteStringLevel` | index.js:25-36 | a string level is looked up as a key: "30" becomes INFO, an inherited name such as "__proto__" or "toString" gets the inherited value, and any other non-empty string becomes `undefined` |
| `Levels.RewriteInheritedLosesIt` | index.js:34-36 | a level holding an inherited value is rewritten again to `undefined` |
| `Levels.NumberKeyNotInherited` | index.js:36 | no number converts to the name of an inherited property |
| `Levels.DecimalString` | index.js:36 | a number's property key is non-empty and starts with '-' exactly for negative numbers, otherwise with a digit |
| `Levels.RewriteTwiceLosesName` | index.js:25-36 | rewriting a record twice replaces its level name by `undefined` |
| `Levels.DecimalStringInjective` | index.js:36 | distinct numbers convert to distinct property keys, so only the six codes hit the table |
| `Levels.SafeRewriteLevel` | index.js:33-39 | overwrites the record's level in place with its rewrite |
| `Serialization.SafeToString` | index.js:12-22 | the JSON encoding if it succeeds; otherwise a JSON string that decodes to `String(obj)`, or to "error serializing log line" when that throws too; no newline unless the encoder emitted one |
| `Serialization.Serialize` | index.js:69 | the line of a record is its encoder output when encoding succeeds and a decodable JSON string otherwise |
| `Serialization.PlainFallback` | test/logger.spec.js:190-199 | a cyclic object is sent as "[object Object]" in quotes, and an object whose hooks all throw as the quoted error message |
| `Config.Configure` | index.js:42-55 | fails with the collector message exactly when options or a non-empty collector are missing; the URL is the endpoint (default US2) followed by the key; maxLines and syncInterval are positive (0 or absent gives 100 and 1000); rewriting is on unless turned off |
| `Flush.Batch` | index.js:86 | the batch is the first min(maxLines, buffer length) lines |
| `Flush.WriteStep` | index.js:64-70 | a write appends exactly one line at the tail, keeps the gate and the invariant |
| `Flush.WriteAll` | index.js:64-70 | writes in sequence append their lines in order and leave the gate alone |
| `Flush.TickStep` | index.js:75-88 | a tick sends nothing and changes nothing iff a request is in flight or the buffer is empty; otherwise the body is the batch joined by newlines, the buffer is kept and the gate closes on the batch size |
| `Flush.Failed` | index.js:96-98 | a completion succeeds iff there is no error and the status is in [200, 400) |
| `Flush.CompleteStep` | index.js:99-103 | on success exactly the first numBeingSent lines are removed, on failure the buffer is unchanged; the gate reopens and the invariant holds |
| `Flush.StatusTestCodes` | test/logger.spec.js:100-122 | statuses 100, 400, 500 and 199 are failures; 200 and 399 succeed |
| `Flush.IdleTickSends` | index.js:77-88 | an idle logger with buffered lines always sends, and its body splits back into the batch |
| `Flush.OneRequestInFlight` | index.js:76-79 | after a request is sent, no tick sends another until completion, whatever is written meanwhile |
| `Flush.FailedBatchIsResentFirst` | index.js:86-103 | after a failure the next batch starts with the failed batch, its body starts with the failed body, and it is the same body when the first batch was full or nothing was written |
| `Flush.SuccessRemovesExactlyTheBatch` | index.js:100-103 | after a success the buffer is what was not sent followed by the lines written during the request |
| `Flush.TickRecordsSentBatch` | index.js:86-91 | a tick that sends records as body exactly the newline join of the in-flight batch, which is the oldest buffered lines and which the body splits back into |
| `Flush.StepKeepsOrder` | index.js:64-104 | each event keeps the recorded in-flight batch equal to the head the gate counts, and keeps delivered lines followed by buffered lines equal to all lines written |
| `Flush.RunKeepsOrder` | index.js:64-104 | the same over any sequence of writes, ticks and completions |
| `Flush.DeliveredIsPrefixOfWritten` | index.js:58-104 | from a new logger, the successfully delivered batches concatenate to a prefix of the written lines, and the buffer holds exactly the rest |
| `Flush.FailedAsWritten` | index.js:96-98 | the failure test on the `status` property as written: with no such property only a transport error fails |
| `Flush.MissingStatusReadsAsSuccess` | index.js:96-98 | a 500 response that names its code `statusCode` counts as success as written, but as failure by the intended test |
| `SumoLogger.Logger.constructor` | index.js:47-58 | a logger starts with an empty buffer, no request in flight, and the validated settings |
| `SumoLogger.Logger.Write` | index.js:64-70 | rewrites the record's level in place when enabled, then appends its serialization; the invariant holds |
| `SumoLogger.Logger.Tick` | index.js:75-91 | performs the tick transition and returns the body it dispatches |
| `SumoLogger.Logger.Complete` | index.js:95-104 | performs the completion transition for the given error and status |
| `SumoLogger.NewLogger` | index.js:42-55 | construction fails with the collector message exactly when validation fails, and otherwise yields a new idle logger with the configured endpoint, interval, batch bound and rewriting flag |
| `Scenarios.RetryFailedRequestsFirst` | test/logger.spec.js:74-97 | a failed line is resent unchanged, then sent first in the next body together with the new line |
| `Scenarios.NonSuccessStatusIsRetried` | test/logger.spec.js:100-122 | the same body is sent after statuses 100, 400 and 500; after 200 nothing more is sent |
| `Scenarios.OneRequestAtATime` | test/logger.spec.js:61-72 | a second period with a request in flight sends nothing |
| `Scenarios.NothingToSync` | test/logger.spec.js:52-59 | periods with an empty buffer send nothing |
| `Scenarios.SyncCycle` | test/logger.spec.js:129-143 | writing lines, one period and a 200 send exactly those lines joined by newlines and leave the logger idle and empty |
| `Scenarios.HappyPath` | test/logger.spec.js:124-159 | each period sends exactly the lines written since the previous one |
| `Scenarios.RewriteLevelNames` | test/logger.spec.js:202-221 | with rewriting on, the six codes leave `write` as their names |

## Left out

- The HTTP request (index.js:91-95) is a call into the `request` library. A tick returns the body it would POST; the URL is computed by `Config.Configure`; the completion is a separate `Complete(error, status)` call.
- `setInterval` (index.js:107): a tick is an explicit call, and `syncInterval` is only kept as a setting. The first test ("Should not sync for first second") is about the clock and is not replayed.
- `JSON.stringify` of arbitrary values and `String(obj)` are collaborators whose outcomes are inputs (`Encoder`). Only `JSON.stringify` of a string is modelled concretely. The "Should only output valid JSON" test needs a JSON parser and is not replayed.
- `Serialization.Serialize`: does not say that a successful `JSON.stringify` has no raw newline, because the encoder is abstract. `Flush.IdleTickSends` therefore states the round trip on condition that no buffered line contains a newline.
- `JSON.stringify` can return `undefined` without throwing: for a function, a symbol, or an object whose `toJSON` returns `undefined`. index.js:69 then pushes `undefined`, which `join` renders as the empty string. The abstract encoder stands for this outcome as `Some("")`, so such a buffer entry is "" rather than `undefined`.
- `null` and `undefined` records: with rewriting on, `obj.level` (index.js:34) is read outside the `try` and throws. The model's records are objects or scalars (a scalar's `level` reads as `undefined`).
- A `level` property whose assignment throws (a frozen record) would be kept by the catch. `Levels.SafeRewriteLevel` always assigns.
- Numbers are integers. Fractional and NaN levels and options are not modelled. Integers of 1e21 or more convert to exponent notation in JavaScript rather than decimal; no table key looks like either, so the lookup result is the same.
- Options other than integers, strings and booleans (a string `maxLines`, a negative count): `Options` has `nat` counts and a boolean `rewriteLevels`, which is the truthiness of the value given.
- A completion with no error and no response object throws a TypeError in the callback (index.js:97) and leaves the gate closed for good. `Complete` always receives a status.
- Lone UTF-16 surrogates: Dafny characters are Unicode scalar values, so `JsonString.Quote` never meets one.
- No drain or `end` operation exists in index.js, so there is no pending-completion callback to model.
- Where the level table has no entry for a truthy level, index.js:36 stores `undefined`; it does not keep the original number. The model follows the code.

## Findings

| source | as written | input that shows it | evidently intended | confidence | as-written member | corrected member |
|---|---|---|---|---|---|---|
| index.js:96-98 | the failure test reads `response.status` | a response from the `request` library with status code 500: Node's response objects carry the code as `statusCode` and have no `status`, so both comparisons are with `undefined`, both are false, and the batch is dropped as delivered | a completion fails iff there is a transport error or the response status code is outside [200, 400) | medium, not executed | `Flush.FailedAsWritten`, `Flush.MissingStatusReadsAsSuccess` | `Flush.Failed` |

The rest of the model uses `Flush.Failed`, and the `status` argument of `Logger.Complete` is the response's status code. The test suite's stubbed responses carry `status`, and on those responses the two tests agree (`Flush.FailedAsWritten`'s first ensures).
