# queue-handler, modelled in Dafny

This project models the two stateful pieces of `queue-handler`.

- The **driver** `QueueHandler` is a timer-driven consumer. It polls a queue
  for one item at a time and runs a user handler on it. While the handler
  runs, it renews the item's lease on a timer. It then acknowledges the item
  with the handler's error message, or with `''` on success, and polls again.
  `stop()` asks it to finish the current item and then signal.
- The **in-memory lease queue** `TestQueue` is what the driver's tests run
  against. Payloads are stored under increasing ids. `get` leases the smallest
  unleased id and hands it out as a decimal ack string. `done` parses the ack
  back with `parseInt`, deletes the item and records the error.

Files:

- `records.dfy` (`Records`): `Option` and the `{ack, payload}` record.
- `js_numbers.dfy` (`JsNumbers`): JavaScript's `Number.prototype.toString` for
  the non-negative integer ids, and `parseInt` as ECMAScript defines it:
  - it skips leading white space and line terminators;
  - it takes an optional sign and an optional `0x`/`0X` prefix;
  - it reads the longest digit prefix;
  - it gives NaN when there are no digits.

  It also proves the round trip `parseInt(id.toString()) == id`.
- `test_queue.dfy` (`TestQueueModel`): the class `TestQueue` over the maps
  `_queue`, `_acks` and `_dones` and the counter `_nextId`. It has the class
  invariant `Valid()`:
  - leased ids are stored ids;
  - stored ids lie in `1 .. _nextId-1`;
  - lease marks are `true`.
- `queue_handler.dfy` (`QueueHandlerModel`): the class `QueueHandler` with the
  driver's own fields.
  - Each `async` method is cut at its single `await` into an issue step and a
    completion step (`PoolTimerFires` / `GetReturns`, `PingTimerFires` /
    `PingReturns`, `Process` / `HandlerFinishes`, `IssueDone` / `DoneReturns`).
  - The counters `pendingGets`, `pendingPings`, `pendingDones` and
    `runningHandlers` record which awaits are outstanding.
  - `effects` is the trace of queue calls, handler calls and stop signals.
  - A thrown `Error` is a `Fatal(message)` status. The fields then hold what
    the code had assigned before the throw.
  - `_timer` is a `Slot` (`NoTimer | PoolTimer | PingTimer`), and
    `timerPending` says whether the held handle is still scheduled. Keeping
    the two apart is what lets the model show that `clearTimeout` in
    `_cleanAndStop` leaves the handle in `_timer`.
  - Every method states its whole new state as
    `State() == old(State()).(...)`.
  - Each event method preserves the invariant `Valid()`.
- `scenarios.dfy` (`Scenarios`): the driver and the queue run together, event
  by event, in the orders the tests in `src/QueueHandler.spec.ts` observe. It
  also covers the stop and restart orders the flags allow.

Behaviour of the code that the model keeps:

- `start()` while `_timer` holds a handle throws 'share pooloing timer'.
  This happens on a second `start()` while the poll timer is armed. It also
  happens on a `start()` after a `stop()` that was honoured while a poll
  handle was held, because `_cleanAndStop` cancels that timer but leaves the
  handle in `_timer`.
- `start()` after a stop honoured at the end of an item succeeds, because
  `_done` empties `_timer` before acknowledging.
- `queue.done` is never issued while `queue.ping` is outstanding. The
  reverse overlap can happen: `_done` empties `_timer` while `queue.done` is
  in flight, so a `start()` then polls, and the next item's lease renewal
  runs beside the first acknowledgement. This is why outstanding calls are
  counters rather than flags.
- A stop can be signalled before the last item is acknowledged.
  `_cleanAndStop` looks only at `_processDone`, so a `stop()` after the
  handler finished but while a renewal holds `_done` back signals at once,
  before `queue.done` is issued. It also signals at once while `queue.done`
  is in flight. An item whose ack is `''` counts as no item, so a stop during
  its handler run is signalled at once too.
- `put` does not await `queue.put`, so a failure there never reaches the
  caller.

## Model

| member | source | states |
|---|---|---|
| JsNumbers.TrimStart | src/__mocks__/TestQueue.ts:55 | parseInt's first step drops exactly the longest prefix of StrWhiteSpace characters (white space and line terminators) |
| JsNumbers.DigitPrefix | src/__mocks__/TestQueue.ts:55 | parseInt reads the longest prefix of digits valid in the radix and stops at the first character that is not one |
| JsNumbers.ToDecimal | src/__mocks__/TestQueue.ts:43 | `ackId.toString()` of a non-negative id is a non-empty string of decimal digits with no leading zero except for 0 itself |
| JsNumbers.DecimalValue | src/__mocks__/TestQueue.ts:43 | the digits `toString` writes denote the id again |
| JsNumbers.ParseDecimalDigits | src/__mocks__/TestQueue.ts:55 | parseInt of a non-empty string of decimal digits (leading zeros allowed) is the number those digits denote |
| JsNumbers.ParseInt | src/__mocks__/TestQueue.ts:55 | `parseInt` of a blank string is NaN, and a negative result means a '-' followed the leading white space |
| JsNumbers.ParseSigned | src/__mocks__/TestQueue.ts:55 | the empty string has no number, and only a leading '-' gives a negative value |
| JsNumbers.Negate | src/__mocks__/TestQueue.ts:55 | unary minus keeps NaN and maps an integer to its opposite |
| JsNumbers.ParseUnsigned | src/__mocks__/TestQueue.ts:55 | an unsigned number is NaN or non-negative, and NaN when nothing is left |
| JsNumbers.ParseDigits | src/__mocks__/TestQueue.ts:55 | NaN exactly when the string does not start with a digit of the radix; otherwise a non-negative value |
| JsNumbers.TrimStartSkips | src/__mocks__/TestQueue.ts:55 | white space in front is dropped the same way whatever follows it |
| JsNumbers.ParseIntSkipsWhiteSpace | src/__mocks__/TestQueue.ts:55 | `parseInt(w + s)` equals `parseInt(s)` for any white space `w` |
| JsNumbers.ParseIntSign | src/__mocks__/TestQueue.ts:55 | a '-' directly before the number negates what the rest parses to, and a '+' leaves it unchanged |
| JsNumbers.UnsignedUntrimmed | src/__mocks__/TestQueue.ts:55 | a string starting with neither white space nor a sign is read without a sign |
| JsNumbers.SignedUntrimmed | src/__mocks__/TestQueue.ts:55 | a sign at the very start is taken as the sign of the unsigned number after it |
| JsNumbers.ParseIntHex | src/__mocks__/TestQueue.ts:55 | after `0x` or `0X` the digits are read in radix 16 |
| JsNumbers.DigitPrefixStops | src/__mocks__/TestQueue.ts:55 | the digit run ends exactly at the end of a string of digits followed by a non-digit |
| JsNumbers.ParseIntStopsAtNonDigit | src/__mocks__/TestQueue.ts:55 | decimal digits followed by a non-digit parse to the digits' value (`parseInt('12abc') === 12`), except for a lone '0' before 'x' |
| JsNumbers.DecimalRoundTrip | src/__mocks__/TestQueue.ts:55 | the ack `get` produces is parsed by `done` back to the same id |
| JsNumbers.DecimalRoundTripAll | src/__mocks__/TestQueue.ts:67 | the round trip holds for every id, as `getError` relies on for each completed id |
| JsNumbers.DecimalInjective | src/__mocks__/TestQueue.ts:43 | distinct ids get distinct ack strings |
| TestQueueModel.Least | src/__mocks__/TestQueue.ts:42 | `Math.min(...ids)` of a non-empty id set is a member no greater than any other |
| TestQueueModel.LeastExists | src/__mocks__/TestQueue.ts:42 | every non-empty finite set of ids has a least element, so `Math.min` is defined on the visible ids |
| TestQueueModel.Smallest | src/__mocks__/TestQueue.ts:42 | the scan behind `Math.min` returns an id of the set that is at most every id in it |
| TestQueueModel.OrEmpty | src/__mocks__/TestQueue.ts:58 | `error \|\| ''`: a given error is kept, and the result is '' exactly when the error is absent or empty |
| TestQueueModel.Unleased | src/__mocks__/TestQueue.ts:39-40 | the filtered keys are stored ids; every stored id with no lease entry is in them, and no id leased with `true` is |
| TestQueueModel.TestQueue.Visible | src/__mocks__/TestQueue.ts:39-40 | under the invariant, the ids `get` may hand out are exactly the stored ids minus the leased ones |
| TestQueueModel.LeaseHidesId | src/__mocks__/TestQueue.ts:39-45 | marking a stored id leased removes exactly that id from the unleased (visible) ids |
| TestQueueModel.TestQueue.constructor | src/__mocks__/TestQueue.ts:17-24 | a new queue has `_nextId` 1 and empty maps, and satisfies the invariant |
| TestQueueModel.TestQueue.Put | src/__mocks__/TestQueue.ts:32-35 | the payload is stored under the old `_nextId`, which was free; the counter moves on by one; `_acks` and `_dones` are unchanged; the invariant is kept |
| TestQueueModel.TestQueue.Get | src/__mocks__/TestQueue.ts:37-47 | null exactly when no stored id is unleased, with no map changed; otherwise the smallest unleased id, written in decimal so that parseInt gives it back, with its payload; only that id becomes leased; `_queue`, `_dones` and `_nextId` are unchanged; the invariant is kept |
| TestQueueModel.TestQueue.Ping | src/__mocks__/TestQueue.ts:49-51 | lease renewal changes no queue state |
| TestQueueModel.TestQueue.Done | src/__mocks__/TestQueue.ts:53-59 | the id parseInt reads from the ack is removed from `_queue` and `_acks` (nothing is removed for NaN); `error \|\| ''` is recorded under that key; `getError(ack)` then returns it; the invariant is kept |
| TestQueueModel.TestQueue.Count | src/__mocks__/TestQueue.ts:61-64 | under the invariant, stored minus leased is never negative and is the number of ids `get` can still hand out |
| TestQueueModel.TestQueue.GetError | src/__mocks__/TestQueue.ts:66-69 | for the ack of any id: the error recorded when that id completed, or undefined if it never completed |
| QueueHandlerModel.CaughtMessage | src/QueueHandler.ts:126-133 | a thrown string is used verbatim; an `Error` gives its message, followed by `' ' + stack` exactly when `debug` is on and the stack is non-empty; anything else gives 'error unknown type' |
| QueueHandlerModel.QueueHandler.constructor | src/QueueHandler.ts:6-30 | a new driver has an empty log, no active item, no stop request, an empty timer slot, nothing in flight, and satisfies the invariant |
| QueueHandlerModel.QueueHandler.Log | src/QueueHandler.ts:32-35 | appends a given string, and only then, and returns the whole log |
| QueueHandlerModel.QueueHandler.Put | src/QueueHandler.ts:37-39 | forwards the payload to `queue.put`, in any state, and changes nothing else |
| QueueHandlerModel.QueueHandler.StartPooling | src/QueueHandler.ts:78-81 | throws 'share pooloing timer' with nothing changed when the slot holds a handle; otherwise arms exactly the poll timer |
| QueueHandlerModel.QueueHandler.StartPinging | src/QueueHandler.ts:99-102 | throws 'share pinging timer' with nothing changed when the slot holds a handle; otherwise arms exactly the lease timer |
| QueueHandlerModel.QueueHandler.Start | src/QueueHandler.ts:41-44 | clears any stop request, then arms the poll timer or throws when the slot is occupied; keeps the invariant |
| QueueHandlerModel.QueueHandler.CleanAndStop | src/QueueHandler.ts:56-62 | does nothing while an item with a truthy ack is unfinished or a dequeue is in flight; otherwise cancels the held timer but leaves the handle in `_timer`, and signals stop, or throws 'stop without handler' when no stop was requested |
| QueueHandlerModel.QueueHandler.Stop | src/QueueHandler.ts:46-54 | records the stop request and never throws; the stop is signalled at once exactly when no item with a truthy ack is unfinished and no dequeue is in flight; keeps the invariant |
| QueueHandlerModel.QueueHandler.PoolTimerFires | src/QueueHandler.ts:64-66 | firing the armed poll timer marks a dequeue in flight and issues one `queue.get()`; no other `get`, no `ping` and no handler run is outstanding then (a `queue.done` may be) |
| QueueHandlerModel.QueueHandler.Process | src/QueueHandler.ts:119-125 | sets the active ack to the record's, resets done to false and error to '' and changes nothing else in the item state; then arms the lease timer and calls the handler once with the record when one is installed (no call otherwise), or throws 'share pinging timer' before any handler call when the slot is occupied |
| QueueHandlerModel.QueueHandler.GetReturns | src/QueueHandler.ts:66-76 | clears the dequeue flag and the slot; a record is processed even after a stop request, so the lease timer is armed and the handler called; no record with a stop requested signals stop; otherwise the poll timer is re-armed; never throws; keeps the invariant |
| QueueHandlerModel.QueueHandler.PingTimerFires | src/QueueHandler.ts:83-87 | firing the armed lease timer throws 'nothing to ping' without a truthy ack; otherwise marks a renewal in flight and issues `queue.ping(ack)` |
| QueueHandlerModel.QueueHandler.IssueDone | src/QueueHandler.ts:104-110 | does nothing while a renewal is in flight; otherwise throws 'done with empty ack' without a truthy ack, or cancels the timer, empties the slot and issues `queue.done(ack, _processError)` |
| QueueHandlerModel.QueueHandler.PingReturns | src/QueueHandler.ts:87-96 | clears the renewal flag and the slot; re-arms the lease timer while the handler runs, and acknowledges a finished item otherwise; `queue.done` is issued only with no renewal outstanding; keeps the invariant |
| QueueHandlerModel.QueueHandler.HandlerFinishes | src/QueueHandler.ts:124-137 | only an installed handler can throw; the recorded error is '' on success and the caught message on a throw; the item is marked done; it is acknowledged at once unless a renewal is in flight, which defers it; `queue.done` is never issued while `queue.ping` is outstanding; keeps the invariant |
| QueueHandlerModel.QueueHandler.DoneReturns | src/QueueHandler.ts:110-116 | after the acknowledgement returns, a requested stop is signalled; otherwise the poll timer is re-armed, or 'share pooloing timer' is thrown when the slot is occupied; keeps the invariant |
| Scenarios.FirstItemPolled | src/QueueHandler.spec.ts:42-55 | after start, put and the first poll, exactly one `get` is in flight and item 1 sits unleased in the queue |
| Scenarios.FirstItemLeased | src/QueueHandler.spec.ts:42-64 | the first `get` leases item 1 as ack "1", the handler is invoked with it and the lease timer is armed |
| Scenarios.LeaseFirst | src/__mocks__/TestQueue.ts:37-47 | on a queue holding only unleased id 1, `get` hands out ack "1" and leases it |
| Scenarios.AcknowledgeFirst | src/__mocks__/TestQueue.ts:53-69 | `done("1", e)` on a queue holding only id 1 leaves `count()` at 0 and `getError("1")` equal to e |
| Scenarios.RenewalOutlastsHandler | src/QueueHandler.spec.ts:30-77 | a renewal still in flight when the handler succeeds holds `_done` back; the item is acknowledged with '' once the ping returns; the call order is put, get, handler, ping, done; count is 0 and getError('1') is '' |
| Scenarios.QuickFailingHandler | src/QueueHandler.spec.ts:79-121 | a handler that throws `Error('error for testerr')` before any renewal gets its item acknowledged at once with a message starting with that text (exactly it with debug off); the next poll is armed |
| Scenarios.RenewalBeforeHandlerEnds | src/QueueHandler.spec.ts:123-173 | a renewal that returns while the handler runs re-arms the lease timer; the item is acknowledged with '' when the handler ends |
| Scenarios.StopWhileIdleThenRestart | src/QueueHandler.ts:56-62 | stop while idle signals at once with no poll; a later start, and a second start while the poll timer is armed, throw 'share pooloing timer' |
| Scenarios.StopWhileProcessing | src/QueueHandler.ts:111-116 | stop during the handler run is signalled only after the acknowledgement returns, in place of the next poll; the slot is then empty, so a later start succeeds |
| Scenarios.StartWhileAcknowledging | src/QueueHandler.ts:104-117 | a start while `queue.done` is in flight succeeds; the next item is dequeued and processed, and its `queue.ping` is outstanding together with the first `queue.done` |
| Scenarios.LeaseSecond | src/__mocks__/TestQueue.ts:37-47 | with id 1 leased and id 2 stored, `get` hands out ack "2" |
| Scenarios.StopWhileAcknowledging | src/QueueHandler.ts:57-61 | stop while `queue.done` is in flight signals at once, and again when the acknowledgement returns |
| Scenarios.StopWhileRenewing | src/QueueHandler.ts:57-61 | a stop after the handler finished while a renewal is in flight is signalled at once, with the ping outstanding and no `queue.done` issued yet |
| Scenarios.StopWhileDequeuingItem | src/QueueHandler.ts:64-70 | a record dequeued after a stop request is still processed |
| Scenarios.StopWhileDequeuingNothing | src/QueueHandler.ts:71-72 | an empty dequeue after a stop request signals the stop |
| Scenarios.QueueLeasesInOrder | src/__mocks__/TestQueue.ts:37-47 | items are leased smallest id first, and an exhausted queue answers null |
| Scenarios.QueueCompletesWithoutError | src/__mocks__/TestQueue.ts:53-69 | completing ack "1" with no error records '' for id 1 only and removes the item |

## Left out

- Real time is not modelled: `setTimeout` delays, the interval conversions in the constructor, and `TestQueue.delay` with its `quantDuration`. A timer firing is an event enabled only while its handle is pending, and time is only the order of events.
- Promise and `async` machinery is not modelled, including the stop promise. Each `await` is split into an issue event and a completion event. The stop promise is modelled as `StopSignalled` effects; resolving it twice is harmless in JavaScript.
- The user handler's body is not modelled. Its outcome is `Returned`, or `Threw` with a string, an `Error` (message and optional stack) or another value. Stack contents are opaque strings.
- The handler is installed or absent (`hasHandler`); its type `QueueHandlerFunction` and the `IQueue` interface declare no behaviour and are not part of this model.
- Rejected queue calls are not modelled, because the code has no handling for them. Likewise, a throw from a method the driver calls without awaiting (`_process` from `_pool`, `_done` from `_ping`) only rejects that promise. The model returns it as a `Fatal` status and the caller's state is unaffected.
- QueueHandlerModel.QueueHandler.Log: the diagnostic messages the driver writes into `_log` (`ping start ...`, `done finish ...`) are not recorded by the event methods; only `log(str?)` itself is modelled.
- JsNumbers.ToDecimal: ids are unbounded integers. IEEE-754 precision loss above 2^53, and the exponent notation `toString` uses from 1e21 on, are not modelled; ids stay far below that in any run.
- JsNumbers.ParseInt: the value is exact. Rounding a long digit run to the nearest double is not modelled, and neither is the optional radix argument, which the queue never passes.
- TestQueueModel.TestQueue.Done: `parseInt` results are exact integers or NaN. The map keys are these values rather than the strings JavaScript uses as property names; the two agree for the integers `toString` writes.
- TestQueueModel.TestQueue.Count: its value is stated only under the class invariant, which every operation keeps. Outside it, `count` is still stored minus leased, but the model says nothing about that value.
- Each `stop()` installs a new `_stopHandler` (src/QueueHandler.ts:48), so the promise of an earlier `stop()` that is still waiting is never resolved. The model records only that a stop is requested (`stopHandler`) and the `StopSignalled` effects; it does not say which `stop()` call a signal resolves.
- The options object (`QueueHandlerOptions`, `TestQueueOptions`) is not modelled beyond `debug`. The other options are durations.
