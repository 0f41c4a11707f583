/**
 * The consumer-side driver: a timer-driven cycle of dequeue, handler run,
 * lease renewal and acknowledgement, kept in a handful of flags.
 *
 * Every `async` method of the driver runs up to its one `await` and resumes
 * later; here the part before the await is one method (an event such as
 * `PoolTimerFires`) and the part after it another (`GetReturns`). Which
 * awaits are outstanding is kept in the counters `pendingGets`,
 * `pendingPings`, `pendingDones` and `runningHandlers`, and every queue
 * call, handler call and stop signal is appended to `effects`. A thrown
 * error is a `Fatal` status; the fields keep what the code had assigned
 * before the throw.
 */
module QueueHandlerModel {
  import opened Records

  /** What `_timer` holds: nothing, or the handle of a poll or a lease timer. */
  datatype Slot = NoTimer | PoolTimer | PingTimer

  /** Normal completion, or the message of a thrown `Error`. */
  datatype Status = Ok | Fatal(message: string)

  /** A value the handler throws: a string, an `Error`, or anything else. */
  datatype Thrown =
    | ThrownString(text: string)
    | ThrownError(message: string, stack: Option<string>)
    | ThrownOther

  /** How the handler's promise settles. */
  datatype HandlerOutcome = Returned | Threw(thrown: Thrown)

  /** What the driver does to the outside world, in order. */
  datatype Effect<P> =
    | Enqueue(payload: P)                  // queue.put(payload)
    | Get                                  // queue.get()
    | Invoke(record: QueueRecord<P>)       // handler({ack, payload})
    | Ping(ack: string)                    // queue.ping(ack)
    | Done(ack: string, error: string)     // queue.done(ack, error)
    | StopSignalled                        // the stop handler is called

  /** JavaScript truthiness of an optional string: present and not ''. */
  predicate Truthy(s: Option<string>) {
    s.Some? && s.value != ""
  }

  /**
   * The message recorded for a thrown value: a string verbatim, an `Error`'s
   * message followed by ' ' and its stack when `debug` is on and the stack is
   * not empty, and 'error unknown type' for anything else.
   */
  function CaughtMessage(e: Thrown, debug: bool): (r: string)
    ensures e.ThrownString? ==> r == e.text
    ensures e.ThrownError? ==> e.message <= r
    ensures e.ThrownError? ==> (r == e.message <==> !(debug && Truthy(e.stack)))
    ensures e.ThrownError? && debug && Truthy(e.stack) ==> r[|e.message|..] == " " + e.stack.value
    ensures e.ThrownOther? ==> r == "error unknown type"
  {
    match e
    case ThrownString(text) => text
    case ThrownError(message, stack) =>
      message + (if debug && Truthy(stack) then " " + stack.value else "")
    case ThrownOther => "error unknown type"
  }

  /** The driver's fields and outstanding awaits, as one value. */
  datatype Snapshot<P> = Snapshot(
    log: seq<string>,
    processDone: bool,
    processError: string,
    processAck: Option<string>,
    stopHandler: bool,
    timer: Slot,
    timerPending: bool,
    poolingProcess: bool,
    pingingProcess: bool,
    pendingGets: nat,
    pendingPings: nat,
    pendingDones: nat,
    runningHandlers: nat,
    effects: seq<Effect<P>>)

  class QueueHandler<P> {
    const debug: bool                 // opts.debug
    const hasHandler: bool            // a handler was given to the constructor
    var log: seq<string>              // _log
    var processDone: bool             // _processDone
    var processError: string          // _processError
    var processAck: Option<string>    // _processAck
    var stopHandler: bool             // _stopHandler is set
    var timer: Slot                   // _timer
    var timerPending: bool            // the handle in _timer has neither fired nor been cleared
    var poolingProcess: bool          // _poolingProcess
    var pingingProcess: bool          // _pingingProcess
    var pendingGets: nat              // queue.get calls not yet returned
    var pendingPings: nat             // queue.ping calls not yet returned
    var pendingDones: nat             // queue.done calls not yet returned
    var runningHandlers: nat          // handler runs not yet settled
    var effects: seq<Effect<P>>

    function State(): Snapshot<P>
      reads this
    {
      Snapshot(log, processDone, processError, processAck, stopHandler, timer, timerPending,
               poolingProcess, pingingProcess, pendingGets, pendingPings, pendingDones,
               runningHandlers, effects)
    }

    /**
     * The states the event methods keep: only a held handle can be pending;
     * a dequeue in flight holds the fired poll timer, a renewal in flight the
     * fired lease timer; at most one dequeue, one renewal and one handler run
     * are outstanding, and a running handler holds the lease timer and its
     * item's ack, is not yet marked done and has no error recorded.
     */
    ghost predicate Valid()
      reads this
    {
      && (timerPending ==> timer != NoTimer)
      && poolingProcess == (pendingGets > 0) && pendingGets <= 1
      && pingingProcess == (pendingPings > 0) && pendingPings <= 1
      && (pendingGets > 0 ==> timer == PoolTimer && !timerPending)
      && (pendingPings > 0 ==> timer == PingTimer && !timerPending)
      && runningHandlers <= 1
      && (runningHandlers > 0 ==> timer == PingTimer && !processDone && processAck.Some?)
      && (runningHandlers > 0 ==> processError == "")
    }

    constructor (debug: bool, hasHandler: bool)
      ensures Valid()
      ensures this.debug == debug && this.hasHandler == hasHandler
      ensures State() == Snapshot([], false, "", None, false, NoTimer, false, false, false, 0, 0, 0, 0, [])
    {
      this.debug := debug;
      this.hasHandler := hasHandler;
      log := [];
      processDone := false;
      processError := "";
      processAck := None;
      stopHandler := false;
      timer := NoTimer;
      timerPending := false;
      poolingProcess := false;
      pingingProcess := false;
      pendingGets, pendingPings, pendingDones, runningHandlers := 0, 0, 0, 0;
      effects := [];
    }

    /** `log(str?)`: appends a given string and returns the whole log. */
    method Log(str: Option<string>) returns (r: seq<string>)
      modifies this
      ensures r == log
      ensures State() == old(State()).(log := if str.Some? then old(log) + [str.value] else old(log))
    {
      if str.Some? {
        log := log + [str.value];
      }
      r := log;
    }

    /** `put(payload)`: forwards to `queue.put`, whatever state the driver is in. */
    method Put(payload: P)
      requires Valid()
      modifies this
      ensures Valid()
      ensures State() == old(State()).(effects := old(effects) + [Enqueue(payload)])
    {
      effects := effects + [Enqueue(payload)];
    }

    /** `_startPooling`: arms the poll timer, or throws when `_timer` holds a handle. */
    method StartPooling() returns (status: Status)
      modifies this
      ensures old(timer) == NoTimer ==>
        status == Ok && State() == old(State()).(timer := PoolTimer, timerPending := true)
      ensures old(timer) != NoTimer ==>
        status == Fatal("share pooloing timer") && State() == old(State())
    {
      if timer != NoTimer {
        return Fatal("share pooloing timer");
      }
      timer, timerPending := PoolTimer, true;
      status := Ok;
    }

    /** `_startPinging`: arms the lease timer, or throws when `_timer` holds a handle. */
    method StartPinging() returns (status: Status)
      modifies this
      ensures old(timer) == NoTimer ==>
        status == Ok && State() == old(State()).(timer := PingTimer, timerPending := true)
      ensures old(timer) != NoTimer ==>
        status == Fatal("share pinging timer") && State() == old(State())
    {
      if timer != NoTimer {
        return Fatal("share pinging timer");
      }
      timer, timerPending := PingTimer, true;
      status := Ok;
    }

    /** `start()`: forgets a stop request and arms the poll timer. */
    method Start() returns (status: Status)
      requires Valid()
      modifies this
      ensures Valid()
      ensures old(timer) == NoTimer ==>
        status == Ok &&
        State() == old(State()).(stopHandler := false, timer := PoolTimer, timerPending := true)
      ensures old(timer) != NoTimer ==>
        status == Fatal("share pooloing timer") &&
        State() == old(State()).(stopHandler := false)
    {
      stopHandler := false;
      status := StartPooling();
    }

    /**
     * `_cleanAndStop`: while an item with a truthy ack is unfinished, or a
     * dequeue is in flight, does nothing; otherwise cancels the held timer
     * (leaving the handle in `_timer`) and calls the stop handler, throwing
     * when there is none.
     */
    method CleanAndStop() returns (status: Status)
      modifies this
      ensures (Truthy(old(processAck)) && !old(processDone)) || old(poolingProcess) ==>
        status == Ok && State() == old(State())
      ensures !(Truthy(old(processAck)) && !old(processDone)) && !old(poolingProcess) ==>
        if old(stopHandler) then
          status == Ok &&
          State() == old(State()).(timerPending := false, effects := old(effects) + [StopSignalled])
        else
          status == Fatal("stop without handler") && State() == old(State()).(timerPending := false)
    {
      if Truthy(processAck) && !processDone {
        return Ok;
      }
      if poolingProcess {
        return Ok;
      }
      timerPending := false;
      if !stopHandler {
        return Fatal("stop without handler");
      }
      effects := effects + [StopSignalled];
      status := Ok;
    }

    /**
     * `stop()`: records the stop request, then tries to stop at once. The
     * handler is set first, so 'stop without handler' cannot be thrown; the
     * signal waits while an item is unfinished or a dequeue is in flight.
     */
    method Stop() returns (status: Status)
      requires Valid()
      modifies this
      ensures Valid() && status == Ok
      ensures (Truthy(old(processAck)) && !old(processDone)) || old(poolingProcess) ==>
        State() == old(State()).(stopHandler := true)
      ensures !(Truthy(old(processAck)) && !old(processDone)) && !old(poolingProcess) ==>
        State() == old(State()).(stopHandler := true, timerPending := false,
                                 effects := old(effects) + [StopSignalled])
    {
      stopHandler := true;
      status := CleanAndStop();
    }

    /** `_pool` up to its await: issues `queue.get()`. */
    method PoolTimerFires()
      requires Valid() && timer == PoolTimer && timerPending
      modifies this
      ensures Valid()
      ensures old(pendingGets) == 0 && old(pendingPings) == 0 && old(runningHandlers) == 0
      ensures State() == old(State()).(timerPending := false, poolingProcess := true,
                                       pendingGets := 1, effects := old(effects) + [Get])
    {
      timerPending := false;
      poolingProcess := true;
      pendingGets := pendingGets + 1;
      effects := effects + [Get];
    }

    /** The handler call `_process` makes: none when no handler is installed. */
    function Invocation(record: QueueRecord<P>): seq<Effect<P>>
    {
      if hasHandler then [Invoke(record)] else []
    }

    /**
     * `_process` up to its await: makes `record` the active item with no
     * outcome yet, arms the lease timer and starts the handler.
     */
    method Process(record: QueueRecord<P>) returns (status: Status)
      modifies this
      ensures old(timer) == NoTimer ==>
        status == Ok &&
        State() == old(State()).(processAck := Some(record.ack), processDone := false,
                                 processError := "", timer := PingTimer, timerPending := true,
                                 runningHandlers := old(runningHandlers) + 1,
                                 effects := old(effects) + Invocation(record))
      ensures old(timer) != NoTimer ==>
        status == Fatal("share pinging timer") &&
        State() == old(State()).(processAck := Some(record.ack), processDone := false,
                                 processError := "")
    {
      processAck, processDone, processError := Some(record.ack), false, "";
      status := StartPinging();
      if status == Ok {
        runningHandlers, effects := runningHandlers + 1, effects + Invocation(record);
      }
    }

    /**
     * `_pool` after `queue.get()` returns: empties the timer slot; processes
     * a record (even when a stop was requested); without one, signals a
     * requested stop or arms the next poll.
     */
    method GetReturns(record: Option<QueueRecord<P>>) returns (status: Status)
      requires Valid() && pendingGets > 0
      modifies this
      ensures Valid() && status == Ok
      ensures old(runningHandlers) == 0 && old(pendingPings) == 0
      ensures record.Some? ==>
        State() == old(State()).(pendingGets := 0, poolingProcess := false,
                                 processAck := Some(record.value.ack), processDone := false,
                                 processError := "", timer := PingTimer, timerPending := true,
                                 runningHandlers := 1,
                                 effects := old(effects) + Invocation(record.value))
      ensures record.None? && old(stopHandler) ==>
        State() == old(State()).(pendingGets := 0, poolingProcess := false, timer := NoTimer,
                                 effects := old(effects) + [StopSignalled])
      ensures record.None? && !old(stopHandler) ==>
        State() == old(State()).(pendingGets := 0, poolingProcess := false, timer := PoolTimer,
                                 timerPending := true)
    {
      pendingGets := pendingGets - 1;
      poolingProcess := false;
      timer := NoTimer;
      if record.Some? {
        status := Process(record.value);
      } else if stopHandler {
        effects := effects + [StopSignalled];
        status := Ok;
      } else {
        status := StartPooling();
      }
    }

    /** `_ping` up to its await: issues `queue.ping(ack)`, or throws without a truthy ack. */
    method PingTimerFires() returns (status: Status)
      requires Valid() && timer == PingTimer && timerPending
      modifies this
      ensures Valid()
      ensures old(pendingPings) == 0 && old(pendingGets) == 0
      ensures Truthy(old(processAck)) ==>
        status == Ok &&
        State() == old(State()).(timerPending := false, pingingProcess := true, pendingPings := 1,
                                 effects := old(effects) + [Ping(old(processAck).value)])
      ensures !Truthy(old(processAck)) ==>
        status == Fatal("nothing to ping") &&
        State() == old(State()).(timerPending := false)
    {
      timerPending := false;
      if !Truthy(processAck) {
        return Fatal("nothing to ping");
      }
      pingingProcess := true;
      pendingPings := pendingPings + 1;
      effects := effects + [Ping(processAck.value)];
      status := Ok;
    }

    /**
     * `_done` up to its await: does nothing while a renewal is in flight;
     * otherwise throws without a truthy ack, or cancels the held timer,
     * empties the slot and issues `queue.done(ack, _processError)`.
     */
    method IssueDone() returns (status: Status)
      requires timerPending ==> timer != NoTimer
      modifies this
      ensures old(pingingProcess) ==>
        status == Ok && State() == old(State())
      ensures !old(pingingProcess) && !Truthy(old(processAck)) ==>
        status == Fatal("done with empty ack") && State() == old(State())
      ensures !old(pingingProcess) && Truthy(old(processAck)) ==>
        status == Ok &&
        State() == old(State()).(timer := NoTimer, timerPending := false,
                                 pendingDones := old(pendingDones) + 1,
                                 effects := old(effects) + [Done(old(processAck).value, old(processError))])
    {
      if pingingProcess {
        return Ok;
      }
      if !Truthy(processAck) {
        return Fatal("done with empty ack");
      }
      if timer != NoTimer {
        timerPending := false;
      }
      timer := NoTimer;
      pendingDones := pendingDones + 1;
      effects := effects + [Done(processAck.value, processError)];
      status := Ok;
    }

    /**
     * `_ping` after `queue.ping` returns: clears the renewal flag and the
     * slot, then acknowledges a finished item or re-arms the lease timer.
     * `queue.done` is issued only with no renewal outstanding.
     */
    method PingReturns() returns (status: Status)
      requires Valid() && pendingPings > 0
      modifies this
      ensures Valid()
      ensures pendingDones > old(pendingDones) ==> pendingPings == 0
      ensures !old(processDone) ==>
        status == Ok &&
        State() == old(State()).(pendingPings := 0, pingingProcess := false,
                                 timer := PingTimer, timerPending := true)
      ensures old(processDone) && Truthy(old(processAck)) ==>
        status == Ok && old(runningHandlers) == 0 &&
        State() == old(State()).(pendingPings := 0, pingingProcess := false,
                                 timer := NoTimer, timerPending := false,
                                 pendingDones := old(pendingDones) + 1,
                                 effects := old(effects) + [Done(old(processAck).value, old(processError))])
      ensures old(processDone) && !Truthy(old(processAck)) ==>
        status == Fatal("done with empty ack") &&
        State() == old(State()).(pendingPings := 0, pingingProcess := false, timer := NoTimer)
    {
      pendingPings := pendingPings - 1;
      pingingProcess := false;
      timer := NoTimer;
      if processDone {
        status := IssueDone();
      } else {
        status := StartPinging();
      }
    }

    /**
     * `_process` after the handler settles: records the caught message (a
     * normal return leaves the '' that `_process` set), marks the item done
     * and runs `_done`, which waits for an outstanding renewal. Without a
     * handler the awaited value is `undefined`, which cannot throw.
     */
    method HandlerFinishes(outcome: HandlerOutcome) returns (status: Status)
      requires Valid() && runningHandlers > 0
      requires hasHandler || outcome == Returned
      modifies this
      ensures Valid()
      ensures pendingDones > old(pendingDones) ==> pendingPings == 0
      ensures processDone && runningHandlers == 0
      ensures processError == if outcome.Threw? then CaughtMessage(outcome.thrown, debug) else ""
      ensures old(pingingProcess) ==>
        status == Ok &&
        State() == old(State()).(runningHandlers := 0, processDone := true, processError := processError)
      ensures !old(pingingProcess) && !Truthy(old(processAck)) ==>
        status == Fatal("done with empty ack") &&
        State() == old(State()).(runningHandlers := 0, processDone := true, processError := processError)
      ensures !old(pingingProcess) && Truthy(old(processAck)) ==>
        status == Ok &&
        State() == old(State()).(runningHandlers := 0, processDone := true, processError := processError,
                                 timer := NoTimer, timerPending := false,
                                 pendingDones := old(pendingDones) + 1,
                                 effects := old(effects) + [Done(old(processAck).value, processError)])
    {
      runningHandlers := runningHandlers - 1;
      if outcome.Threw? {
        processError := CaughtMessage(outcome.thrown, debug);
      }
      processDone := true;
      status := IssueDone();
    }

    /**
     * `_done` after `queue.done` returns: signals a requested stop, or arms
     * the next poll (throwing when `_timer` already holds a handle).
     */
    method DoneReturns() returns (status: Status)
      requires Valid() && pendingDones > 0
      modifies this
      ensures Valid()
      ensures old(stopHandler) ==>
        status == Ok &&
        State() == old(State()).(pendingDones := old(pendingDones) - 1,
                                 effects := old(effects) + [StopSignalled])
      ensures !old(stopHandler) && old(timer) == NoTimer ==>
        status == Ok &&
        State() == old(State()).(pendingDones := old(pendingDones) - 1,
                                 timer := PoolTimer, timerPending := true)
      ensures !old(stopHandler) && old(timer) != NoTimer ==>
        status == Fatal("share pooloing timer") &&
        State() == old(State()).(pendingDones := old(pendingDones) - 1)
    {
      pendingDones := pendingDones - 1;
      if stopHandler {
        effects := effects + [StopSignalled];
        status := Ok;
      } else {
        status := StartPooling();
      }
    }
  }
}
