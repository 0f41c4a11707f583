/**
 * The driver run against the in-memory queue, one event at a time, in the
 * orders the driver's tests observe, plus the stop and restart orders the
 * flags allow. Time is only the order of events.
 */
module Scenarios {
  import opened Records
  import opened JsNumbers
  import opened TestQueueModel
  import opened QueueHandlerModel

  /** Start, an item put, and the poll timer fires: `get` is in flight. */
  method FirstItemPolled(payload: string, debug: bool) returns (qh: QueueHandler<string>, q: TestQueue<string>)
    ensures fresh(qh) && fresh(q) && qh.Valid() && q.Valid() && qh.debug == debug && qh.hasHandler
    ensures qh.State() == Snapshot([], false, "", None, false, PoolTimer, false, true, false, 1, 0, 0, 0,
                                   [Enqueue(payload), Get])
    ensures q.nextId == 2 && q.queue == map[1 := payload] && q.acks == map[] && q.dones == map[]
    ensures q.Visible() == {1}
  {
    q := new TestQueue<string>();
    qh := new QueueHandler<string>(debug, true);
    var status := qh.Start();
    qh.Put(payload);
    q.Put(payload);
    qh.PoolTimerFires();
    assert q.Visible() == {1};
  }

  /**
   * The opening every single-item run shares: start, an item put, the poll
   * timer fires, `get` leases id 1 and the driver starts processing it.
   */
  method FirstItemLeased(payload: string, debug: bool) returns (qh: QueueHandler<string>, q: TestQueue<string>)
    ensures fresh(qh) && fresh(q) && qh.Valid() && q.Valid() && qh.debug == debug && qh.hasHandler
    ensures qh.State() == Snapshot([], false, "", Some("1"), false, PingTimer, true, false, false, 0, 0, 0, 1,
                                   [Enqueue(payload), Get, Invoke(QueueRecord("1", payload))])
    ensures q.nextId == 2 && q.queue == map[1 := payload] && q.acks == map[1 := true] && q.dones == map[]
  {
    qh, q := FirstItemPolled(payload, debug);
    var record := LeaseFirst(q, payload);
    var status := qh.GetReturns(record);
  }

  /** `get` on a queue holding only id 1, unleased: hands out ack "1". */
  method LeaseFirst(q: TestQueue<string>, payload: string) returns (record: Option<QueueRecord<string>>)
    requires q.Valid() && q.queue == map[1 := payload] && q.acks == map[]
    modifies q
    ensures q.Valid() && record == Some(QueueRecord("1", payload))
    ensures q.queue == map[1 := payload] && q.acks == map[1 := true]
    ensures q.nextId == old(q.nextId) && q.dones == old(q.dones)
  {
    assert q.Visible() == {1};
    record := q.Get();
  }

  /**
   * `done("1", error)` on a queue holding only id 1, then `count()` and
   * `getError("1")`.
   */
  method AcknowledgeFirst(q: TestQueue<string>, error: string)
    returns (recorded: Option<string>, count: int)
    requires q.Valid() && q.queue.Keys == {1} && q.acks.Keys <= {1}
    modifies q
    ensures q.Valid() && recorded == Some(error) && count == 0
    ensures q.dones == old(q.dones)[Int(1) := error]
  {
    assert ToDecimal(1) == "1";
    DecimalRoundTrip(1);
    q.Done("1", Some(error));
    assert q.Visible() == {};
    count := q.Count();
    recorded := q.GetError("1");
  }

  /**
   * One item, the lease timer fires before the handler succeeds, and the
   * renewal is still in flight when it does: `_done` is skipped, then runs
   * when the renewal returns, and the item is acknowledged with ''.
   */
  method RenewalOutlastsHandler() returns (effects: seq<Effect<string>>, heldBack: bool,
                                            error: Option<string>, count: int)
    ensures effects == [Enqueue("first"), Get, Invoke(QueueRecord("1", "first")), Ping("1"),
                        Done("1", ""), StopSignalled]
    ensures heldBack
    ensures error == Some("") && count == 0
  {
    var qh, q := FirstItemLeased("first", false);
    var status := qh.PingTimerFires();
    q.Ping("1");
    status := qh.HandlerFinishes(Returned);
    heldBack := qh.pendingDones == 0;
    status := qh.PingReturns();
    error, count := AcknowledgeFirst(q, qh.processError);
    status := qh.DoneReturns();
    status := qh.Stop();
    effects := qh.effects;
  }

  /**
   * The handler throws an `Error` before the lease timer fires: the item is
   * acknowledged at once with the message, the timer is cancelled and the
   * next poll is armed. With `debug` off the recorded error is the message.
   */
  method QuickFailingHandler(debug: bool, stack: Option<string>)
    returns (effects: seq<Effect<string>>, error: Option<string>, count: int, rearmed: bool)
    ensures var message := "error for testerr" + (if debug && Truthy(stack) then " " + stack.value else "");
      effects == [Enqueue("testerr"), Get, Invoke(QueueRecord("1", "testerr")), Done("1", message)]
      && error == Some(message)
    ensures error.Some? && "error for testerr" <= error.value
    ensures !debug ==> error == Some("error for testerr")
    ensures count == 0 && rearmed
  {
    var qh, q := FirstItemLeased("testerr", debug);
    var status := qh.HandlerFinishes(Threw(ThrownError("error for testerr", stack)));
    error, count := AcknowledgeFirst(q, qh.processError);
    status := qh.DoneReturns();
    rearmed := qh.timer == PoolTimer && qh.timerPending;
    effects := qh.effects;
  }

  /**
   * A renewal returns while the handler still runs, so the lease timer is
   * armed again; the handler then finishes, the pending timer is cancelled
   * and the item acknowledged.
   */
  method RenewalBeforeHandlerEnds() returns (effects: seq<Effect<string>>, rearmed: bool,
                                              error: Option<string>, count: int)
    ensures effects == [Enqueue("result"), Get, Invoke(QueueRecord("1", "result")), Ping("1"),
                        Done("1", ""), StopSignalled]
    ensures rearmed
    ensures error == Some("") && count == 0
  {
    var qh, q := FirstItemLeased("result", false);
    var status := qh.PingTimerFires();
    q.Ping("1");
    status := qh.PingReturns();
    rearmed := qh.timer == PingTimer && qh.timerPending;
    status := qh.HandlerFinishes(Returned);
    error, count := AcknowledgeFirst(q, qh.processError);
    status := qh.DoneReturns();
    status := qh.Stop();
    effects := qh.effects;
  }

  /**
   * Stop while idle: the armed poll timer is cancelled and the stop signal
   * fires without any poll; `_timer` still holds the cancelled handle, so a
   * later `start()` throws, as does a second `start()` while the poll timer
   * is armed.
   */
  method StopWhileIdleThenRestart() returns (effects: seq<Effect<string>>, restart: Status,
                                              twice: Status)
    ensures effects == [StopSignalled]
    ensures restart == Fatal("share pooloing timer")
    ensures twice == Fatal("share pooloing timer")
  {
    var first := new QueueHandler<string>(false, true);
    var status := first.Start();
    twice := first.Start();
    var qh := new QueueHandler<string>(false, true);
    status := qh.Start();
    status := qh.Stop();
    restart := qh.Start();
    effects := qh.effects;
  }

  /**
   * Stop while the handler runs: nothing is signalled until the item is
   * acknowledged; then the stop signal fires instead of the next poll. `_done`
   * emptied the slot, so a later `start()` arms a poll again.
   */
  method StopWhileProcessing() returns (effects: seq<Effect<string>>, deferred: bool, idle: bool,
                                        restart: Status)
    ensures effects == [Enqueue("x"), Get, Invoke(QueueRecord("1", "x")), Done("1", ""), StopSignalled]
    ensures deferred && idle && restart == Ok
  {
    var qh, q := FirstItemLeased("x", false);
    var status := qh.Stop();
    deferred := StopSignalled !in qh.effects;
    status := qh.HandlerFinishes(Returned);
    var error, count := AcknowledgeFirst(q, qh.processError);
    status := qh.DoneReturns();
    idle := qh.timer == NoTimer && !qh.timerPending;
    effects := qh.effects;
    restart := qh.Start();
  }

  /**
   * `start()` while `queue.done` is in flight: `_done` emptied the slot, so a
   * poll is armed and the next item is dequeued, processed and renewed while
   * the first acknowledgement is still outstanding. `queue.ping` and
   * `queue.done` are then in flight together.
   */
  method StartWhileAcknowledging() returns (effects: seq<Effect<string>>, restart: Status,
                                            overlap: bool)
    ensures restart == Ok && overlap
    ensures effects == [Enqueue("x"), Get, Invoke(QueueRecord("1", "x")), Done("1", ""),
                        Enqueue("y"), Get, Invoke(QueueRecord("2", "y")), Ping("2")]
  {
    var qh, q := FirstItemLeased("x", false);
    var status := qh.HandlerFinishes(Returned);
    qh.Put("y");
    q.Put("y");
    restart := qh.Start();
    qh.PoolTimerFires();
    var record := LeaseSecond(q, "x", "y");
    status := qh.GetReturns(record);
    status := qh.PingTimerFires();
    overlap := qh.pendingDones == 1 && qh.pendingPings == 1;
    effects := qh.effects;
  }

  /** `get` on a queue holding leased id 1 and unleased id 2: hands out ack "2". */
  method LeaseSecond(q: TestQueue<string>, first: string, second: string)
    returns (record: Option<QueueRecord<string>>)
    requires q.Valid() && q.queue == map[1 := first, 2 := second] && q.acks == map[1 := true]
    modifies q
    ensures q.Valid() && record == Some(QueueRecord("2", second))
  {
    assert q.Visible() == {2};
    assert ToDecimal(2) == "2";
    record := q.Get();
  }

  /**
   * Stop while `queue.done` is in flight: the handler is finished, so the
   * signal fires at once, and fires again when the acknowledgement returns.
   */
  method StopWhileAcknowledging() returns (effects: seq<Effect<string>>, inFlight: bool)
    ensures effects == [Enqueue("x"), Get, Invoke(QueueRecord("1", "x")), Done("1", ""),
                        StopSignalled, StopSignalled]
    ensures inFlight
  {
    var qh, q := FirstItemLeased("x", false);
    var status := qh.HandlerFinishes(Returned);
    status := qh.Stop();
    inFlight := qh.pendingDones == 1;
    var error, count := AcknowledgeFirst(q, qh.processError);
    status := qh.DoneReturns();
    effects := qh.effects;
  }

  /**
   * Stop after the handler finished while a renewal is in flight: `_done` was
   * skipped, but `_cleanAndStop` looks only at `_processDone`, so the stop is
   * signalled before `queue.done` is even issued.
   */
  method StopWhileRenewing() returns (effects: seq<Effect<string>>, pings: nat, dones: nat)
    ensures effects == [Enqueue("x"), Get, Invoke(QueueRecord("1", "x")), Ping("1"), StopSignalled]
    ensures pings == 1 && dones == 0
  {
    var qh, q := FirstItemLeased("x", false);
    var status := qh.PingTimerFires();
    status := qh.HandlerFinishes(Returned);
    status := qh.Stop();
    pings, dones := qh.pendingPings, qh.pendingDones;
    effects := qh.effects;
  }

  /**
   * Stop while a dequeue is in flight: the signal waits for `get`, and a
   * record that arrives is still processed.
   */
  method StopWhileDequeuingItem() returns (effects: seq<Effect<string>>)
    ensures effects == [Enqueue("x"), Get, Invoke(QueueRecord("1", "x"))]
  {
    var qh, q := FirstItemPolled("x", false);
    var status := qh.Stop();
    var record := LeaseFirst(q, "x");
    status := qh.GetReturns(record);
    effects := qh.effects;
  }

  /** Stop while a dequeue is in flight on an empty queue: `get` answers None and the stop is signalled. */
  method StopWhileDequeuingNothing() returns (effects: seq<Effect<string>>)
    ensures effects == [Get, StopSignalled]
  {
    var q := new TestQueue<string>();
    var qh := new QueueHandler<string>(false, true);
    var status := qh.Start();
    qh.PoolTimerFires();
    status := qh.Stop();
    assert q.Visible() == {};
    var record := q.Get();
    status := qh.GetReturns(record);
    effects := qh.effects;
  }

  /** The queue alone: ids are handed out smallest first, and an exhausted queue answers None. */
  method QueueLeasesInOrder() returns (first: Option<QueueRecord<string>>,
                                       second: Option<QueueRecord<string>>,
                                       third: Option<QueueRecord<string>>)
    ensures first == Some(QueueRecord("1", "a")) && second == Some(QueueRecord("2", "b"))
    ensures third == None
  {
    var q := new TestQueue<string>();
    q.Put("a");
    q.Put("b");
    ghost var visible := q.Visible();
    assert visible == {1, 2};
    assert Least(visible) == 1 by {
      assert Least(visible) <= 1;
    }
    first := q.Get();
    assert q.Visible() == {2};
    second := q.Get();
    assert q.Visible() == {};
    third := q.Get();
  }

  /** Completing the unleased ack "1" records '' for id 1 only and removes the item. */
  method QueueCompletesWithoutError() returns (error1: Option<string>, error2: Option<string>, count: int)
    ensures error1 == Some("") && error2 == None && count == 0
  {
    var q := new TestQueue<string>();
    q.Put("a");
    error1, count := AcknowledgeFirst(q, "");
    assert ToDecimal(2) == "2";
    error2 := q.GetError("2");
  }
}
