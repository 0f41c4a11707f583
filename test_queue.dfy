/**
 * The in-memory lease queue used by the driver's tests: stored payloads by
 * id, the set of leased ids, the recorded completion errors, and the next id
 * to hand out. Acks are ids written in decimal and read back with parseInt.
 */
module TestQueueModel {
  import opened Records
  import opened JsNumbers

  /** `error || ''` for an optional error string. */
  function OrEmpty(error: Option<string>): (r: string)
    ensures error.Some? ==> r == error.value
    ensures r == "" <==> error.None? || error.value == ""
  {
    if error.Some? then error.value else ""
  }

  /** The least element of a non-empty finite set of ids (`Math.min(...)`). */
  ghost function Least(s: set<int>): (m: int)
    requires s != {}
    ensures m in s && forall k :: k in s ==> m <= k
  {
    LeastExists(s);
    var m :| m in s && forall k :: k in s ==> m <= k; m
  }

  lemma HasElement(s: set<int>)
    requires s != {}
    ensures exists x :: x in s
  {
    if forall x :: x !in s {
      assert false;
    }
  }

  lemma {:induction false} LeastExists(s: set<int>)
    requires s != {}
    ensures exists m :: m in s && forall k :: k in s ==> m <= k
  {
    HasElement(s);
    var x :| x in s;
    if s != {x} {
      LeastExists(s - {x});
      var m :| m in s - {x} && forall k :: k in s - {x} ==> m <= k;
      var least := if x < m then x else m;
      forall k | k in s
        ensures least <= k
      {
        if k != x {
          assert k in s - {x};
        }
      }
    } else {
      assert forall k :: k in s ==> x <= k;
    }
  }

  /** `Math.min(...ids)`: a scan that keeps the smallest id seen so far. */
  method Smallest(ids: set<int>) returns (m: int)
    requires ids != {}
    ensures m in ids && forall k :: k in ids ==> m <= k
  {
    HasElement(ids);
    m :| m in ids;
    var rest := ids - {m};
    while rest != {}
      invariant rest <= ids && m in ids
      invariant forall k :: k in ids && k !in rest ==> m <= k
      decreases |rest|
    {
      HasElement(rest);
      var x :| x in rest;
      if x < m {
        m := x;
      }
      rest := rest - {x};
    }
  }

  /** `Object.keys(queue).filter(k => !acks[k])` as a set. */
  function Unleased<P>(queue: map<int, P>, acks: map<int, bool>): (r: set<int>)
    ensures r <= queue.Keys
    ensures forall id :: id in queue && id !in acks ==> id in r
    ensures forall id :: id in acks && acks[id] ==> id !in r
  {
    set id | id in queue.Keys && (id !in acks || !acks[id])
  }

  /** Marking a stored id as leased removes exactly that id from the unleased ones. */
  lemma LeaseHidesId<P>(queue: map<int, P>, acks: map<int, bool>, id: int)
    requires id in queue
    ensures Unleased(queue, acks[id := true]) == Unleased(queue, acks) - {id}
  {
  }

  class TestQueue<P> {
    var nextId: int                 // _nextId
    var queue: map<int, P>          // _queue: stored payload by id
    var acks: map<int, bool>        // _acks: ids currently leased
    var dones: map<JsInt, string>   // _dones: error recorded when an id completed

    /**
     * Leased ids are stored ids, every stored id was handed out by `Put`
     * (1 <= id < nextId), and a lease mark is always `true`.
     */
    ghost predicate Valid()
      reads this
    {
      && nextId >= 1
      && acks.Keys <= queue.Keys
      && (forall id :: id in queue ==> 1 <= id < nextId)
      && (forall id :: id in acks ==> acks[id])
    }

    /** Stored ids whose lease mark is not set: what `get` may hand out. */
    function Visible(): (r: set<int>)
      reads this
      ensures Valid() ==> r == queue.Keys - acks.Keys
    {
      assert Valid() ==> Unleased(queue, acks) == queue.Keys - acks.Keys by {
        if Valid() {
          assert forall id :: id in Unleased(queue, acks) <==> id in queue.Keys - acks.Keys;
        }
      }
      Unleased(queue, acks)
    }

    constructor ()
      ensures Valid()
      ensures nextId == 1 && queue == map[] && acks == map[] && dones == map[]
    {
      nextId := 1;
      queue := map[];
      acks := map[];
      dones := map[];
    }

    /** Stores `payload` under the next id, which then moves on by one. */
    method Put(payload: P)
      requires Valid()
      modifies this
      ensures Valid()
      ensures queue == old(queue)[old(nextId) := payload] && old(nextId) !in old(queue)
      ensures nextId == old(nextId) + 1
      ensures acks == old(acks) && dones == old(dones)
    {
      queue := queue[nextId := payload];
      nextId := nextId + 1;
    }

    /**
     * Leases the smallest stored id that is not leased yet and returns it,
     * written in decimal, with its payload; returns None and changes nothing
     * when every stored id is leased.
     */
    method Get() returns (r: Option<QueueRecord<P>>)
      requires Valid()
      modifies this
      ensures Valid()
      ensures nextId == old(nextId) && queue == old(queue) && dones == old(dones)
      ensures r.None? <==> old(Visible()) == {}
      ensures r.None? ==> acks == old(acks)
      ensures r.Some? ==>
        var id := Least(old(Visible()));
        && 1 <= id
        && r == Some(QueueRecord(ToDecimal(id), old(queue)[id]))
        && ParseInt(r.value.ack) == Int(id)
        && acks == old(acks)[id := true]
        && id !in Visible() && Visible() == old(Visible()) - {id}
    {
      var visible := set id | id in queue.Keys && (id !in acks || !acks[id]);
      if visible == {} {
        return None;
      }
      var ackId := Smallest(visible);
      assert ackId == Least(visible) by {
        assert ackId <= Least(visible) && Least(visible) <= ackId;
      }
      var ack := ToDecimal(ackId);
      DecimalRoundTrip(ackId);
      var payload := queue[ackId];
      LeaseHidesId(queue, acks, ackId);
      acks := acks[ackId := true];
      r := Some(QueueRecord(ack, payload));
    }

    /** Lease renewal has no effect on the stored state. */
    method Ping(ack: string)
      requires Valid()
      ensures Valid() && unchanged(this)
    {
    }

    /**
     * Completes the id that `ack` denotes: forgets its payload and its lease
     * and records `error`, or '' without one. A NaN ack deletes nothing and
     * records the error under the NaN key.
     */
    method Done(ack: string, error: Option<string>)
      requires Valid()
      modifies this
      ensures Valid()
      ensures nextId == old(nextId)
      ensures ParseInt(ack).Int? ==>
        queue == old(queue) - {ParseInt(ack).value} && acks == old(acks) - {ParseInt(ack).value}
      ensures ParseInt(ack).NaN? ==> queue == old(queue) && acks == old(acks)
      ensures dones == old(dones)[ParseInt(ack) := OrEmpty(error)]
      ensures GetError(ack) == Some(OrEmpty(error))
    {
      var ackId := ParseInt(ack);
      if ackId.Int? {
        queue := queue - {ackId.value};
        acks := acks - {ackId.value};
      }
      dones := dones[ackId := OrEmpty(error)];
    }

    /** Stored ids minus leased ids: the number of items `get` can still hand out. */
    function Count(): (r: int)
      reads this
      ensures Valid() ==> r >= 0 && r == |Visible()|
    {
      assert queue.Keys == (queue.Keys - acks.Keys) + (queue.Keys * acks.Keys);
      |queue.Keys| - |acks.Keys|
    }

    /** The error recorded for the id an ack denotes, None before that id completed. */
    function GetError(ack: string): (r: Option<string>)
      reads this
      ensures forall id: nat {:trigger ToDecimal(id)} :: ack == ToDecimal(id) ==>
        r == (if Int(id) in dones then Some(dones[Int(id)]) else None)
    {
      DecimalRoundTripAll();
      var ackId := ParseInt(ack);
      if ackId in dones then Some(dones[ackId]) else None
    }
  }
}
