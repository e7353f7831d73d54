/** The two 20-slot rings between the CoAP server thread and the Streaming Manager thread.

    A put is cut where the code gives up its mutex: entering (lock, test for full, insert or start
    waiting) and leaving (woken or timed out).  Both rings have exactly one producer, so one `Wait`
    value says where that producer stands with respect to the `notfull` condition variable. */
module Options {
  datatype Option<+T> = None | Some(value: T)
}

module RingModel {
  import opened Options

  /** SM_RBUF_SIZE and COAP_RBUF_SIZE. */
  const SLOTS: nat := 20

  datatype Wait = Ready | Waiting | Signalled | TimedOut

  /** What a ring means: the queued items, oldest first, and the state of its one producer. */
  datatype Ring<T> = Ring(items: seq<T>, wait: Wait)

  /** A producer waits only on a full ring (no signal is missed) and is woken only to a free slot. */
  predicate RingOk<T>(r: Ring<T>) {
    && |r.items| <= SLOTS
    && (r.wait == Waiting ==> |r.items| == SLOTS)
    && (r.wait == Signalled ==> |r.items| < SLOTS)
  }

  function Head<T>(r: Ring<T>): Option<T> {
    if r.items == [] then None else Some(r.items[0])
  }

  function Get<T>(r: Ring<T>): Ring<T> {
    if r.items == [] then r
    else Ring(r.items[1..], if r.wait == Waiting then Signalled else r.wait)
  }

  function EnterPut<T>(r: Ring<T>, x: T): Ring<T> {
    if |r.items| >= SLOTS then r.(wait := Waiting) else r.(items := r.items + [x])
  }

  function Expire<T>(r: Ring<T>): Ring<T> {
    r.(wait := TimedOut)
  }

  /** Runs after the wait without testing for full again: the code guards its wait with `if`. */
  function LeavePut<T>(r: Ring<T>, x: T): Ring<T> {
    if r.wait == TimedOut then r.(wait := Ready) else Ring(r.items + [x], Ready)
  }

  /** The atomic sections two threads can interleave on one ring. */
  datatype Op<T> = TakeOp | EnterOp(item: T) | TickOp | LeaveOp(item: T)

  predicate Allowed<T>(r: Ring<T>, op: Op<T>) {
    match op
    case TakeOp => true
    case EnterOp(_) => r.wait == Ready
    case TickOp => r.wait == Waiting
    case LeaveOp(_) => r.wait == Signalled || r.wait == TimedOut
  }

  function ApplyOp<T>(r: Ring<T>, op: Op<T>): Ring<T> {
    match op
    case TakeOp => Get(r)
    case EnterOp(x) => EnterPut(r, x)
    case TickOp => Expire(r)
    case LeaveOp(x) => LeavePut(r, x)
  }

  /** The items one operation hands to the consumer. */
  function TakenBy<T>(r: Ring<T>, op: Op<T>): seq<T> {
    if op.TakeOp? && r.items != [] then [r.items[0]] else []
  }

  /** The items one operation puts in: those whose put reports success, not those that wait or time out. */
  function AcceptedBy<T>(r: Ring<T>, op: Op<T>): seq<T> {
    match op
    case EnterOp(x) => if |r.items| < SLOTS then [x] else []
    case LeaveOp(x) => if r.wait == Signalled then [x] else []
    case _ => []
  }

  predicate AllowedRun<T>(r: Ring<T>, ops: seq<Op<T>>)
    decreases ops
  {
    ops == [] || (Allowed(r, ops[0]) && AllowedRun(ApplyOp(r, ops[0]), ops[1..]))
  }

  function After<T>(r: Ring<T>, ops: seq<Op<T>>): Ring<T>
    decreases ops
  {
    if ops == [] then r else After(ApplyOp(r, ops[0]), ops[1..])
  }

  function Taken<T>(r: Ring<T>, ops: seq<Op<T>>): seq<T>
    decreases ops
  {
    if ops == [] then [] else TakenBy(r, ops[0]) + Taken(ApplyOp(r, ops[0]), ops[1..])
  }

  function Accepted<T>(r: Ring<T>, ops: seq<Op<T>>): seq<T>
    decreases ops
  {
    if ops == [] then [] else AcceptedBy(r, ops[0]) + Accepted(ApplyOp(r, ops[0]), ops[1..])
  }

  /** Under every interleaving of one producer and one consumer, whatever signals are lost and
      whatever waits time out, the ring stays within its slots and is a FIFO: what was there plus what
      was accepted is what was taken plus what is left, in that order. */
  lemma {:induction false} FifoUnderEveryInterleaving<T>(r: Ring<T>, ops: seq<Op<T>>)
    requires RingOk(r) && AllowedRun(r, ops)
    ensures RingOk(After(r, ops))
    ensures r.items + Accepted(r, ops) == Taken(r, ops) + After(r, ops).items
    decreases ops
  {
    if ops == [] {
    } else {
      var next := ApplyOp(r, ops[0]);
      OneOpIsFifo(r, ops[0]);
      FifoUnderEveryInterleaving(next, ops[1..]);
      Regroup(r.items, AcceptedBy(r, ops[0]), Accepted(next, ops[1..]),
              TakenBy(r, ops[0]), next.items, Taken(next, ops[1..]), After(next, ops[1..]).items);
    }
  }

  lemma OneOpIsFifo<T>(r: Ring<T>, op: Op<T>)
    requires RingOk(r) && Allowed(r, op)
    ensures RingOk(ApplyOp(r, op))
    ensures r.items + AcceptedBy(r, op) == TakenBy(r, op) + ApplyOp(r, op).items
  {
  }

  lemma Regroup<T>(a: seq<T>, b: seq<T>, c: seq<T>, d: seq<T>, e: seq<T>, f: seq<T>, g: seq<T>)
    requires a + b == d + e && e + c == f + g
    ensures a + (b + c) == (d + f) + g
  {
    assert a + (b + c) == (a + b) + c;
    assert (d + e) + c == d + (e + c);
    assert d + (f + g) == (d + f) + g;
  }

  // ---- the slots ----

  /** The indices as the code keeps them: the tail is always `counter` slots past the head. */
  predicate IndicesOk(gethere: int, puthere: int, counter: int) {
    && 0 <= counter <= SLOTS
    && 0 <= gethere < SLOTS
    && puthere == (gethere + counter) % SLOTS
  }

  function Queued<T>(slots: seq<T>, gethere: nat, counter: nat): (q: seq<T>)
    requires |slots| == SLOTS
    ensures |q| == counter
  {
    seq(counter, i requires 0 <= i < counter => slots[(gethere + i) % SLOTS])
  }

  /** Whether storing `x` at the tail and advancing, with no test, is an append to the queue. */
  predicate BareInsertAppends<T(==)>(slots: seq<T>, gethere: nat, puthere: nat, counter: nat, x: T)
    requires |slots| == SLOTS && IndicesOk(gethere, puthere, counter)
  {
    && IndicesOk(gethere, (puthere + 1) % SLOTS, counter + 1)
    && Queued(slots[puthere := x], gethere, counter + 1) == Queued(slots, gethere, counter) + [x]
  }

  /** The insertion that follows the wait appends exactly when a slot is free.  It is safe only because
      a wakeup implies a free slot: after a spurious wakeup, or with a second producer taking the slot
      first, it overwrites the oldest item and drives the counter to 21. */
  lemma BareInsertAppendsIffNotFull<T>(slots: seq<T>, gethere: nat, puthere: nat, counter: nat, x: T)
    requires |slots| == SLOTS && IndicesOk(gethere, puthere, counter)
    ensures BareInsertAppends(slots, gethere, puthere, counter, x) <==> counter < SLOTS
    ensures counter == SLOTS ==> slots[puthere := x][gethere] == x
  {
    if counter < SLOTS {
      InsertAtTail(slots, gethere, puthere, counter, x);
    }
  }

  lemma InsertAtTail<T>(slots: seq<T>, gethere: nat, puthere: nat, counter: nat, x: T)
    requires |slots| == SLOTS && IndicesOk(gethere, puthere, counter) && counter < SLOTS
    ensures IndicesOk(gethere, (puthere + 1) % SLOTS, counter + 1)
    ensures Queued(slots[puthere := x], gethere, counter + 1) == Queued(slots, gethere, counter) + [x]
  {
  }

  lemma RemoveAtHead<T>(slots: seq<T>, gethere: nat, puthere: nat, counter: nat)
    requires |slots| == SLOTS && IndicesOk(gethere, puthere, counter) && counter > 0
    ensures IndicesOk((gethere + 1) % SLOTS, puthere, counter - 1)
    ensures Queued(slots, gethere, counter) == [slots[gethere]] + Queued(slots, (gethere + 1) % SLOTS, counter - 1)
  {
  }
}

/** ze_sm_resbuf.c and ze_sm_reqbuf.c, which differ in the item type and in whether the wait is timed. */
module RingBuffers {
  import opened Options
  import opened RingModel

  class RingBuffer<T(0)> {
    const rbuf: array<T>
    var gethere: nat
    var puthere: nat
    var counter: nat
    /** The producer's place in the wait set of `notfull`, which the operating system keeps. */
    var wait: Wait

    ghost predicate Valid()
      reads this, rbuf
    {
      && rbuf.Length == SLOTS
      && IndicesOk(gethere, puthere, counter)
      && RingOk(Abstract())
    }

    ghost function Abstract(): Ring<T>
      requires rbuf.Length == SLOTS
      reads this, rbuf
    {
      Ring(Queued(rbuf[..], gethere, counter), wait)
    }

    constructor ()
      ensures Valid() && fresh(rbuf) && rbuf.Length == 20
      ensures Abstract() == Ring([], Ready)
    {
      rbuf := new T[SLOTS];
      gethere, puthere, counter, wait := 0, 0, 0, Ready;
    }

    /** Takes the oldest item, or reports an invalid one without blocking, and signals `notfull`. */
    method Take() returns (item: Option<T>)
      requires Valid()
      modifies this
      ensures Valid()
      ensures item == Head(old(Abstract()))
      ensures Abstract() == Get(old(Abstract()))
    {
      if counter <= 0 {
        item := None;
      } else {
        RemoveAtHead(rbuf[..], gethere, puthere, counter);
        item := Some(rbuf[gethere]);
        gethere := (gethere + 1) % SLOTS;
        counter := counter - 1;
        if wait == Waiting {
          wait := Signalled;
        }
      }
    }

    method Insert(item: T)
      requires rbuf.Length == SLOTS && IndicesOk(gethere, puthere, counter) && counter < SLOTS
      modifies this`puthere, this`counter, rbuf
      ensures IndicesOk(gethere, puthere, counter)
      ensures Queued(rbuf[..], gethere, counter) == old(Queued(rbuf[..], gethere, counter)) + [item]
    {
      InsertAtTail(rbuf[..], gethere, puthere, counter, item);
      ghost var slots := rbuf[..];
      rbuf[puthere] := item;
      assert rbuf[..] == slots[puthere := item];
      puthere := (puthere + 1) % SLOTS;
      counter := counter + 1;
    }

    /** The first half of a put: insert, or find the ring full and start waiting. */
    method Enter(item: T) returns (done: bool)
      requires Valid() && wait == Ready
      modifies this, rbuf
      ensures Valid()
      ensures done == (|old(Abstract()).items| < SLOTS)
      ensures Abstract() == EnterPut(old(Abstract()), item)
    {
      if counter >= SLOTS {
        wait := Waiting;
        done := false;
      } else {
        Insert(item);
        done := true;
      }
    }

    /** The two-second limit of the response ring's wait runs out. */
    method Tick()
      requires Valid() && wait == Waiting
      modifies this
      ensures Valid()
      ensures Abstract() == Expire(old(Abstract()))
    {
      wait := TimedOut;
    }

    /** The second half of a put, after the wait.  The result is the code's `timeout`. */
    method Leave(item: T) returns (timedOut: bool)
      requires Valid() && (wait == Signalled || wait == TimedOut)
      modifies this, rbuf
      ensures Valid()
      ensures timedOut == (old(wait) == TimedOut)
      ensures Abstract() == LeavePut(old(Abstract()), item)
    {
      timedOut := wait == TimedOut;
      if !timedOut {
        Insert(item);
      }
      wait := Ready;
    }
  }
}
