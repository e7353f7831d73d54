/** The two anti-deadlock wrappers of the Streaming Manager: fetching a request, and deferring one
    while a response cannot be put. */
module DeferralModel {
  import opened Options

  function AsSeq<T>(request: Option<T>): seq<T> {
    if request.Some? then [request.value] else []
  }

  /** The deferral queue holds a filler where the request ring was found empty. */
  function Genuine<T>(queue: seq<Option<T>>): seq<T> {
    if queue == [] then [] else AsSeq(queue[0]) + Genuine(queue[1..])
  }

  lemma {:induction false} GenuineAppend<T>(queue: seq<Option<T>>, last: Option<T>)
    ensures Genuine(queue + [last]) == Genuine(queue) + AsSeq(last)
  {
    var whole := queue + [last];
    if queue == [] {
      assert whole == [last] && whole[1..] == [];
      assert AsSeq(last) + [] == AsSeq(last) == [] + AsSeq(last);
    } else {
      assert whole[0] == queue[0] && whole[1..] == queue[1..] + [last];
      GenuineAppend(queue[1..], last);
      assert AsSeq(queue[0]) + (Genuine(queue[1..]) + AsSeq(last))
          == (AsSeq(queue[0]) + Genuine(queue[1..])) + AsSeq(last);
    }
  }
}

module RequestIntakes {
  import opened Options
  import opened RingModel
  import opened RingBuffers
  import opened DeferralModel

  class RequestIntake<T(0)> {
    const ring: RingBuffer<T>
    /** The deferral queue, appended at the tail and served from the head. */
    var adqueue: seq<Option<T>>

    constructor (ring: RingBuffer<T>)
      requires ring.Valid()
      ensures Valid() && this.ring == ring && adqueue == []
    {
      this.ring := ring;
      adqueue := [];
    }

    ghost predicate Valid()
      reads this, ring, ring.rbuf
    {
      ring.Valid()
    }

    /** The requests the server has put and the manager has not served, oldest first. */
    ghost function Pending(): seq<T>
      requires Valid()
      reads this, ring, ring.rbuf
    {
      Genuine(adqueue) + ring.Abstract().items
    }

    /** get_request_helper on one shared deferral queue, which is what its comments describe. */
    method Fetch() returns (request: Option<T>)
      requires Valid()
      modifies this, ring
      ensures Valid()
      ensures request.Some? ==> old(Pending()) == [request.value] + Pending()
      ensures request.None? ==> old(Pending()) == Pending() && (old(adqueue) == [] ==> Pending() == [])
    {
      if adqueue != [] {
        request := adqueue[0];
        ghost var items := ring.Abstract().items;
        assert Genuine(adqueue) + items == AsSeq(request) + (Genuine(adqueue[1..]) + items);
        adqueue := adqueue[1..];
      } else {
        request := ring.Take();
        assert old(Pending()) == old(ring.Abstract()).items;
      }
    }

    /** One turn of the timeout loop of put_response_helper on the shared queue. */
    method Defer()
      requires Valid()
      modifies this, ring
      ensures Valid()
      ensures Pending() == old(Pending())
      ensures |adqueue| == |old(adqueue)| + 1
      ensures |ring.Abstract().items| < SLOTS
    {
      var request := ring.Take();
      GenuineAppend(adqueue, request);
      adqueue := adqueue + [request];
      if request.Some? {
        assert old(ring.Abstract().items) == [request.value] + ring.Abstract().items;
        assert Genuine(old(adqueue)) + ([request.value] + ring.Abstract().items)
            == Genuine(adqueue) + ring.Abstract().items;
      }
    }

    /** put_response_helper on the shared queue.  What the server does meanwhile is a parameter: the first
        `expiries` waits run out, and in the next one, if it comes to that, it consumes a response. */
    method PutResponse<U(0)>(notbuf: RingBuffer<U>, response: U, expiries: nat)
      requires Valid() && notbuf.Valid() && notbuf.wait == Ready
      requires {ring, ring.rbuf} !! {notbuf, notbuf.rbuf}
      modifies this, ring, notbuf, notbuf.rbuf
      ensures Valid() && notbuf.Valid() && notbuf.wait == Ready
      ensures Pending() == old(Pending())
      ensures var before := old(notbuf.Abstract().items);
              if |before| < SLOTS then notbuf.Abstract().items == before + [response] && adqueue == old(adqueue)
              else notbuf.Abstract().items == before[1..] + [response] && |adqueue| == |old(adqueue)| + expiries
    {
      var left := expiries;
      var done := notbuf.Enter(response);
      ghost var before := old(notbuf.Abstract().items);
      while !done
        invariant Valid() && notbuf.Valid() && Pending() == old(Pending())
        invariant done ==> |before| < SLOTS && adqueue == old(adqueue)
        invariant done ==> notbuf.Abstract() == Ring(before + [response], Ready)
        invariant !done ==> |before| == SLOTS && notbuf.Abstract() == Ring(before, Waiting)
        invariant 0 <= left <= expiries && |adqueue| + left == |old(adqueue)| + expiries
        decreases !done, left
      {
        if left == 0 {
          var consumed := notbuf.Take();
        } else {
          notbuf.Tick();
          left := left - 1;
        }
        var timedOut := notbuf.Leave(response);
        if !timedOut {
          return;
        }
        Defer();
        done := notbuf.Enter(response);
      }
    }

    /** The same turn as the code has it: the queue's head pointer arrives by value, so only the
        local copy `head` gains the request and the caller's queue is as empty as before. */
    method DeferByValue(queue: seq<Option<T>>) returns (head: seq<Option<T>>)
      requires Valid()
      modifies ring
      ensures Valid()
      ensures adqueue == old(adqueue)
      ensures Genuine(head) + ring.Abstract().items == Genuine(queue) + old(ring.Abstract().items)
      ensures ring.Abstract().items == if old(ring.Abstract().items) == [] then []
                                       else old(ring.Abstract().items)[1..]
    {
      var request := ring.Take();
      GenuineAppend(queue, request);
      head := queue + [request];
      if request.Some? {
        assert old(ring.Abstract().items) == [request.value] + ring.Abstract().items;
        assert Genuine(queue) + ([request.value] + ring.Abstract().items)
            == Genuine(head) + ring.Abstract().items;
      }
    }
  }
}
