/** The unbounded queue from the carrier threads to the Streaming Manager: a singly linked list that
    loses its head on a get and walks to its tail on a put. */
module CarriersQueues {
  import opened Options

  class Element<T> {
    var next: Element?<T>
    const event: T

    constructor (event: T)
      ensures this.event == event && next == null
    {
      this.event := event;
      next := null;
    }
  }

  class CarriersQueue<T> {
    var head: Element?<T>
    /** The elements reachable from the head, in order. */
    ghost var chain: seq<Element<T>>

    ghost predicate Valid()
      reads this, chain
    {
      && (forall i, j :: 0 <= i < j < |chain| ==> chain[i] != chain[j])
      && head == At(0)
      && (forall i :: 0 <= i < |chain| ==> chain[i].next == At(i + 1))
    }

    /** The link to the element at a position, null past the end. */
    ghost function At(i: nat): Element?<T>
      reads this
    {
      if i < |chain| then chain[i] else null
    }

    ghost function Events(): seq<T>
      reads this
    {
      seq(|chain|, i requires 0 <= i < |chain| reads this => chain[i].event)
    }

    constructor ()
      ensures Valid() && Events() == [] && chain == []
    {
      head := null;
      chain := [];
    }

    /** Takes the oldest event, or none without blocking. */
    method Get() returns (event: Option<T>)
      requires Valid()
      modifies this
      ensures Valid()
      ensures event == if old(Events()) == [] then None else Some(old(Events())[0])
      ensures Events() == if old(Events()) == [] then [] else old(Events())[1..]
      ensures forall e <- chain :: e in old(chain)
    {
      if head == null {
        event := None;
      } else {
        event := Some(head.event);
        assert head == chain[0];
        head := head.next;
        chain := chain[1..];
      }
    }

    /** Appends an event; without memory for the element nothing changes. */
    method Put(event: T, memory: bool) returns (done: bool)
      requires Valid()
      modifies this, chain
      ensures Valid()
      ensures done == memory
      ensures Events() == old(Events()) + if memory then [event] else []
      ensures forall e <- chain :: e in old(chain) || fresh(e)
    {
      done := memory;
      if !memory {
        return;
      }
      var toinsert := new Element<T>(event);
      if head == null {
        head := toinsert;
      } else {
        var tail := LastElement();
        tail.next := toinsert;
      }
      chain := chain + [toinsert];
    }

    /** Walks the list to the element that has no next. */
    method LastElement() returns (tail: Element<T>)
      requires Valid() && head != null
      ensures chain != [] && tail == chain[|chain| - 1]
    {
      tail := head;
      ghost var i := 0;
      while tail.next != null
        invariant i < |chain| && tail == chain[i] && tail.next == At(i + 1)
        decreases |chain| - i
      {
        tail := tail.next;
        i := i + 1;
      }
    }
  }
}
