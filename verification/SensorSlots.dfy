/** One entry of the Streaming Manager's sensor table and the helpers that update it in place.
    Turning a sensor on, off or to another rate is assumed to succeed. */
module SensorSlots {
  import opened Events
  import opened Options
  import opened Streams
  import M = SensorModel

  /** SOURCE_BUFFER_SIZE. */
  const BUFFER: nat := 1

  function Infos(streams: seq<Stream>): (infos: seq<M.StreamInfo>)
    ensures |infos| == |streams|
  {
    seq(|streams|, i requires 0 <= i < |streams| => M.StreamInfo(streams[i].reg, streams[i].freq))
  }

  ghost function Parts(s: Stream): set<object> {
    {s, s.eventBuffer, s.rtptsBuffer}
  }

  /** No two streams of the list share memory. */
  ghost predicate Separate(streams: seq<Stream>) {
    forall i, j :: 0 <= i < j < |streams| ==> Parts(streams[i]) !! Parts(streams[j])
  }

  /** The memory of all streams of a list. */
  ghost function Footprint(streams: seq<Stream>): set<object> {
    set s, o | s in streams && o in Parts(s) :: o
  }

  function Unlinked(streams: seq<Stream>, k: nat): seq<Stream>
    requires k < |streams|
  {
    streams[..k] + streams[k + 1..]
  }

  /** The list without the first stream that has the ticket. */
  function Without(streams: seq<Stream>, reg: int): seq<Stream> {
    var k := M.Find(Infos(streams), reg);
    if k < |streams| then Unlinked(streams, k) else streams
  }

  lemma UnlinkedInfos(streams: seq<Stream>, k: nat)
    requires k < |streams| && k == M.Find(Infos(streams), streams[k].reg)
    ensures Infos(Unlinked(streams, k)) == M.Others(Infos(streams), streams[k].reg)
  {
    M.OthersIsDeletion(Infos(streams), streams[k].reg);
  }

  lemma UnlinkedSeparate(streams: seq<Stream>, k: nat)
    requires k < |streams| && Separate(streams)
    ensures Separate(Unlinked(streams, k))
    ensures forall s :: s in Unlinked(streams, k) ==> s in streams
  {
    var rest := Unlinked(streams, k);
    assert forall i :: 0 <= i < |rest| ==> rest[i] == streams[if i < k then i else i + 1];
  }

  class SensorSlot {
    var active: bool
    var cacheValid: bool
    var cache: SensorEvent
    var freq: int
    var streams: seq<Stream>
    var oneshots: seq<int>

    constructor ()
      ensures Abstract() == M.IDLE && Separate(streams)
    {
      active, cacheValid, cache, freq := false, false, SensorEvent(0, 0, []), 0;
      streams, oneshots := [], [];
    }

    ghost function Abstract(): M.Sensor
      reads this
    {
      M.Sensor(active, cacheValid, freq, Infos(streams), oneshots)
    }

    /** The position of the first stream with the ticket, or the length of the list. */
    method FindStream(reg: int) returns (k: nat)
      ensures k == M.Find(Infos(streams), reg)
      ensures k < |streams| <==> M.Streams(Abstract(), reg)
      ensures k < |streams| ==> streams[k].reg == reg
      ensures k == |streams| ==> M.Others(Infos(streams), reg) == Infos(streams)
    {
      k := 0;
      while k < |streams|
        invariant k <= |streams|
        invariant forall j :: 0 <= j < k ==> Infos(streams)[j].ticket != reg
      {
        if streams[k].reg == reg {
          break;
        }
        k := k + 1;
      }
      ghost var infos := Infos(streams);
      assert k < |streams| ==> infos[k].ticket == reg && infos[k] in infos;
      M.OthersIsDeletion(infos, reg);
    }

    /** The stream that a start with the ticket replaces goes, the new one joins at the tail: confirmable, one
        sample to a packet and no repetition. */
    method StartStream(reg: int, freq: int, random: nat, memory: bool) returns (added: bool)
      requires freq > 0 && Separate(streams)
      modifies this`active, this`freq, this`streams
      ensures M.Started(Abstract(), added) == M.StartStream(old(Abstract()), reg, freq, memory)
      ensures Separate(streams)
      ensures !memory ==> streams == old(streams)
      ensures memory ==>
                && |streams| > 0
                && var newest := streams[|streams| - 1];
                   && streams == Without(old(streams), reg) + [newest]
                   && fresh(Parts(newest)) && newest.Valid() && newest.seen == [] && newest.sent == []
                   && newest.reg == reg && newest.freq == freq && newest.start == 400 + random % 100
                   && newest.size == 1 && !newest.repeat && newest.retransmit.Confirmable?
    {
      if !memory {
        return false;
      }
      var newstream := new Stream(reg, freq, random % 100 + 400, BUFFER, false, Confirmable);
      Activate(freq);
      added := Join(newstream);
    }

    /** Turns the sensor on at the frequency, or raises the frequency of an active one. */
    method Activate(freq: int)
      modifies this`active, this`freq
      ensures Abstract() == M.Activated(old(Abstract()), freq)
    {
      if !active {
        this.freq := freq;
        active := true;
      } else if freq > this.freq {
        this.freq := freq;
      }
    }

    /** Appends the stream, in place of the one that had its ticket if there was one. */
    method Join(newstream: Stream) returns (added: bool)
      requires Separate(streams) && forall s <- streams :: Parts(s) !! Parts(newstream)
      modifies this`streams
      ensures added <==> !M.Streams(old(Abstract()), newstream.reg)
      ensures Infos(streams) == M.Others(old(Infos(streams)), newstream.reg)
                              + [M.StreamInfo(newstream.reg, newstream.freq)]
      ensures Separate(streams) && streams == Without(old(streams), newstream.reg) + [newstream]
    {
      var found := Remove(newstream.reg);
      added := !found;
      assert Infos(streams + [newstream]) == Infos(streams) + [M.StreamInfo(newstream.reg, newstream.freq)];
      streams := streams + [newstream];
    }

    /** LL_DELETE of the stream at a position that FindStream returned. */
    method Unlink(k: nat)
      requires Separate(streams) && k < |streams| && k == M.Find(Infos(streams), streams[k].reg)
      modifies this`streams
      ensures Infos(streams) == M.Others(old(Infos(streams)), old(streams)[k].reg)
      ensures Separate(streams) && streams == Without(old(streams), old(streams)[k].reg)
    {
      UnlinkedInfos(streams, k);
      UnlinkedSeparate(streams, k);
      streams := Unlinked(streams, k);
    }

    /** The stream with the ticket goes; with nothing left to serve the sensor goes off, and otherwise its
        frequency becomes the maximum of the streams that remain.  When one-shots are pending and no stream
        remains, the code reads one all the same: that is the fault, and of the sensor's frequency nothing is
        claimed after it. */
    method StopStream(reg: int) returns (found: bool, fault: bool)
      requires Separate(streams)
      modifies this`active, this`cacheValid, this`freq, this`streams
      ensures Separate(streams) && streams == Without(old(streams), reg)
      ensures cacheValid == (old(cacheValid) && !(found && streams == [] && oneshots == []))
      ensures found == !M.StopStream(old(Abstract()), reg).NotFound?
      ensures fault == M.StopStream(old(Abstract()), reg).NullStream?
      ensures !found ==> Abstract() == old(Abstract())
      ensures found && !fault ==> Abstract() == M.StopStream(old(Abstract()), reg).sensor
      ensures fault ==> streams == [] && active == old(active)
    {
      fault := false;
      ghost var before := Abstract();
      found := Remove(reg);
      if found {
        fault := Reconsider(before, reg);
      }
    }

    /** What is left to do once the stream with the ticket is off the list. */
    method Reconsider(ghost before: M.Sensor, ghost reg: int) returns (fault: bool)
      requires M.Streams(before, reg)
      requires Abstract() == before.(streams := M.Others(before.streams, reg))
      modifies this`active, this`cacheValid, this`freq
      ensures cacheValid == (old(cacheValid) && !(streams == [] && oneshots == []))
      ensures fault == M.StopStream(before, reg).NullStream?
      ensures !fault ==> Abstract() == M.StopStream(before, reg).sensor
      ensures fault ==> streams == [] && active == old(active)
    {
      fault := false;
      if streams == [] && oneshots == [] {
        TurnOff();
        freq := 0;
      } else if streams == [] {
        fault := true;
      } else {
        ReconsiderFrequency();
      }
    }

    method Remove(reg: int) returns (found: bool)
      requires Separate(streams)
      modifies this`streams
      ensures found <==> M.Streams(old(Abstract()), reg)
      ensures Infos(streams) == M.Others(old(Infos(streams)), reg)
      ensures Separate(streams) && streams == Without(old(streams), reg)
    {
      var del := FindStream(reg);
      found := del < |streams|;
      if found {
        Unlink(del);
      }
    }

    method ReconsiderFrequency()
      requires streams != []
      modifies this`freq
      ensures freq == M.MaxFreq(Infos(streams))
    {
      ghost var infos := Infos(streams);
      freq := streams[0].freq;
      var temp := 0;
      while temp < |streams|
        invariant temp <= |streams|
        invariant temp == 0 ==> freq == infos[0].freq
        invariant temp > 0 ==> freq == M.MaxFreq(infos[..temp])
      {
        MaxOfOneMore(infos, temp);
        if streams[temp].freq > freq {
          freq := streams[temp].freq;
        }
        temp := temp + 1;
      }
      assert infos[..temp] == infos;
    }

    method TurnOff()
      modifies this`active, this`cacheValid
      ensures !active && !cacheValid
    {
      active, cacheValid := false, false;
    }

    /** A one-shot request: answered with the cached event if the cache is valid, and otherwise the sensor is
        activated and the request waits for its first sample. */
    method AskOneshot(ticket: int) returns (answer: Option<SensorEvent>)
      modifies this`active, this`oneshots
      ensures answer == if old(cacheValid) then Some(old(cache)) else None
      ensures Abstract() == if answer.Some? then old(Abstract()) else M.RegisterOneshot(old(Abstract()), ticket)
      ensures answer.None? ==> active && oneshots == old(oneshots) + [ticket]
    {
      if cacheValid {
        answer := Some(cache);
      } else {
        answer := None;
        active := true;
        oneshots := oneshots + [ticket];
      }
    }

    /** A sample from the sensor itself goes into the cache. */
    method Cache(event: SensorEvent)
      modifies this`cache, this`cacheValid
      ensures cache == event && cacheValid && Abstract() == M.Sampled(old(Abstract()))
    {
      cache := event;
      cacheValid := true;
    }

    /** One sample of the sensor: cached unless a carrier made it, then the answer to every pending one-shot in
        the order they were registered, then delivered to every stream. */
    method HandleSample(event: SensorEvent, carrier: bool) returns (answered: seq<int>, packets: seq<seq<Sample>>)
      requires Separate(streams) && forall s <- streams :: s.Valid()
      modifies this`cache, this`cacheValid, this`active, this`oneshots, Footprint(streams)
      ensures streams == old(streams) && cache == if carrier then old(cache) else event
      ensures cacheValid == if old(oneshots) != [] && streams == [] then false else !carrier || old(cacheValid)
      ensures answered == old(oneshots)
      ensures Abstract() == M.AnsweredAll(if carrier then old(Abstract()) else M.Sampled(old(Abstract())))
      ensures forall s <- streams :: s.Valid() && s.seen == old(s.seen) + [event]
      ensures |packets| == |streams|
      ensures forall k :: 0 <= k < |streams| ==>
                streams[k].sent == old(streams[k].sent) + if packets[k] == [] then [] else [packets[k]]
    {
      answered := TakeSample(event, carrier);
      assert this !in Footprint(streams) by {
        assert forall s <- streams :: this !in Parts(s);
      }
      packets := DeliverToStreams(streams, event);
    }

    /** The sensor's part in a sample: its cache and its one-shots. */
    method TakeSample(event: SensorEvent, carrier: bool) returns (answered: seq<int>)
      modifies this`cache, this`cacheValid, this`active, this`oneshots
      ensures cache == (if carrier then old(cache) else event) && answered == old(oneshots)
      ensures cacheValid == if old(oneshots) != [] && streams == [] then false else !carrier || old(cacheValid)
      ensures Abstract() == M.AnsweredAll(if carrier then old(Abstract()) else M.Sampled(old(Abstract())))
    {
      if !carrier {
        Cache(event);
      }
      answered := AnswerOneshots();
    }

    /** The first sample answers every pending one-shot, in the order they were registered. */
    method AnswerOneshots() returns (answered: seq<int>)
      modifies this`oneshots, this`active, this`cacheValid
      ensures answered == old(oneshots) && oneshots == []
      ensures cacheValid == (old(cacheValid) && !(old(oneshots) != [] && streams == []))
      ensures Abstract() == M.AnsweredAll(old(Abstract()))
    {
      M.AnsweredAllIs(Abstract());
      answered := [];
      if oneshots != [] {
        answered := EmptyOneshots();
        if streams == [] {
          TurnOff();
        }
      }
    }

    method EmptyOneshots() returns (answered: seq<int>)
      modifies this`oneshots
      ensures answered == old(oneshots) && oneshots == []
    {
      answered := [];
      while oneshots != []
        invariant answered + oneshots == old(oneshots)
        decreases |oneshots|
      {
        answered := answered + [oneshots[0]];
        oneshots := oneshots[1..];
      }
    }
  }

  lemma MaxOfOneMore(infos: seq<M.StreamInfo>, k: nat)
    requires k < |infos|
    ensures k == 0 ==> M.MaxFreq(infos[..k + 1]) == infos[0].freq
    ensures k > 0 ==> (M.MaxFreq(infos[..k + 1])
                    == var m := M.MaxFreq(infos[..k]); if infos[k].freq > m then infos[k].freq else m)
  {
    assert infos[..k + 1][..k] == infos[..k];
  }

  /** Delivering to one stream of the list leaves the others as they were. */
  method DeliverTo(streams: seq<Stream>, k: nat, event: SensorEvent) returns (packet: seq<Sample>)
    requires k < |streams| && Separate(streams)
    requires forall j :: 0 <= j < |streams| ==> streams[j].Valid()
    modifies Parts(streams[k])
    ensures forall j :: 0 <= j < |streams| ==> streams[j].Valid()
    ensures forall j :: 0 <= j < |streams| && j != k ==>
              streams[j].seen == old(streams[j].seen) && streams[j].sent == old(streams[j].sent)
    ensures streams[k].seen == old(streams[k].seen) + [event]
    ensures streams[k].sent == old(streams[k].sent) + if packet == [] then [] else [packet]
  {
    assert forall j :: 0 <= j < |streams| && j != k ==> Parts(streams[j]) !! Parts(streams[k]);
    packet := streams[k].Deliver(event);
  }

  /** One sample goes to every stream of the list, in list order, whatever frequency it asked for.
      packets[k] is what stream k sends for it. */
  method DeliverToStreams(streams: seq<Stream>, event: SensorEvent) returns (packets: seq<seq<Sample>>)
    requires Separate(streams) && forall s <- streams :: s.Valid()
    modifies Footprint(streams)
    ensures |packets| == |streams|
    ensures forall s <- streams :: s.Valid() && s.seen == old(s.seen) + [event]
    ensures forall k :: 0 <= k < |streams| ==>
              streams[k].sent == old(streams[k].sent) + if packets[k] == [] then [] else [packets[k]]
  {
    packets := [];
    var k := 0;
    while k < |streams|
      invariant k == |packets| <= |streams|
      invariant forall j :: 0 <= j < |streams| ==> streams[j].Valid()
      invariant forall j :: k <= j < |streams| ==> streams[j].seen == old(streams[j].seen)
      invariant forall j :: k <= j < |streams| ==> streams[j].sent == old(streams[j].sent)
      invariant forall j :: 0 <= j < k ==> streams[j].seen == old(streams[j].seen) + [event]
      invariant forall j :: 0 <= j < k ==>
                  streams[j].sent == old(streams[j].sent) + if packets[j] == [] then [] else [packets[j]]
    {
      var packet := DeliverTo(streams, k, event);
      packets := packets + [packet];
      k := k + 1;
    }
  }
}
