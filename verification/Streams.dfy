/** One running stream: its send buffer, its timestamp clock and its delivery of one sample. */
module Streams {
  import opened Events
  import opened StreamModel

  class Stream {
    const reg: int
    const freq: int
    const repeat: bool
    const retransmit: Reliability
    /** SOURCE_BUFFER_SIZE, which the build sets to 1. */
    const size: nat
    const eventBuffer: array<SensorEvent>
    const rtptsBuffer: array<int>
    var level: nat
    var lastRtpts: int
    var lastWts: int
    var samplesSent: nat

    ghost const start: int
    /** Every event delivered so far, and every packet handed to the protocol layer. */
    ghost var seen: seq<SensorEvent>
    ghost var sent: seq<seq<Sample>>

    ghost predicate Formed() {
      && freq > 0
      && 1 <= size == eventBuffer.Length == rtptsBuffer.Length
      && (repeat ==> size == 2)
    }

    /** The first n buffered samples. */
    function Buffered(n: nat): (samples: seq<Sample>)
      requires n <= eventBuffer.Length && n <= rtptsBuffer.Length
      reads eventBuffer, rtptsBuffer
    {
      seq(n, i requires 0 <= i < n reads eventBuffer, rtptsBuffer => Sample(eventBuffer[i], rtptsBuffer[i]))
    }

    ghost predicate BundlesValid()
      requires Formed()
      reads this, eventBuffer, rtptsBuffer
    {
      && level < size
      && AllOfSize(sent, size)
      && Handled() == Stamped(seen, start, freq)
      && samplesSent == size * |sent|
    }

    ghost predicate RepeatsValid()
      requires Formed() && repeat
      reads this, eventBuffer, rtptsBuffer
    {
      && sent == Repeated(Stamped(seen, start, freq))
      && samplesSent == |seen|
      && level == (if seen == [] then 0 else 1)
      && (seen != [] ==> Buffered(1) == [Stamped(seen, start, freq)[|seen| - 1]])
    }

    ghost predicate Valid()
      reads this, eventBuffer, rtptsBuffer
    {
      && Formed()
      && lastRtpts == start + |seen| * Period(freq)
      && lastWts == (if seen == [] then 0 else seen[|seen| - 1].timestamp)
      && if repeat then RepeatsValid() else BundlesValid()
    }

    constructor (reg: int, freq: int, start: int, size: nat, repeat: bool, retransmit: Reliability)
      requires freq > 0 && size >= 1 && (repeat ==> size == 2)
      ensures Valid() && fresh(eventBuffer) && fresh(rtptsBuffer)
      ensures this.reg == reg && this.freq == freq && this.start == start
      ensures this.size == size && this.repeat == repeat && this.retransmit == retransmit
      ensures seen == [] && sent == [] && samplesSent == 0
    {
      this.reg, this.freq, this.size, this.repeat, this.retransmit := reg, freq, size, repeat, retransmit;
      this.start := start;
      eventBuffer := new SensorEvent[size](_ => SensorEvent(0, 0, []));
      rtptsBuffer := new int[size](_ => 0);
      level, lastRtpts, lastWts, samplesSent := 0, start, 0, 0;
      seen, sent := [], [];
    }

    /** Delivers one event to the stream and returns the packet to send, or [] while the buffer fills. */
    method Deliver(event: SensorEvent) returns (packet: seq<Sample>)
      requires Valid()
      modifies this, eventBuffer, rtptsBuffer
      ensures Valid()
      ensures seen == old(seen) + [event]
      ensures sent == old(sent) + if packet == [] then [] else [packet]
      ensures packet != [] ==> |packet| == size
      ensures packet == [] <==> !repeat && old(level) + 1 < size
      ensures !repeat ==> packet == Due(seen, start, freq, size)
    {
      if repeat {
        packet := DeliverRepeated(event);
      } else {
        packet := DeliverBundled(event);
      }
    }

    method DeliverBundled(event: SensorEvent) returns (packet: seq<Sample>)
      requires Valid() && !repeat
      modifies this, eventBuffer, rtptsBuffer
      ensures Valid()
      ensures seen == old(seen) + [event]
      ensures sent == old(sent) + if packet == [] then [] else [packet]
      ensures packet != [] ==> |packet| == size
      ensures packet == [] <==> old(level) + 1 < size
      ensures packet == Due(seen, start, freq, size)
    {
      StampNext(seen, event, start, freq);
      packet := BufferAndSend(event, lastRtpts + Period(freq));
      seen := seen + [event];
      PacketIsDue(packet);
    }

    /** What has just been sent is what is due: the last bufferful, or nothing while the buffer fills. */
    lemma PacketIsDue(packet: seq<Sample>)
      requires Formed() && BundlesValid() && seen != []
      requires if packet == [] then level > 0 else level == 0 && sent != [] && sent[|sent| - 1] == packet
      ensures packet == Due(seen, start, freq, size)
    {
      LevelIs();
      if packet != [] {
        LastBundle(sent, Buffered(level));
        assert packet in sent;
      }
    }

    /** The buffer is as full as the number of samples says. */
    lemma LevelIs()
      requires Formed() && BundlesValid()
      ensures level == Level(|seen|, size)
    {
      FlattenLength(sent, size);
      LevelOf(|sent|, level, size);
    }

    /** The samples sent or buffered, in order. */
    ghost function Handled(): seq<Sample>
      requires level <= eventBuffer.Length && level <= rtptsBuffer.Length
      reads this, eventBuffer, rtptsBuffer
    {
      Flatten(sent) + Buffered(level)
    }

    method BufferAndSend(event: SensorEvent, ghost stamp: int) returns (packet: seq<Sample>)
      requires Formed() && level < size && AllOfSize(sent, size) && samplesSent == size * |sent|
      requires stamp == lastRtpts + Period(freq)
      modifies this`level, this`lastRtpts, this`lastWts, this`samplesSent, this`sent, eventBuffer, rtptsBuffer
      ensures level < size && AllOfSize(sent, size) && samplesSent == size * |sent|
      ensures lastRtpts == stamp && lastWts == event.timestamp
      ensures Handled() == old(Handled()) + [Sample(event, stamp)]
      ensures sent == old(sent) + if packet == [] then [] else [packet]
      ensures packet != [] ==> |packet| == size
      ensures packet == [] <==> old(level) + 1 < size
      ensures level == if packet == [] then old(level) + 1 else 0
    {
      if level < size {
        Store(event, stamp);
      }
      packet := SendIfFull();
    }

    /** Hands the whole buffer over once it is full. */
    method SendIfFull() returns (packet: seq<Sample>)
      requires Formed() && level <= size && AllOfSize(sent, size) && samplesSent == size * |sent|
      modifies this`level, this`samplesSent, this`sent
      ensures level < size && AllOfSize(sent, size) && samplesSent == size * |sent|
      ensures Handled() == old(Handled())
      ensures sent == old(sent) + if packet == [] then [] else [packet]
      ensures packet != [] ==> |packet| == size
      ensures packet == [] <==> old(level) < size
      ensures level == if packet == [] then old(level) else 0
    {
      packet := [];
      if level == size {
        packet := Buffered(size);
        MulSucc(size, |sent|);
        FlattenAppend(sent, packet);
        sent := sent + [packet];
        samplesSent := samplesSent + size;
        level := 0;
        assert Flatten(sent) + Buffered(0) == Flatten(sent);
      }
    }

    /** Appends the event and its timestamp to the send buffer. */
    method Store(event: SensorEvent, ghost stamp: int)
      requires Formed() && level < size && stamp == lastRtpts + Period(freq)
      modifies this`level, this`lastRtpts, this`lastWts, eventBuffer, rtptsBuffer
      ensures level == old(level) + 1 && lastRtpts == stamp && lastWts == event.timestamp
      ensures Handled() == old(Handled()) + [Sample(event, stamp)]
    {
      ghost var older := Buffered(level);
      eventBuffer[level] := event;
      var tsa := lastRtpts + CLOCK / freq;
      rtptsBuffer[level] := tsa;
      lastRtpts := tsa;
      lastWts := event.timestamp;
      level := level + 1;
      assert Buffered(level) == older + [Sample(event, stamp)];
    }

    method DeliverRepeated(event: SensorEvent) returns (packet: seq<Sample>)
      requires Valid() && repeat
      modifies this, eventBuffer, rtptsBuffer
      ensures Valid()
      ensures seen == old(seen) + [event]
      ensures sent == old(sent) + [packet] && |packet| == size
    {
      StampNext(seen, event, start, freq);
      ghost var samples := Stamped(seen, start, freq);
      packet := BufferAndRepeat(event, lastRtpts + Period(freq));
      PairIsNext(samples, Sample(event, lastRtpts), packet);
      samplesSent := samplesSent + 1;
      seen, sent := seen + [event], sent + [packet];
    }

    /** The pair sent is the next of the repeated samples. */
    static lemma PairIsNext(samples: seq<Sample>, x: Sample, packet: seq<Sample>)
      requires packet == (if samples == [] then [x] else [samples[|samples| - 1]]) + [x]
      ensures Repeated(samples + [x]) == Repeated(samples) + [packet]
    {
      var n, longer := |samples|, samples + [x];
      assert forall i :: 0 <= i < n ==> longer[i] == samples[i];
      assert Repeated(longer)[n] == packet;
      assert forall i :: 0 <= i < n ==> Repeated(longer)[i] == Repeated(samples)[i];
    }

    /** Pairs the event with the one before it, or with itself if there is none, and keeps it as the
        older half of the next pair. */
    method BufferAndRepeat(event: SensorEvent, ghost stamp: int) returns (packet: seq<Sample>)
      requires Formed() && repeat && level <= 1 && stamp == lastRtpts + Period(freq)
      modifies this`level, this`lastRtpts, this`lastWts, eventBuffer, rtptsBuffer
      ensures level == 1 && lastRtpts == stamp && lastWts == event.timestamp && Buffered(1) == [Sample(event, stamp)]
      ensures packet == (if old(level) == 0 then [Sample(event, stamp)] else old(Buffered(1))) + [Sample(event, stamp)]
    {
      ghost var older := Buffered(1);
      var tsa := lastRtpts + CLOCK / freq;
      if level == 0 {
        eventBuffer[0] := event;
        rtptsBuffer[0] := tsa;
        level := 1;
      }
      eventBuffer[1] := event;
      rtptsBuffer[1] := tsa;
      lastRtpts := tsa;
      lastWts := event.timestamp;
      packet := Buffered(size);
      assert old(level) > 0 ==> packet[0] == older[0];
      eventBuffer[0] := event;
      rtptsBuffer[0] := tsa;
    }

    /** Bundling loses nothing and repeats nothing: packet i is the i-th slice of the stamped events. */
    lemma PacketIsSlice(i: nat)
      requires Valid() && !repeat && i < |sent|
      ensures IsSlice(sent[i], Stamped(seen, start, freq), size, i)
    {
      BundleIsSlice(sent, Buffered(level), size, i);
    }

    /** A stream as sm_start_stream makes them, with a buffer of one sample and no repetition, sends every event
        at once, once, alone in its packet, with its stamp. */
    lemma EachEventAtOnce(i: nat)
      requires Valid() && !repeat && size == 1
      ensures |sent| == |seen|
      ensures i < |sent| ==> sent[i] == [Sample(seen[i], start + (i + 1) * Period(freq))]
    {
      FlattenLength(sent, size);
      if i < |sent| {
        PacketIsSlice(i);
        StampedAt(seen, start, freq, i);
      }
    }

    /** Whatever packets of a repeating stream are lost, its receiver has every event, stamped and in
        order, exactly when no two in a row and not the last one were lost. */
    lemma ReceiverRecoversIff(got: seq<bool>)
      requires Valid() && repeat && freq <= CLOCK && |got| == |sent|
      ensures AllOfSize(Arrived(sent, got), 2)
      ensures Playout(Arrived(sent, got)) == Stamped(seen, start, freq) <==> LossesAreIsolated(got)
    {
      RecoveryIff(seen, start, freq, got);
    }
  }
}
