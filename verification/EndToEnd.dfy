/** From a stream's buffer to the observer: the packets that the streams of a registration send, the responses
    that carry them through the ring, and the notifications that the server makes of them. */
module EndToEnd {
  import opened Events
  import opened NotificationModel
  import opened Options
  import opened Protocol
  import opened ProtocolInvariants
  import opened ProtocolRuns
  import opened Registrations
  import opened RingModel
  import B = Streams
  import L = Ledger
  import P = PayloadModel
  import S = StreamModel

  // ---- through the ring ----

  /** The packets of one registration's updates, in order. */
  function PacketsOf(responses: seq<L.Response>, t: int, life: L.Life): seq<seq<Sample>> {
    if responses == [] then []
    else
      var last := responses[|responses| - 1];
      PacketsOf(responses[..|responses| - 1], t, life)
      + if last.Update? && last.ticket == t && last.life == life then [last.packet] else []
  }

  lemma {:induction false} PacketsInTwo(first: seq<L.Response>, rest: seq<L.Response>, t: int, life: L.Life)
    ensures PacketsOf(first + rest, t, life) == PacketsOf(first, t, life) + PacketsOf(rest, t, life)
    decreases rest
  {
    if rest == [] {
      assert first + rest == first;
    } else {
      var last := |rest| - 1;
      assert (first + rest)[..|first + rest| - 1] == first + rest[..last];
      PacketsInTwo(first, rest[..last], t, life);
    }
  }

  /** The packet that a stream of the registration sends in a step. */
  function OfferedBy(s: State, a: Action, t: int, life: L.Life): seq<seq<Sample>> {
    if a.StreamTurn? && a.packet != [] && s.manager.Delivering?
       && s.manager.k < |s.sensors[s.manager.sensor].streams|
       && s.sensors[s.manager.sensor].streams[s.manager.k].ticket == t && LifeOf(s.live, t) == life
    then [a.packet] else []
  }

  function Offered(cfg: Config, s: State, run: seq<Action>, t: int, life: L.Life): seq<seq<Sample>>
    requires IsRun(cfg, s, run)
    decreases run
  {
    if run == [] then []
    else OfferedBy(s, run[0], t, life) + Offered(cfg, Apply(cfg, s, run[0]), run[1..], t, life)
  }

  function PacketInHand(pc: ManagerPc, t: int, life: L.Life): seq<seq<Sample>> {
    if (pc.Putting? || pc.Deferring?) && pc.response.Update? && pc.response.ticket == t && pc.response.life == life
    then [pc.response.packet] else []
  }

  /** The packets of the updates that the manager has put or has in hand. */
  function Handed(s: State, t: int, life: L.Life): seq<seq<Sample>> {
    PacketsOf(s.sent, t, life) + PacketInHand(s.manager, t, life)
  }

  lemma FetchTakesNoPacket(s: State, memory: bool, t: int, life: L.Life)
    requires s.manager.Fetching?
    ensures PacketInHand(ServeNext(s, memory).manager, t, life) == []
  {
  }

  lemma OthersTakePacket(cfg: Config, s: State, a: Action, t: int, life: L.Life)
    requires Enabled(cfg, s, a) && !a.ManagerPut?
    ensures PacketInHand(Apply(cfg, s, a).manager, t, life)
            == PacketInHand(s.manager, t, life) + OfferedBy(s, a, t, life)
  {
    var inHand := PacketInHand(s.manager, t, life);
    assert inHand + [] == inHand;
    if a.FetchRequest? {
      FetchTakesNoPacket(s, a.memory, t, life);
    }
  }

  lemma HandedByOthers(cfg: Config, s: State, a: Action, t: int, life: L.Life)
    requires Enabled(cfg, s, a) && !a.ManagerPut?
    ensures Handed(Apply(cfg, s, a), t, life) == Handed(s, t, life) + OfferedBy(s, a, t, life)
  {
    OthersPutNothing(cfg, s, a);
    OthersTakePacket(cfg, s, a, t, life);
  }

  /** A put that goes in leaves no packet in hand, and any other leaves the one that is. */
  lemma PutLeaves(s: State, t: int, life: L.Life)
    requires ManagerOk(s.manager, s.sensors, s.live) && s.manager.Putting? && s.responses.wait != Waiting
    ensures var r, after := s.manager.response, PutResponse(s);
            || (after.sent == s.sent + [r] && PacketInHand(after.manager, t, life) == [])
            || (after.sent == s.sent && PacketInHand(after.manager, t, life) == PacketInHand(s.manager, t, life))
  {
  }

  lemma HandedByPut(s: State, t: int, life: L.Life)
    requires ManagerOk(s.manager, s.sensors, s.live) && s.manager.Putting? && s.responses.wait != Waiting
    ensures Handed(PutResponse(s), t, life) == Handed(s, t, life)
  {
    PutLeaves(s, t, life);
    PacketsInTwo(s.sent, [s.manager.response], t, life);
    assert [s.manager.response][..0] == [];
  }

  lemma HandedByStep(cfg: Config, s: State, a: Action, t: int, life: L.Life)
    requires Invariant(s) && Enabled(cfg, s, a)
    ensures Handed(Apply(cfg, s, a), t, life) == Handed(s, t, life) + OfferedBy(s, a, t, life)
  {
    if a.ManagerPut? {
      HandedByPut(s, t, life);
    } else {
      HandedByOthers(cfg, s, a, t, life);
    }
  }

  lemma {:induction false} HandedByRun(cfg: Config, s: State, run: seq<Action>, t: int, life: L.Life)
    requires Reachable(cfg, s) && IsRun(cfg, s, run)
    ensures Handed(EndOf(cfg, s, run), t, life) == Handed(s, t, life) + Offered(cfg, s, run, t, life)
    decreases run
  {
    if run == [] {
    } else {
      var next := Apply(cfg, s, run[0]);
      ReachableKeepsAll(cfg, s);
      ReachNext(cfg, s, run[0]);
      HandedByStep(cfg, s, run[0], t, life);
      HandedByRun(cfg, next, run[1..], t, life);
      Regrouped(Handed(s, t, life), OfferedBy(s, run[0], t, life), Offered(cfg, next, run[1..], t, life));
    }
  }

  lemma Regrouped<T>(a: seq<T>, b: seq<T>, c: seq<T>)
    ensures (a + b) + c == a + (b + c)
  {
  }

  lemma InHandPackets(pc: ManagerPc, t: int, life: L.Life)
    ensures PacketsOf(ResponseInHand(pc), t, life) == PacketInHand(pc, t, life)
  {
    if pc.Putting? || pc.Deferring? {
      assert [pc.response][..0] == [];
    }
  }

  lemma OfferedIsHanded(cfg: Config, run: seq<Action>, t: int, life: L.Life)
    requires IsRun(cfg, Initial(), run)
    ensures Offered(cfg, Initial(), run, t, life) == Handed(EndOf(cfg, Initial(), run), t, life)
  {
    assert Reaches(cfg, [], Initial());
    HandedByRun(cfg, Initial(), run, t, life);
  }

  /** The server has consumed, in order, the packets that a registration's streams sent, up to those that are
      still in the ring or in the manager's hand. */
  lemma UpdatesArrive(cfg: Config, run: seq<Action>, t: int, life: L.Life)
    requires IsRun(cfg, Initial(), run)
    ensures var s := EndOf(cfg, Initial(), run);
            PacketsOf(s.received, t, life) + PacketsOf(Outstanding(s), t, life)
            == Offered(cfg, Initial(), run, t, life)
  {
    var s := EndOf(cfg, Initial(), run);
    assert Reaches(cfg, run, s);
    OfferedIsHanded(cfg, run, t, life);
    ResponsesKeepOrder(cfg, s);
    HandedInThree(s, t, life);
  }

  lemma HandedInThree(s: State, t: int, life: L.Life)
    requires s.sent == s.received + s.responses.items
    ensures Handed(s, t, life) == PacketsOf(s.received, t, life) + PacketsOf(Outstanding(s), t, life)
  {
    PacketsInTwo(s.received, s.responses.items, t, life);
    PacketsInTwo(s.responses.items, ResponseInHand(s.manager), t, life);
    InHandPackets(s.manager, t, life);
  }

  // ---- at the server ----

  /** What the server is told to send for a packet of a stream. */
  function Carried(conf: Reliability, packet: seq<Sample>): Packet {
    Packet(conf, if packet == [] then [] else P.Layout(packet))
  }

  function AllCarried(conf: Reliability, packets: seq<seq<Sample>>): seq<Packet> {
    seq(|packets|, i requires 0 <= i < |packets| => Carried(conf, packets[i]))
  }

  lemma {:induction false} ConfirmableAreUnderstood(start: nat, maxNon: nat, packets: seq<Packet>)
    requires forall p <- packets :: p.conf.Confirmable?
    ensures Understood(start, maxNon, packets) == packets
  {
    if packets == [] {
    } else {
      var last := |packets| - 1;
      var front := packets[..last];
      assert packets[last] in packets && forall p <- front :: p in packets;
      ConfirmableAreUnderstood(start, maxNon, front);
      assert Understood(start, maxNon, packets) == Understood(start, maxNon, front) + [packets[last]];
      assert packets == front + [packets[last]];
    }
  }

  /** For a registration that has not failed too often, the i-th data notification is the i-th slice of the
      samples its stream was given: stamped, encoded and sent confirmably. */
  lemma ObserverGetsTheSamples(cfg: Config, run: seq<Action>, t: int, life: L.Life, stream: B.Stream, reg: Registration,
                               i: nat)
    requires IsRun(cfg, Initial(), run) && stream.Valid() && !stream.repeat && reg.Valid()
    requires stream.retransmit.Confirmable?
    requires stream.sent == Offered(cfg, Initial(), run, t, life)
    requires reg.packets == AllCarried(stream.retransmit, PacketsOf(EndOf(cfg, Initial(), run).received, t, life))
    requires i < |Datas(reg.messages)|
    ensures |Datas(reg.messages)| == |PacketsOf(EndOf(cfg, Initial(), run).received, t, life)| <= |stream.sent|
    ensures S.IsSlice(stream.sent[i], S.Stamped(stream.seen, stream.start, stream.freq), stream.size, i)
    ensures IsDataOf(Datas(reg.messages)[i], stream.sent[i])
  {
    var arrived := PacketsOf(EndOf(cfg, Initial(), run).received, t, life);
    ArrivedIsPrefix(cfg, run, t, life);
    NotifiedAs(reg, arrived, i);
    assert arrived[i] == stream.sent[i];
    stream.PacketIsSlice(i);
  }

  /** An observer that follows the header reads that slice out of the notification, timestamps and values,
      exactly if it is short enough for the 16-bit length. */
  lemma ObserverReadsTheSamples(cfg: Config, run: seq<Action>, t: int, life: L.Life, stream: B.Stream,
                                reg: Registration, i: nat)
    requires IsRun(cfg, Initial(), run) && stream.Valid() && !stream.repeat && reg.Valid()
    requires stream.retransmit.Confirmable?
    requires stream.sent == Offered(cfg, Initial(), run, t, life)
    requires reg.packets == AllCarried(stream.retransmit, PacketsOf(EndOf(cfg, Initial(), run).received, t, life))
    requires i < |Datas(reg.messages)| && i < |stream.sent| && stream.sent[i] != []
    requires P.SameShape(stream.sent[i], P.Axes(stream.sent[i][0].event.kind))
    requires forall x <- stream.sent[i] :: P.Fits(x.rtpts, 4)
    ensures var kind := stream.sent[i][0].event.kind;
            var total := P.TotalLength(P.Axes(kind), |stream.sent[i]|);
            && Datas(reg.messages)[i].Data?
            && (P.Receive(Datas(reg.messages)[i].bytes) == Some(P.Received(kind, total, P.ReadingsOf(stream.sent[i])))
                <==> total <= 32767)
  {
    ObserverGetsTheSamples(cfg, run, t, life, stream, reg, i);
    P.ReceiveOfLayoutIff(stream.sent[i]);
  }

  lemma ArrivedIsPrefix(cfg: Config, run: seq<Action>, t: int, life: L.Life)
    requires IsRun(cfg, Initial(), run)
    ensures PacketsOf(EndOf(cfg, Initial(), run).received, t, life) <= Offered(cfg, Initial(), run, t, life)
  {
    UpdatesArrive(cfg, run, t, life);
  }

  predicate IsDataOf(m: Message, packet: seq<Sample>) {
    m.Data? && m.confirmable && m.bytes == Carried(Confirmable, packet).bytes
  }

  lemma NotifiedAs(reg: Registration, packets: seq<seq<Sample>>, i: nat)
    requires reg.Valid() && reg.packets == AllCarried(Confirmable, packets) && i < |Datas(reg.messages)|
    ensures |Datas(reg.messages)| == |packets|
    ensures IsDataOf(Datas(reg.messages)[i], packets[i])
  {
    EveryPacketIsSent(reg.start, reg.maxNon, reg.packets);
    ConfirmableAreUnderstood(reg.start, reg.maxNon, reg.packets);
    assert DataFor(Datas(reg.messages), reg.packets, reg.maxNon, i);
  }
}
