/** From the sensor to the observer: which readings a stream is given in a run, and what its observer gets. */
module Deliveries {
  import opened Events
  import opened Options
  import opened EndToEnd
  import opened NotificationModel
  import opened Protocol
  import opened ProtocolInvariants
  import opened ProtocolOutcomes
  import opened ProtocolRuns
  import opened Registrations
  import opened RingModel
  import opened SensorModel

  // ---- the readings of a sensor reach each of its streams ----

  predicate TurnOf(s: State, a: Action, id: SensorId, t: int) {
    && a.StreamTurn? && s.manager.Delivering? && s.manager.sensor == id
    && s.manager.k < |s.sensors[id].streams| && s.sensors[id].streams[s.manager.k].ticket == t
  }

  /** At this point the manager holds a sample of the sensor that its k-th stream has not been given yet. */
  predicate HeldFor(pc: ManagerPc, id: SensorId, k: nat) {
    match pc
    case Delivering(sensor, next, _) => sensor == id && next <= k
    case Putting(_, AfterOneshot(sensor, _)) => sensor == id
    case Deferring(_, AfterOneshot(sensor, _)) => sensor == id
    case Putting(_, AfterStream(sensor, last, _)) => sensor == id && last < k
    case Deferring(_, AfterStream(sensor, last, _)) => sensor == id && last < k
    case _ => false
  }

  predicate ToBeGiven(s: State, id: SensorId, t: int) {
    HeldFor(s.manager, id, Find(s.sensors[id].streams, t))
  }

  /** The event that the manager's thread read last. */
  function LastRead(a: Action, before: SensorEvent): SensorEvent {
    if a.Reading? then a.event else before
  }

  function ReadBy(a: Action, id: SensorId): seq<SensorEvent> {
    if a.Reading? && a.sensor == id then [a.event] else []
  }

  function GivenBy(s: State, a: Action, last: SensorEvent, id: SensorId, t: int): seq<SensorEvent> {
    if TurnOf(s, a, id, t) then [last] else []
  }

  function Read(run: seq<Action>, id: SensorId): seq<SensorEvent> {
    if run == [] then [] else ReadBy(run[0], id) + Read(run[1..], id)
  }

  function Given(cfg: Config, s: State, run: seq<Action>, last: SensorEvent, id: SensorId, t: int): seq<SensorEvent>
    requires IsRun(cfg, s, run)
    decreases run
  {
    if run == [] then []
    else GivenBy(s, run[0], last, id, t)
         + Given(cfg, Apply(cfg, s, run[0]), run[1..], LastRead(run[0], last), id, t)
  }

  function LastOf(run: seq<Action>, last: SensorEvent): SensorEvent {
    if run == [] then last else LastOf(run[1..], LastRead(run[0], last))
  }

  /** The ticket streams on the sensor all along. */
  predicate StreamsThroughout(cfg: Config, s: State, run: seq<Action>, id: SensorId, t: int)
    requires IsRun(cfg, s, run)
    decreases run
  {
    Streams(s.sensors[id], t) && (run == [] || StreamsThroughout(cfg, Apply(cfg, s, run[0]), run[1..], id, t))
  }

  function InHand(s: State, last: SensorEvent, id: SensorId, t: int): seq<SensorEvent> {
    if ToBeGiven(s, id, t) then [last] else []
  }

  lemma TurnsFind(x: Sensor, k: nat, t: int)
    requires DistinctTickets(x.streams) && k < |x.streams| && x.streams[k].ticket == t
    ensures Find(x.streams, t) == k
  {
  }

  /** What is in hand for the stream, and what is read, is given or stays in hand. */
  predicate Balanced(before: seq<SensorEvent>, read: seq<SensorEvent>, given: seq<SensorEvent>,
                     after: seq<SensorEvent>)
  {
    before + read == given + after
  }

  lemma FetchHoldsNothing(s: State, memory: bool, id: SensorId, t: int)
    requires s.manager.Fetching?
    ensures !ToBeGiven(ServeNext(s, memory), id, t)
  {
  }

  lemma FoundWithin(x: Sensor, t: int)
    requires Streams(x, t)
    ensures Find(x.streams, t) < |x.streams|
  {
  }

  /** A turn at stream j leaves the sample held for the streams behind it. */
  lemma TurnHolds(s: State, packet: seq<Sample>, id: SensorId, k: nat)
    requires s.manager.Delivering? && k < |s.sensors[id].streams|
    ensures var mine := s.manager.sensor == id && s.manager.k == k;
            && HeldFor(OfferToStream(s, packet).manager, id, k) == (HeldFor(s.manager, id, k) && !mine)
            && (mine ==> HeldFor(s.manager, id, k))
  {
  }

  lemma GivenByTurn(cfg: Config, s: State, a: Action, last: SensorEvent, id: SensorId, t: int)
    requires Invariant(s) && Enabled(cfg, s, a) && a.StreamTurn? && Streams(s.sensors[id], t)
    ensures Balanced(InHand(s, last, id, t), [], GivenBy(s, a, last, id, t), InHand(Apply(cfg, s, a), last, id, t))
  {
    assert Consistent(s.sensors[id]);
    FoundWithin(s.sensors[id], t);
    TurnHolds(s, a.packet, id, Find(s.sensors[id].streams, t));
    OthersTouchNoStream(cfg, s, a, id);
    TurnIsMine(s, a, id, t);
  }

  lemma TurnIsMine(s: State, a: Action, id: SensorId, t: int)
    requires Consistent(s.sensors[id]) && Streams(s.sensors[id], t) && a.StreamTurn? && s.manager.Delivering?
    ensures TurnOf(s, a, id, t) <==> s.manager.sensor == id && s.manager.k == Find(s.sensors[id].streams, t)
  {
    FoundWithin(s.sensors[id], t);
    if TurnOf(s, a, id, t) {
      TurnsFind(s.sensors[id], s.manager.k, t);
    }
  }

  lemma GivenByReading(cfg: Config, s: State, a: Action, last: SensorEvent, id: SensorId, t: int)
    requires Invariant(s) && Enabled(cfg, s, a) && a.Reading? && Streams(s.sensors[id], t)
    ensures Balanced(InHand(s, last, id, t), ReadBy(a, id), [], InHand(Apply(cfg, s, a), a.event, id, t))
  {
    FoundWithin(s.sensors[id], t);
  }

  lemma ContinueHolds(s: State, after: After, response: L.Response, id: SensorId, k: nat)
    ensures HeldFor(Continue(s, after).manager, id, k) == HeldFor(Putting(response, after), id, k)
    ensures Continue(s, after).sensors[id].streams == s.sensors[id].streams
  {
  }

  lemma PutHolds(s: State, id: SensorId, k: nat)
    requires s.manager.Putting? && s.responses.wait != Waiting
    ensures HeldFor(PutResponse(s).manager, id, k) == HeldFor(s.manager, id, k)
    ensures PutResponse(s).sensors[id].streams == s.sensors[id].streams
  {
    var r := s.manager.response;
    if s.responses.wait == Ready && |s.responses.items| < SLOTS {
      ContinueHolds(s.(responses := EnterPut(s.responses, r), sent := s.sent + [r]), s.manager.after, r, id, k);
    } else if s.responses.wait == Signalled {
      ContinueHolds(s.(responses := LeavePut(s.responses, r), sent := s.sent + [r]), s.manager.after, r, id, k);
    }
  }

  lemma GivenByPut(s: State, last: SensorEvent, id: SensorId, t: int)
    requires s.manager.Putting? && s.responses.wait != Waiting
    ensures InHand(PutResponse(s), last, id, t) == InHand(s, last, id, t)
  {
    PutHolds(s, id, Find(s.sensors[id].streams, t));
  }

  lemma OthersHoldTheSame(cfg: Config, s: State, a: Action, last: SensorEvent, id: SensorId, t: int)
    requires Enabled(cfg, s, a) && !a.StreamTurn? && !a.Reading? && !a.ManagerPut?
    ensures InHand(Apply(cfg, s, a), last, id, t) == InHand(s, last, id, t)
  {
    if a.FetchRequest? {
      FetchHoldsNothing(s, a.memory, id, t);
    } else {
      OthersTouchNoStream(cfg, s, a, id);
      OthersHoldFor(cfg, s, a, id, Find(s.sensors[id].streams, t));
    }
  }

  lemma OthersHoldFor(cfg: Config, s: State, a: Action, id: SensorId, k: nat)
    requires Enabled(cfg, s, a) && !a.StreamTurn? && !a.Reading? && !a.ManagerPut? && !a.FetchRequest?
    ensures HeldFor(Apply(cfg, s, a).manager, id, k) == HeldFor(s.manager, id, k)
  {
    if OfServer(a) {
      ServerLeavesManager(cfg, s, a);
    } else if a.DeferRequest? {
      DeferTouches(cfg, s);
    }
  }

  lemma StepBalanced(cfg: Config, s: State, a: Action, last: SensorEvent, id: SensorId, t: int)
    requires Invariant(s) && Enabled(cfg, s, a) && Streams(s.sensors[id], t)
    ensures Balanced(InHand(s, last, id, t), ReadBy(a, id), GivenBy(s, a, last, id, t),
                     InHand(Apply(cfg, s, a), LastRead(a, last), id, t))
  {
    if a.StreamTurn? {
      GivenByTurn(cfg, s, a, last, id, t);
    } else if a.Reading? {
      GivenByReading(cfg, s, a, last, id, t);
    } else {
      if a.ManagerPut? {
        GivenByPut(s, last, id, t);
      } else {
        OthersHoldTheSame(cfg, s, a, last, id, t);
      }
      WithNothing(InHand(s, last, id, t));
    }
  }

  lemma {:induction false} RunBalanced(cfg: Config, s: State, run: seq<Action>, last: SensorEvent, id: SensorId, t: int)
    requires Reachable(cfg, s) && IsRun(cfg, s, run) && StreamsThroughout(cfg, s, run, id, t)
    ensures Balanced(InHand(s, last, id, t), Read(run, id), Given(cfg, s, run, last, id, t),
                     InHand(EndOf(cfg, s, run), LastOf(run, last), id, t))
    decreases run
  {
    if run == [] {
      WithNothing(InHand(s, last, id, t));
    } else {
      var next, now := Apply(cfg, s, run[0]), LastRead(run[0], last);
      ReachableKeepsAll(cfg, s);
      ReachNext(cfg, s, run[0]);
      StepBalanced(cfg, s, run[0], last, id, t);
      RunBalanced(cfg, next, run[1..], now, id, t);
      Regroup(InHand(s, last, id, t), ReadBy(run[0], id), Read(run[1..], id),
              GivenBy(s, run[0], last, id, t), InHand(next, now, id, t),
              Given(cfg, next, run[1..], now, id, t), InHand(EndOf(cfg, next, run[1..]), LastOf(run[1..], now), id, t));
    }
  }

  /** While a ticket streams, its stream is given every reading of its sensor once and in order, but for the one
      that the manager is still handling. */
  lemma EveryReadingIsGiven(cfg: Config, s: State, run: seq<Action>, last: SensorEvent, id: SensorId, t: int)
    requires Reachable(cfg, s) && IsRun(cfg, s, run) && StreamsThroughout(cfg, s, run, id, t) && !ToBeGiven(s, id, t)
    ensures Given(cfg, s, run, last, id, t) + InHand(EndOf(cfg, s, run), LastOf(run, last), id, t) == Read(run, id)
  {
    RunBalanced(cfg, s, run, last, id, t);
    WithNothing(Read(run, id));
  }

  // ---- what the stream makes of them ----

  /** A stream's clock and buffer. */
  datatype Feed = Feed(start: int, freq: int, size: nat)

  predicate FeedOk(feed: Feed) {
    feed.freq > 0 && feed.size > 0
  }

  function DueOf(feed: Feed, events: seq<SensorEvent>): seq<Sample>
    requires FeedOk(feed)
  {
    S.Due(events, feed.start, feed.freq, feed.size)
  }

  function BundlesOf(feed: Feed, events: seq<SensorEvent>): seq<seq<Sample>>
    requires FeedOk(feed)
  {
    S.Bundles(events, feed.start, feed.freq, feed.size)
  }

  /** At each of its turns the stream sends what `Stream.Deliver` returns for the last reading, after what it
      was given before. */
  predicate Encodes(cfg: Config, s: State, run: seq<Action>, last: SensorEvent, id: SensorId, t: int,
                    feed: Feed, given: seq<SensorEvent>)
    requires IsRun(cfg, s, run) && FeedOk(feed)
    decreases run
  {
    run == []
    || (&& (TurnOf(s, run[0], id, t) ==> run[0].packet == DueOf(feed, given + [last]))
        && Encodes(cfg, Apply(cfg, s, run[0]), run[1..], LastRead(run[0], last), id, t,
                   feed, given + GivenBy(s, run[0], last, id, t)))
  }

  /** The ticket's stream is of that registration, on that sensor. */
  ghost predicate OfRegistration(s: State, id: SensorId, t: int, life: L.Life) {
    Invariant(s) && Streams(s.sensors[id], t) && LifeOf(s.live, t) == life
  }

  lemma OnlySensor(s: State, id: SensorId, other: SensorId, t: int)
    requires Invariant(s) && Streams(s.sensors[id], t) && Streams(s.sensors[other], t)
    ensures id == other && t in s.live
  {
    assert MatchesAt(s.sensors[id], id, s.live) && MatchesAt(s.sensors[other], other, s.live);
  }

  lemma TurnOffers(s: State, a: Action, id: SensorId, t: int, life: L.Life)
    requires OfRegistration(s, id, t, life)
    ensures OfferedBy(s, a, t, life) == if TurnOf(s, a, id, t) && a.packet != [] then [a.packet] else []
  {
    if OfferedBy(s, a, t, life) != [] {
      var x := s.sensors[s.manager.sensor];
      assert x.streams[s.manager.k] in x.streams;
      OnlySensor(s, id, s.manager.sensor, t);
    }
  }

  lemma LifeStays(cfg: Config, s: State, a: Action, id: SensorId, t: int, life: L.Life)
    requires OfRegistration(s, id, t, life) && Enabled(cfg, s, a)
    requires Invariant(Apply(cfg, s, a)) && Streams(Apply(cfg, s, a).sensors[id], t)
    ensures OfRegistration(Apply(cfg, s, a), id, t, life)
  {
    var after := Apply(cfg, s, a);
    OnlySensor(s, id, id, t);
    OnlySensor(after, id, id, t);
    if a.FetchRequest? {
      if NextRequest(s).Some? {
        LifeOfServed(s, NextRequest(s).value, a.memory, t);
      }
    } else {
      OthersTouchNoLive(cfg, s, a);
    }
  }

  lemma LifeOfServed(s: State, r: L.Request, memory: bool, t: int)
    requires Invariant(s) && s.manager.Fetching? && NextRequest(s) == Some(r) && t in s.live
    ensures t in Dispatch(Fetched(s), r, memory).live ==> Dispatch(Fetched(s), r, memory).live[t] == s.live[t]
  {
    HeadOfPendingIsOfLife(s, r);
    match r
    case Start(_, _, _) => StartOnTable(Fetched(s), r, memory);
    case Stop(_, _) => StopOnTable(Fetched(s), r, memory);
    case Oneshot(_, _) => OneshotOnTable(Fetched(s), r, memory);
  }

  lemma OfferedStep(s: State, a: Action, last: SensorEvent, id: SensorId, t: int, life: L.Life,
                    feed: Feed, given: seq<SensorEvent>)
    requires OfRegistration(s, id, t, life) && FeedOk(feed)
    requires TurnOf(s, a, id, t) ==> a.packet == DueOf(feed, given + [last])
    ensures BundlesOf(feed, given + GivenBy(s, a, last, id, t)) == BundlesOf(feed, given) + OfferedBy(s, a, t, life)
  {
    TurnOffers(s, a, id, t, life);
    assert given + [] == given && BundlesOf(feed, given) + [] == BundlesOf(feed, given);
    S.BundlesNext(given, last, feed.start, feed.freq, feed.size);
  }

  lemma {:induction false} OfferedAreBundles(cfg: Config, s: State, run: seq<Action>, last: SensorEvent,
                                             id: SensorId, t: int, life: L.Life, feed: Feed, given: seq<SensorEvent>)
    requires Reachable(cfg, s) && IsRun(cfg, s, run) && StreamsThroughout(cfg, s, run, id, t)
    requires OfRegistration(s, id, t, life) && FeedOk(feed) && Encodes(cfg, s, run, last, id, t, feed, given)
    ensures BundlesOf(feed, given + Given(cfg, s, run, last, id, t))
         == BundlesOf(feed, given) + Offered(cfg, s, run, t, life)
    decreases run
  {
    if run == [] {
      assert given + [] == given && BundlesOf(feed, given) + [] == BundlesOf(feed, given);
    } else {
      var next, now := Apply(cfg, s, run[0]), LastRead(run[0], last);
      var more := GivenBy(s, run[0], last, id, t);
      ReachNext(cfg, s, run[0]);
      ReachableKeepsAll(cfg, next);
      LifeStays(cfg, s, run[0], id, t, life);
      OfferedStep(s, run[0], last, id, t, life, feed, given);
      OfferedAreBundles(cfg, next, run[1..], now, id, t, life, feed, given + more);
      Regrouped(given, more, Given(cfg, next, run[1..], now, id, t));
      Regrouped(BundlesOf(feed, given), OfferedBy(s, run[0], t, life), Offered(cfg, next, run[1..], t, life));
    }
  }

  // ---- what the observer gets ----

  lemma {:induction false} RunInTwo(cfg: Config, s: State, first: seq<Action>, rest: seq<Action>)
    requires IsRun(cfg, s, first) && IsRun(cfg, EndOf(cfg, s, first), rest)
    ensures IsRun(cfg, s, first + rest) && EndOf(cfg, s, first + rest) == EndOf(cfg, EndOf(cfg, s, first), rest)
    decreases first
  {
    if first == [] {
      assert first + rest == rest;
    } else {
      assert (first + rest)[0] == first[0] && (first + rest)[1..] == first[1..] + rest;
      RunInTwo(cfg, Apply(cfg, s, first[0]), first[1..], rest);
    }
  }

  lemma {:induction false} OfferedInTwo(cfg: Config, s: State, first: seq<Action>, rest: seq<Action>, t: int,
                                        life: L.Life)
    requires IsRun(cfg, s, first) && IsRun(cfg, EndOf(cfg, s, first), rest) && IsRun(cfg, s, first + rest)
    ensures Offered(cfg, s, first + rest, t, life)
         == Offered(cfg, s, first, t, life) + Offered(cfg, EndOf(cfg, s, first), rest, t, life)
    decreases first
  {
    if first == [] {
      assert first + rest == rest;
    } else {
      var next, whole := Apply(cfg, s, first[0]), first + rest;
      assert whole[0] == first[0] && whole[1..] == first[1..] + rest;
      OfferedInTwo(cfg, next, first[1..], rest, t, life);
      Regrouped(OfferedBy(s, first[0], t, life), Offered(cfg, next, first[1..], t, life),
                Offered(cfg, EndOf(cfg, next, first[1..]), rest, t, life));
    }
  }

  /** The stream of the ticket has just started: none of its registration's updates is under way or behind, and
      no sample of its sensor is in hand. */
  ghost predicate JustStarted(cfg: Config, before: seq<Action>, id: SensorId, t: int, life: L.Life) {
    && IsRun(cfg, Initial(), before) && Offered(cfg, Initial(), before, t, life) == []
    && var s := EndOf(cfg, Initial(), before);
       OfRegistration(s, id, t, life) && !ToBeGiven(s, id, t)
  }

  lemma ArrivedAreBundles(cfg: Config, before: seq<Action>, run: seq<Action>, last: SensorEvent, id: SensorId, t: int,
                          life: L.Life, feed: Feed)
    requires JustStarted(cfg, before, id, t, life) && FeedOk(feed)
    requires var s := EndOf(cfg, Initial(), before);
             IsRun(cfg, s, run) && StreamsThroughout(cfg, s, run, id, t) && Encodes(cfg, s, run, last, id, t, feed, [])
    ensures var s := EndOf(cfg, Initial(), before);
            PacketsOf(EndOf(cfg, s, run).received, t, life) <= BundlesOf(feed, Given(cfg, s, run, last, id, t))
  {
    var s := EndOf(cfg, Initial(), before);
    assert Reaches(cfg, before, s);
    OfferedAreBundles(cfg, s, run, last, id, t, life, feed, []);
    assert [] + Given(cfg, s, run, last, id, t) == Given(cfg, s, run, last, id, t);
    RunInTwo(cfg, Initial(), before, run);
    OfferedInTwo(cfg, Initial(), before, run, t, life);
    ArrivedIsPrefix(cfg, before + run, t, life);
  }

  /** The data notifications of a registration that has not failed too often carry, one after the other, the
      encoded slices of the stamped readings that its sensor produced since the stream was started. */
  lemma ObserverGetsTheReadings(cfg: Config, before: seq<Action>, run: seq<Action>, last: SensorEvent, id: SensorId,
                                t: int, life: L.Life, feed: Feed, reg: Registration, i: nat)
    requires JustStarted(cfg, before, id, t, life) && FeedOk(feed) && reg.Valid() && i < |Datas(reg.messages)|
    requires var s := EndOf(cfg, Initial(), before);
             && IsRun(cfg, s, run) && StreamsThroughout(cfg, s, run, id, t)
             && Encodes(cfg, s, run, last, id, t, feed, [])
             && reg.packets == AllCarried(Confirmable, PacketsOf(EndOf(cfg, s, run).received, t, life))
    ensures var s := EndOf(cfg, Initial(), before);
            var given := Given(cfg, s, run, last, id, t);
            && given <= Read(run, id)
            && i < |BundlesOf(feed, given)| && IsDataOf(Datas(reg.messages)[i], BundlesOf(feed, given)[i])
            && S.IsSlice(BundlesOf(feed, given)[i], S.Stamped(given, feed.start, feed.freq), feed.size, i)
  {
    var s := EndOf(cfg, Initial(), before);
    assert Reaches(cfg, before, s);
    var given := Given(cfg, s, run, last, id, t);
    EveryReadingIsGiven(cfg, s, run, last, id, t);
    ArrivedAreBundles(cfg, before, run, last, id, t, life, feed);
    NotifiedAs(reg, PacketsOf(EndOf(cfg, s, run).received, t, life), i);
    S.BundlesAreSlices(given, feed.start, feed.freq, feed.size, i);
  }
}
