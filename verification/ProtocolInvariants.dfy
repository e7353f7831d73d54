/** What every step of the two threads keeps, and the event of the ledger that each step is. */
module ProtocolInvariants {
  import opened Options
  import opened RingModel
  import opened DeferralModel
  import opened Events
  import opened SensorModel
  import opened Ledger
  import opened Protocol

  /** The server waits only inside a put, and its wait has no time limit. */
  predicate RequestSide(requests: Ring<Request>, server: ServerPc) {
    && RingOk(requests)
    && requests.wait != TimedOut
    && (requests.wait != Ready ==> server.Handing?)
  }

  predicate ResponseSide(responses: Ring<Response>, manager: ManagerPc) {
    && RingOk(responses)
    && (responses.wait != Ready ==> manager.Putting?)
  }

  predicate InHandOk(response: Response, after: After, sensors: Table, live: map<int, Life>) {
    match after
    case AfterRequest => !response.Update?
    case AfterOneshot(sensor, _) =>
      sensors[sensor].oneshots != [] && response == Answer(sensors[sensor].oneshots[0])
    case AfterStream(sensor, k, _) =>
      && sensors[sensor].oneshots == []
      && k < |sensors[sensor].streams|
      && var t := sensors[sensor].streams[k].ticket;
         t in live && response.Update? && response.ticket == t && response.life == live[t] && response.packet != []
  }

  predicate ManagerOk(manager: ManagerPc, sensors: Table, live: map<int, Life>) {
    match manager
    case Delivering(sensor, k, _) => sensors[sensor].oneshots == [] && k <= |sensors[sensor].streams|
    case Putting(response, after) => InHandOk(response, after, sensors, live)
    case Deferring(response, after) => InHandOk(response, after, sensors, live)
    case _ => true
  }

  /** The bookkeeping names exactly the running streams, each on its registration's sensor. */
  ghost predicate MatchesAt(x: Sensor, id: SensorId, live: map<int, Life>) {
    forall t :: Streams(x, t) <==> t in live && live[t].sensor == id
  }

  ghost predicate LiveMatches(sensors: Table, live: map<int, Life>) {
    forall id: SensorId :: MatchesAt(sensors[id], id, live)
  }

  ghost predicate AllConsistent(sensors: Table) {
    forall sensor: SensorId :: Consistent(sensors[sensor])
  }

  predicate FrequenciesPositive(pending: seq<Request>) {
    forall r <- pending :: r.Start? ==> r.freq > 0
  }

  ghost predicate Invariant(s: State) {
    && RequestSide(s.requests, s.server)
    && ResponseSide(s.responses, s.manager)
    && ManagerOk(s.manager, s.sensors, s.live)
    && LiveMatches(s.sensors, s.live)
    && AllConsistent(s.sensors)
    && FrequenciesPositive(Pending(s))
    && Sound(View(s))
  }

  lemma InitialInvariant()
    ensures Invariant(Initial())
  {
  }

  // ---- the sensor table ----

  lemma TableUpdated(sensors: Table, id: SensorId, x: Sensor)
    requires AllConsistent(sensors) && Consistent(x)
    ensures AllConsistent(sensors[id := x])
  {
  }

  /** Changing a sensor without touching its streams. */
  lemma SameStreams(sensors: Table, id: SensorId, x: Sensor, live: map<int, Life>)
    requires LiveMatches(sensors, live) && x.streams == sensors[id].streams
    ensures LiveMatches(sensors[id := x], live)
  {
    assert MatchesAt(sensors[id], id, live);
    assert forall t :: Streams(x, t) <==> Streams(sensors[id], t);
    var after: Table := sensors[id := x];
    forall i: SensorId
      ensures MatchesAt(after[i], i, live)
    {
      assert MatchesAt(sensors[i], i, live);
    }
  }

  lemma LiveAfterStart(sensors: Table, live: map<int, Life>, t: int, life: Life, freq: int)
    requires LiveMatches(sensors, live) && AllConsistent(sensors)
    requires t in live ==> live[t] == life
    ensures LiveMatches(sensors[life.sensor := StartStream(sensors[life.sensor], t, freq, true).sensor],
                        live[t := life])
    ensures StartStream(sensors[life.sensor], t, freq, true).added <==> t !in live
  {
    var id := life.sensor;
    var x := StartStream(sensors[id], t, freq, true).sensor;
    assert Consistent(sensors[id]) && MatchesAt(sensors[id], id, live);
    StartStreamsTicket(sensors[id], t, freq);
    var after: Table := sensors[id := x];
    forall i: SensorId
      ensures MatchesAt(after[i], i, live[t := life])
    {
      assert MatchesAt(sensors[i], i, live);
    }
  }

  lemma LiveAfterStop(sensors: Table, live: map<int, Life>, t: int, life: Life)
    requires LiveMatches(sensors, live) && AllConsistent(sensors)
    requires t in live ==> live[t] == life
    ensures StopStream(sensors[life.sensor], t).NotFound? <==> t !in live
    ensures StopStream(sensors[life.sensor], t).Removed? ==>
              LiveMatches(sensors[life.sensor := StopStream(sensors[life.sensor], t).sensor], live - {t})
  {
    var id := life.sensor;
    assert Consistent(sensors[id]) && MatchesAt(sensors[id], id, live);
    StopForgetsTicket(sensors[id], t);
    if StopStream(sensors[id], t).Removed? {
      var x := StopStream(sensors[id], t).sensor;
      var after: Table := sensors[id := x];
      forall i: SensorId
        ensures MatchesAt(after[i], i, live - {t})
      {
        assert MatchesAt(sensors[i], i, live);
      }
    }
  }

  // ---- the server's steps ----

  lemma HandPending(s: State, l: Ledger, r: Request)
    requires s.server.Net? && s.server.left > 0
    ensures Pending(Hand(s, l, r)) == Pending(s) + [r]
  {
    assert Pending(s) == Genuine(s.deferred) + s.requests.items;
  }

  lemma PutRequestKeepsPending(s: State)
    requires s.server.Handing? && (s.requests.wait == Ready || s.requests.wait == Signalled)
    ensures Pending(PutRequest(s)) == Pending(s)
  {
    var items := s.requests.items;
    assert Genuine(s.deferred) + (items + [s.server.request]) + []
        == Genuine(s.deferred) + items + [s.server.request];
  }

  lemma ServerActKeepsInvariant(cfg: Config, s: State, a: Action)
    requires Invariant(s) && Enabled(cfg, s, a) && OfServer(a) && !a.ServerPut? && !a.ConsumeResponse?
    ensures Invariant(Apply(cfg, s, a))
  {
    var after := Apply(cfg, s, a);
    match a
    case NextRound(_) => assert View(after) == View(s);
    case NetworkDone => assert View(after) == View(s);
    case OtherMessage => assert View(after) == View(s);
    case Settled(t) =>
      assert View(after) == Settle(View(s), t);
      SettleKeepsSound(View(s), t);
    case ObserveGet(t, sensor, freq) =>
      var l := Observe(View(s), t, sensor, freq);
      HandPending(s, l, Start(t, Registered(View(s), t, sensor), freq));
      assert View(after) == l;
      ObserveKeepsSound(View(s), t, sensor, freq);
    case PlainGet(t, sensor) =>
      HandPending(s, View(s), Oneshot(t, sensor));
      assert View(after) == Ask(View(s), t, sensor);
      AskKeepsSound(View(s), t, sensor);
    case OnUnregister(t) =>
      HandPending(s, View(s), Stop(t, s.lives[t]));
      assert View(after) == Unregister(View(s), t);
      UnregisterKeepsSound(View(s), t);
  }

  lemma ServerPutKeepsInvariant(cfg: Config, s: State)
    requires Invariant(s) && Enabled(cfg, s, ServerPut)
    ensures Invariant(Apply(cfg, s, ServerPut))
  {
    PutRequestKeepsPending(s);
    assert View(Apply(cfg, s, ServerPut)) == View(s);
  }

  lemma ConsumeTouches(s: State, confirmable: bool)
    requires s.server.Consuming?
    ensures var after := ConsumeOne(s, confirmable);
            && after.responses == Get(s.responses) && after.server.Consuming?
            && after.requests == s.requests && after.manager == s.manager && after.sensors == s.sensors
            && after.live == s.live && after.lives == s.lives && after.lost == s.lost
            && Pending(after) == Pending(s)
  {
  }

  lemma ConsumeIsEvent(s: State, confirmable: bool)
    requires s.server.Consuming?
    ensures View(ConsumeOne(s, confirmable))
         == if s.responses.items == [] then View(s) else Consume(View(s), confirmable)
  {
    ConsumeTouches(s, confirmable);
    if s.responses.items != [] {
      OldestOutstanding(s.responses.items, ResponseInHand(s.manager));
    }
  }

  lemma OldestOutstanding(items: seq<Response>, inHand: seq<Response>)
    requires items != []
    ensures items + inHand != [] && (items + inHand)[0] == items[0] && (items + inHand)[1..] == items[1..] + inHand
  {
  }

  lemma ConsumeKeepsInvariant(cfg: Config, s: State, confirmable: bool)
    requires Invariant(s) && Enabled(cfg, s, ConsumeResponse(confirmable))
    ensures Invariant(Apply(cfg, s, ConsumeResponse(confirmable)))
  {
    ConsumeIsEvent(s, confirmable);
    ConsumeTouches(s, confirmable);
    if s.responses.items != [] {
      ConsumeKeepsSound(View(s), confirmable);
    }
  }

  // ---- the manager's steps ----

  /** Fetching takes the oldest queued request, or a filler and with it nothing. */
  lemma QueueFetched(s: State)
    ensures NextRequest(s).Some? ==> Queue(s) == [NextRequest(s).value] + Queue(Fetched(s))
    ensures NextRequest(s).None? ==> Queue(s) == Queue(Fetched(s))
  {
    if s.deferred == [] && s.requests.items != [] {
      assert s.requests.items == [s.requests.items[0]] + s.requests.items[1..];
    }
  }

  lemma FetchedPending(s: State)
    ensures NextRequest(s).Some? ==> Pending(s) == [NextRequest(s).value] + Pending(Fetched(s))
    ensures NextRequest(s).None? ==> Pending(s) == Pending(Fetched(s))
  {
    QueueFetched(s);
  }

  lemma FetchedKeeps(s: State)
    requires Invariant(s)
    ensures RequestSide(Fetched(s).requests, s.server) && FrequenciesPositive(Pending(Fetched(s)))
  {
    FetchedPending(s);
  }

  /** The sensors, the streams and the answer that serving one request leads to. */
  lemma StartOnTable(s: State, r: Request, memory: bool)
    requires LiveMatches(s.sensors, s.live) && AllConsistent(s.sensors)
    requires r.Start? && r.freq > 0 && (r.ticket in s.live ==> s.live[r.ticket] == r.life)
    ensures var after := Dispatch(s, r, memory);
            && LiveMatches(after.sensors, after.live) && AllConsistent(after.sensors)
            && after.live == (if memory then s.live[r.ticket := r.life] else s.live)
            && after.manager == if memory && r.ticket !in s.live then Sampling(0)
                                else Putting(Stopped(r.ticket, r.life), AfterRequest)
  {
    var id := r.life.sensor;
    if memory {
      LiveAfterStart(s.sensors, s.live, r.ticket, r.life, r.freq);
    } else {
      assert s.sensors[id := s.sensors[id]] == s.sensors;
    }
    StartKeepsConsistent(s.sensors[id], r.ticket, r.freq, memory);
    TableUpdated(s.sensors, id, StartStream(s.sensors[id], r.ticket, r.freq, memory).sensor);
  }

  lemma StopOnTable(s: State, r: Request, memory: bool)
    requires LiveMatches(s.sensors, s.live) && AllConsistent(s.sensors)
    requires r.Stop? && (r.ticket in s.live ==> s.live[r.ticket] == r.life)
    ensures var after := Dispatch(s, r, memory);
            var faults := StopStream(s.sensors[r.life.sensor], r.ticket).NullStream?;
            && LiveMatches(after.sensors, after.live) && AllConsistent(after.sensors)
            && after.live == (if faults || r.ticket !in s.live then s.live else s.live - {r.ticket})
            && after.manager == if faults then Faulted else if r.ticket !in s.live then Sampling(0)
                                else Putting(Stopped(r.ticket, s.live[r.ticket]), AfterRequest)
  {
    var id := r.life.sensor;
    LiveAfterStop(s.sensors, s.live, r.ticket, r.life);
    if StopStream(s.sensors[id], r.ticket).Removed? {
      StopKeepsConsistent(s.sensors[id], r.ticket);
      TableUpdated(s.sensors, id, StopStream(s.sensors[id], r.ticket).sensor);
    }
  }

  lemma OneshotOnTable(s: State, r: Request, memory: bool)
    requires LiveMatches(s.sensors, s.live) && AllConsistent(s.sensors) && r.Oneshot?
    ensures var after := Dispatch(s, r, memory);
            && LiveMatches(after.sensors, after.live) && AllConsistent(after.sensors) && after.live == s.live
            && after.manager == if s.sensors[r.sensor].cacheValid then Putting(Answer(r.ticket), AfterRequest)
                                else Sampling(0)
  {
    var x := s.sensors[r.sensor];
    assert Consistent(x);
    OneshotsKeepConsistent(x, r.ticket);
    TableUpdated(s.sensors, r.sensor, RegisterOneshot(x, r.ticket));
    SameStreams(s.sensors, r.sensor, RegisterOneshot(x, r.ticket), s.live);
  }

  lemma DispatchTouches(s: State, r: Request, memory: bool)
    ensures var after := Dispatch(s, r, memory);
            && after.requests == s.requests && after.responses == s.responses && after.server == s.server
            && after.deferred == s.deferred && after.lost == s.lost && after.issued == s.issued
            && after.lives == s.lives && after.owed == s.owed && after.inflight == s.inflight
            && after.sent == s.sent && after.received == s.received && after.served == s.served + [r]
  {
  }

  predicate Faults(s: State, r: Request) {
    r.Stop? && StopStream(s.sensors[r.life.sensor], r.ticket).NullStream?
  }

  /** Serving a request is the ledger's event of that name, except where the code reads a stream that is
      not there. */
  lemma DispatchIsEvent(f: State, r: Request, memory: bool, l: Ledger)
    requires LiveMatches(f.sensors, f.live) && AllConsistent(f.sensors)
    requires r.Start? ==> r.freq > 0
    requires r.Oneshot? || (r.ticket in f.live ==> f.live[r.ticket] == r.life)
    requires l.pending != [] && l.pending[0] == r && l.live == f.live && l.responses == f.responses.items
    ensures var after := Dispatch(f, r, memory);
            var served := if Faults(f, r) then Skip(l)
                          else Serve(l, memory, r.Oneshot? && f.sensors[r.sensor].cacheValid);
            && after.live == served.live && Outstanding(after) == served.responses
            && LiveMatches(after.sensors, after.live) && AllConsistent(after.sensors)
            && ManagerOk(after.manager, after.sensors, after.live)
  {
    var responses := f.responses.items;
    assert responses + [] == responses;
    match r
    case Start(_, _, _) => StartOnTable(f, r, memory);
    case Stop(_, _) => StopOnTable(f, r, memory);
    case Oneshot(_, _) => OneshotOnTable(f, r, memory);
  }

  lemma FetchIsEvent(s: State, memory: bool)
    requires Invariant(s) && s.manager.Fetching?
    ensures View(ServeNext(s, memory)) == Served(s, memory)
    ensures var after := ServeNext(s, memory);
            && LiveMatches(after.sensors, after.live) && AllConsistent(after.sensors)
            && ManagerOk(after.manager, after.sensors, after.live)
            && after.requests == Fetched(s).requests && after.responses == s.responses && after.server == s.server
            && Pending(after) == Pending(Fetched(s))
  {
    FetchedPending(s);
    if NextRequest(s).Some? {
      RequestIsEvent(s, NextRequest(s).value, memory);
    }
  }

  lemma RequestIsEvent(s: State, r: Request, memory: bool)
    requires Invariant(s) && s.manager.Fetching? && NextRequest(s) == Some(r)
    ensures View(Dispatch(Fetched(s), r, memory)) == Served(s, memory)
    ensures var after := Dispatch(Fetched(s), r, memory);
            && LiveMatches(after.sensors, after.live) && AllConsistent(after.sensors)
            && ManagerOk(after.manager, after.sensors, after.live)
            && after.requests == Fetched(s).requests && after.responses == s.responses && after.server == s.server
            && Pending(after) == Pending(Fetched(s))
  {
    var f := Fetched(s);
    HeadOfPendingIsOfLife(s, r);
    FetchedPending(s);
    assert Pending(s)[1..] == Pending(f);
    DispatchIsEvent(f, r, memory, View(s));
    DispatchTouches(f, r, memory);
  }

  lemma ServedIsSound(s: State, memory: bool)
    requires Sound(View(s))
    ensures Sound(Served(s, memory))
  {
    if Pending(s) != [] && NextRequest(s).Some? {
      var r := Pending(s)[0];
      if Faults(s, r) {
        SkipKeepsSound(View(s));
      } else {
        ServeKeepsSound(View(s), memory, r.Oneshot? && s.sensors[r.sensor].cacheValid);
      }
    }
  }

  lemma FetchKeepsInvariant(cfg: Config, s: State, memory: bool)
    requires Invariant(s) && Enabled(cfg, s, FetchRequest(memory))
    ensures Invariant(Apply(cfg, s, FetchRequest(memory)))
  {
    FetchIsEvent(s, memory);
    FetchedKeeps(s);
    ServedIsSound(s, memory);
  }

  lemma HeadOfPendingIsOfLife(s: State, r: Request)
    requires Invariant(s) && s.manager.Fetching? && NextRequest(s) == Some(r)
    ensures Pending(s) != [] && Pending(s)[0] == r
    ensures r.Start? ==> r.freq > 0
    ensures r.Oneshot? || (r.ticket in s.live ==> s.live[r.ticket] == r.life)
    ensures Outstanding(s) == s.responses.items
  {
    FetchedPending(s);
    assert r in Pending(s);
    assert r.Start? || r.ticket in s.live ==> OfLife(r, s.lives);
  }

  /** What serving the next request does to the ledger. */
  function Served(s: State, memory: bool): Ledger {
    if Pending(s) == [] || NextRequest(s).None? then View(s)
    else
      var r := Pending(s)[0];
      if Faults(s, r) then Skip(View(s))
      else Serve(View(s), memory, r.Oneshot? && s.sensors[r.sensor].cacheValid)
  }

  lemma ReadingKeepsInvariant(cfg: Config, s: State, a: Action)
    requires Invariant(s) && Enabled(cfg, s, a) && (a.Reading? || a.RealReading?)
    ensures Invariant(Apply(cfg, s, a))
  {
    var after := Apply(cfg, s, a);
    var x := s.sensors[a.sensor];
    assert Consistent(x);
    OneshotsKeepConsistent(x, 0);
    TableUpdated(s.sensors, a.sensor, after.sensors[a.sensor]);
    SameStreams(s.sensors, a.sensor, after.sensors[a.sensor], s.live);
    assert Outstanding(s) == s.responses.items;
    assert Outstanding(s) + [] == Outstanding(s);
    if a.Reading? && x.oneshots != [] {
      assert View(after) == Reply(View(s), x.oneshots[0]);
      ReplyKeepsSound(View(s), x.oneshots[0]);
    } else {
      assert View(after) == View(s);
    }
  }

  lemma StreamTurnKeepsInvariant(cfg: Config, s: State, packet: seq<Sample>)
    requires Invariant(s) && Enabled(cfg, s, StreamTurn(packet))
    ensures Invariant(Apply(cfg, s, StreamTurn(packet)))
  {
    var after := Apply(cfg, s, StreamTurn(packet));
    var pc := s.manager;
    var x := s.sensors[pc.sensor];
    assert Outstanding(s) == s.responses.items;
    if pc.k < |x.streams| && packet != [] {
      var t := x.streams[pc.k].ticket;
      assert x.streams[pc.k] in x.streams;
      assert Streams(x, t) && MatchesAt(x, pc.sensor, s.live);
      assert View(after) == SendUpdate(View(s), t, packet);
      SendUpdateKeepsSound(View(s), t, packet);
    } else {
      assert View(after) == View(s);
    }
  }

  /** Moving the response in hand into the ring leaves the outstanding responses as they were, and what
      the manager takes in hand next joins them. */
  lemma ContinueKeepsInvariant(s: State, ring: Ring<Response>, sent: seq<Response>)
    requires Invariant(s) && s.manager.Putting?
    requires RingOk(ring) && ring.wait == Ready && ring.items == s.responses.items + [s.manager.response]
    ensures Invariant(Continue(s.(responses := ring, sent := sent), s.manager.after))
  {
    var inserted := s.(responses := ring, sent := sent);
    var after := Continue(inserted, s.manager.after);
    var l := View(s);
    assert Outstanding(s) == ring.items;
    match s.manager.after
    case AfterRequest => assert View(after) == l;
    case AfterStream(_, _, _) => assert View(after) == l;
    case AfterOneshot(id, turn) =>
      var x := AnsweredOneshot(s.sensors[id]);
      assert Consistent(s.sensors[id]);
      OneshotsKeepConsistent(s.sensors[id], 0);
      TableUpdated(s.sensors, id, x);
      SameStreams(s.sensors, id, x, s.live);
      if x.oneshots != [] {
        assert View(after) == Reply(l, x.oneshots[0]);
        ReplyKeepsSound(l, x.oneshots[0]);
      } else {
        assert View(after) == l;
      }
  }

  lemma ManagerPutKeepsInvariant(cfg: Config, s: State)
    requires Invariant(s) && Enabled(cfg, s, ManagerPut)
    ensures Invariant(Apply(cfg, s, ManagerPut))
  {
    var after := Apply(cfg, s, ManagerPut);
    var r := s.manager.response;
    if s.responses.wait == TimedOut || (s.responses.wait == Ready && |s.responses.items| >= SLOTS) {
      assert View(after) == View(s);
    } else {
      ContinueKeepsInvariant(s, Ring(s.responses.items + [r], Ready), s.sent + [r]);
    }
  }

  /** Setting a request aside keeps the queue where it is shared; by value it takes the head away. */
  lemma QueueSetAside(cfg: Config, s: State)
    requires s.manager.Deferring? && (cfg.design.ByValue? ==> s.deferred == [])
    ensures cfg.design.Shared? || s.requests.items == [] ==> Queue(SetAside(cfg, s)) == Queue(s)
    ensures cfg.design.ByValue? && s.requests.items != [] ==>
              Queue(s) == [s.requests.items[0]] + Queue(SetAside(cfg, s))
  {
    GenuineAppend(s.deferred, Head(s.requests));
    var items := s.requests.items;
    if items != [] {
      assert items == [items[0]] + items[1..];
      assert Genuine(s.deferred) + ([items[0]] + items[1..]) == (Genuine(s.deferred) + [items[0]]) + items[1..];
    } else {
      assert Genuine(s.deferred) + [] == Genuine(s.deferred);
    }
  }

  /** For the ledger, deferring on the shared queue is no event, and by value it loses a request. */
  lemma DeferIsEvent(cfg: Config, s: State)
    requires s.manager.Deferring? && (cfg.design.ByValue? ==> s.deferred == [])
    ensures View(SetAside(cfg, s))
         == if cfg.design.ByValue? && s.requests.items != [] then Lose(View(s)) else View(s)
  {
    QueueSetAside(cfg, s);
    var after := SetAside(cfg, s);
    if cfg.design.ByValue? && s.requests.items != [] {
      assert Pending(s) == [s.requests.items[0]] + Pending(after);
    } else {
      assert Pending(s) == Pending(after);
    }
  }

  lemma DeferTouches(cfg: Config, s: State)
    requires s.manager.Deferring?
    ensures var after := SetAside(cfg, s);
            && after.manager == Putting(s.manager.response, s.manager.after) && after.requests == Get(s.requests)
            && after.responses == s.responses && after.server == s.server && after.sensors == s.sensors
            && after.live == s.live && after.sent == s.sent && after.received == s.received
            && after.served == s.served
  {
  }

  lemma DeferKeepsInvariant(cfg: Config, s: State)
    requires Invariant(s) && Enabled(cfg, s, DeferRequest)
    requires cfg.design.ByValue? ==> s.deferred == []
    ensures Invariant(Apply(cfg, s, DeferRequest))
  {
    DeferIsEvent(cfg, s);
    DeferTouches(cfg, s);
    assert RequestSide(SetAside(cfg, s).requests, s.server);
    if cfg.design.ByValue? && s.requests.items != [] {
      LoseKeepsSound(View(s));
      assert forall r <- Pending(s)[1..] :: r in Pending(s);
    }
  }

  lemma IdleKeepsInvariant(cfg: Config, s: State, a: Action)
    requires Invariant(s) && Enabled(cfg, s, a) && (a.NoReading? || a.NextPass? || a.WaitExpires?)
    ensures Invariant(Apply(cfg, s, a))
  {
    assert View(Apply(cfg, s, a)) == View(s);
  }

  lemma StepKeepsInvariant(cfg: Config, s: State, a: Action)
    requires Invariant(s) && Enabled(cfg, s, a)
    requires cfg.design.ByValue? ==> s.deferred == []
    ensures Invariant(Apply(cfg, s, a))
  {
    match a
    case ServerPut => ServerPutKeepsInvariant(cfg, s);
    case ConsumeResponse(confirmable) => ConsumeKeepsInvariant(cfg, s, confirmable);
    case FetchRequest(memory) => FetchKeepsInvariant(cfg, s, memory);
    case RealReading(_) => ReadingKeepsInvariant(cfg, s, a);
    case Reading(_, _) => ReadingKeepsInvariant(cfg, s, a);
    case NoReading => IdleKeepsInvariant(cfg, s, a);
    case NextPass => IdleKeepsInvariant(cfg, s, a);
    case WaitExpires => IdleKeepsInvariant(cfg, s, a);
    case StreamTurn(packet) => StreamTurnKeepsInvariant(cfg, s, packet);
    case ManagerPut => ManagerPutKeepsInvariant(cfg, s);
    case DeferRequest => DeferKeepsInvariant(cfg, s);
    case _ => ServerActKeepsInvariant(cfg, s, a);
  }
}
