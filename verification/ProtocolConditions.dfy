/** The exact conditions on a run under which the two threads keep what the code can miss.  Each is the guard
    of one step, which the thread that takes the step could test before it. */
module ProtocolConditions {
  import opened SensorModel
  import opened Ledger
  import opened Protocol
  import opened ProtocolInvariants
  import opened ProtocolLogs
  import opened ProtocolRuns

  // ---- lost requests ----

  /** The step fetches a request for the by-value deferral queue. */
  predicate Loses(cfg: Config, s: State, a: Action) {
    cfg.design.ByValue? && a.DeferRequest? && s.requests.items != []
  }

  predicate NeverLoses(cfg: Config, s: State, run: seq<Action>)
    requires IsRun(cfg, s, run)
    decreases run
  {
    run == [] || (!Loses(cfg, s, run[0]) && NeverLoses(cfg, Apply(cfg, s, run[0]), run[1..]))
  }

  lemma LostByStep(cfg: Config, s: State, a: Action)
    requires Enabled(cfg, s, a)
    ensures Apply(cfg, s, a).lost == s.lost + if Loses(cfg, s, a) then [s.requests.items[0]] else []
  {
    assert s.lost + [] == s.lost;
    if a.FetchRequest? && NextRequest(s).Some? {
      DispatchTouches(Fetched(s), NextRequest(s).value, a.memory);
    }
  }

  lemma {:induction false} LostByRun(cfg: Config, s: State, run: seq<Action>)
    requires IsRun(cfg, s, run)
    ensures s.lost <= EndOf(cfg, s, run).lost
    ensures EndOf(cfg, s, run).lost == s.lost <==> NeverLoses(cfg, s, run)
    decreases run
  {
    if run == [] {
    } else {
      LostByStep(cfg, s, run[0]);
      LostByRun(cfg, Apply(cfg, s, run[0]), run[1..]);
    }
  }

  /** The requests of the server are served in the order of their puts and none is lost, exactly in the runs
      in which no timed-out put of the manager fetched a request for the by-value queue. */
  lemma OrderIffNeverLoses(cfg: Config, run: seq<Action>)
    requires IsRun(cfg, Initial(), run)
    ensures var s := EndOf(cfg, Initial(), run);
            s.issued == s.served + Queue(s) <==> NeverLoses(cfg, Initial(), run)
  {
    assert Reaches(cfg, run, EndOf(cfg, Initial(), run));
    RequestsKeepOrder(cfg, EndOf(cfg, Initial(), run));
    LostByRun(cfg, Initial(), run);
  }

  /** The step loses a START. */
  predicate LosesStart(cfg: Config, s: State, a: Action) {
    Loses(cfg, s, a) && s.requests.items[0].Start?
  }

  predicate NeverLosesStart(cfg: Config, s: State, run: seq<Action>)
    requires IsRun(cfg, s, run)
    decreases run
  {
    run == [] || (!LosesStart(cfg, s, run[0]) && NeverLosesStart(cfg, Apply(cfg, s, run[0]), run[1..]))
  }

  predicate NoStart(requests: seq<Request>) {
    forall r <- requests :: !r.Start?
  }

  lemma NoStartAppend(requests: seq<Request>, last: seq<Request>)
    ensures NoStart(requests + last) <==> NoStart(requests) && NoStart(last)
  {
    var both := requests + last;
    if NoStart(both) {
      assert forall r <- requests :: r in both;
      assert forall r <- last :: r in both;
    }
  }

  lemma {:induction false} LostStartsByRun(cfg: Config, s: State, run: seq<Action>)
    requires IsRun(cfg, s, run)
    ensures NoStart(EndOf(cfg, s, run).lost) <==> NoStart(s.lost) && NeverLosesStart(cfg, s, run)
    decreases run
  {
    if run == [] {
    } else {
      LostByStep(cfg, s, run[0]);
      NoStartAppend(s.lost, if Loses(cfg, s, run[0]) then [s.requests.items[0]] else []);
      LostStartsByRun(cfg, Apply(cfg, s, run[0]), run[1..]);
    }
  }

  /** A run that ends with everything served and consumed has leaked no reference, so that the manager holds
      exactly one for each running stream, exactly if no timed-out put fetched a START for the by-value
      queue. */
  lemma NothingLeaksIff(cfg: Config, run: seq<Action>)
    requires IsRun(cfg, Initial(), run) && Quiet(EndOf(cfg, Initial(), run))
    ensures var s := EndOf(cfg, Initial(), run);
            (forall t :: s.owed[t] == One(Running(s, t))) <==> NeverLosesStart(cfg, Initial(), run)
  {
    var s := EndOf(cfg, Initial(), run);
    assert Reaches(cfg, run, s);
    QuietStateOwes(cfg, s);
    LostStartsByRun(cfg, Initial(), run);
    NoStartsIff(s.lost);
    if forall t :: s.owed[t] == One(Running(s, t)) {
      forall t
        ensures Starts(s.lost)[t] == 0
      {
        assert s.owed[t] == Starts(s.lost)[t] + One(Running(s, t));
      }
      assert Starts(s.lost) == multiset{};
    }
  }

  lemma NoStartsIff(lost: seq<Request>)
    ensures NoStart(lost) <==> Starts(lost) == multiset{}
  {
    if NoStart(lost) {
      NoStarts(lost);
    } else {
      var i :| 0 <= i < |lost| && lost[i].Start?;
      StartCounts(lost, i);
    }
  }

  /** The reference of a lost START is never released, whatever happens later. */
  lemma LostStartIsOwedForEver(cfg: Config, s: State, run: seq<Action>)
    requires Reachable(cfg, s) && IsRun(cfg, s, run)
    ensures Starts(s.lost) <= EndOf(cfg, s, run).owed
  {
    var end := EndOf(cfg, s, run);
    LostByRun(cfg, s, run);
    assert s.lost == end.lost[..|s.lost|];
    StartsOfPrefix(end.lost, |s.lost|);
    ReachRun(cfg, s, run);
    ReachableKeepsAll(cfg, end);
  }

  // ---- the sensors' frequencies ----

  /** The step serves a START below its sensor's frequency that leaves no stream asking for it. */
  predicate Undercuts(s: State, a: Action) {
    && a.FetchRequest? && a.memory && NextRequest(s).Some? && NextRequest(s).value.Start?
    && LeavesAbove(s.sensors[NextRequest(s).value.life.sensor], NextRequest(s).value)
  }

  predicate LeavesAbove(x: Sensor, r: Request)
    requires r.Start?
  {
    r.freq < x.freq && !AnotherAtTop(x, r.ticket)
  }

  predicate NeverUndercuts(cfg: Config, s: State, run: seq<Action>)
    requires IsRun(cfg, s, run)
    decreases run
  {
    run == [] || (!Undercuts(s, run[0]) && NeverUndercuts(cfg, Apply(cfg, s, run[0]), run[1..]))
  }

  ghost predicate AllExact(sensors: Table) {
    forall id: SensorId :: Exact(sensors[id])
  }

  /** In every state of the run each sensor's frequency is the maximum of its streams. */
  ghost predicate AlwaysExact(cfg: Config, s: State, run: seq<Action>)
    requires IsRun(cfg, s, run)
    decreases run
  {
    AllExact(s.sensors) && (run == [] || AlwaysExact(cfg, Apply(cfg, s, run[0]), run[1..]))
  }

  /** The one sensor that serving a request may change. */
  function SensorOf(r: Request): SensorId {
    if r.Oneshot? then r.sensor else r.life.sensor
  }

  lemma DispatchOneSensor(f: State, r: Request, memory: bool, id: SensorId)
    ensures id != SensorOf(r) ==> Dispatch(f, r, memory).sensors[id] == f.sensors[id]
  {
  }

  lemma DispatchExactIff(f: State, r: Request, memory: bool)
    requires Consistent(f.sensors[SensorOf(r)]) && Exact(f.sensors[SensorOf(r)]) && (r.Start? ==> r.freq > 0)
    ensures Exact(Dispatch(f, r, memory).sensors[SensorOf(r)])
       <==> !(memory && r.Start? && LeavesAbove(f.sensors[SensorOf(r)], r))
  {
    var x := f.sensors[SensorOf(r)];
    match r
    case Start(t, _, freq) => if memory { StartExactIff(x, t, freq); }
    case Stop(t, _) => if StopStream(x, t).Removed? { StopKeepsConsistent(x, t); }
    case Oneshot(_, _) =>
  }

  lemma FetchExactIff(s: State, memory: bool)
    requires Invariant(s) && s.manager.Fetching? && AllExact(s.sensors)
    ensures AllExact(ServeNext(s, memory).sensors) <==> !Undercuts(s, FetchRequest(memory))
  {
    if NextRequest(s).Some? {
      var r, f := NextRequest(s).value, Fetched(s);
      FetchedPending(s);
      assert r in Pending(s);
      assert Consistent(s.sensors[SensorOf(r)]) && Exact(s.sensors[SensorOf(r)]);
      DispatchExactIff(f, r, memory);
      forall id: SensorId | id != SensorOf(r)
        ensures Exact(Dispatch(f, r, memory).sensors[id])
      {
        assert Exact(s.sensors[id]);
        DispatchOneSensor(f, r, memory, id);
      }
    }
  }

  lemma StepExactIff(cfg: Config, s: State, a: Action)
    requires Invariant(s) && Enabled(cfg, s, a) && AllExact(s.sensors)
    ensures AllExact(Apply(cfg, s, a).sensors) <==> !Undercuts(s, a)
  {
    if a.FetchRequest? {
      FetchExactIff(s, a.memory);
    } else {
      forall id: SensorId
        ensures Exact(Apply(cfg, s, a).sensors[id])
      {
        assert Exact(s.sensors[id]);
        OthersTouchNoStream(cfg, s, a, id);
      }
    }
  }

  lemma {:induction false} AlwaysExactIffFrom(cfg: Config, s: State, run: seq<Action>)
    requires Reachable(cfg, s) && IsRun(cfg, s, run) && AllExact(s.sensors)
    ensures AlwaysExact(cfg, s, run) <==> NeverUndercuts(cfg, s, run)
    decreases run
  {
    if run == [] {
    } else {
      var next := Apply(cfg, s, run[0]);
      ReachableKeepsAll(cfg, s);
      StepExactIff(cfg, s, run[0]);
      if AllExact(next.sensors) {
        ReachNext(cfg, s, run[0]);
        AlwaysExactIffFrom(cfg, next, run[1..]);
      }
    }
  }

  /** The header's promise, that a sensor's frequency is the maximum of its streams', holds throughout a run
      exactly if no START undercuts its sensor. */
  lemma AlwaysExactIff(cfg: Config, run: seq<Action>)
    requires IsRun(cfg, Initial(), run)
    ensures AlwaysExact(cfg, Initial(), run) <==> NeverUndercuts(cfg, Initial(), run)
  {
    assert Reaches(cfg, [], Initial());
    AlwaysExactIffFrom(cfg, Initial(), run);
  }

  // ---- the sensors' caches ----

  /** The step caches a sample of a sensor that is off: one that was still queued when it was turned off. */
  predicate FillsInactive(s: State, a: Action) {
    && (a.RealReading? || (a.Reading? && s.manager.Sampling? && !CarrierTurn(s.manager.turn)))
    && !s.sensors[a.sensor].active
  }

  predicate NeverFills(cfg: Config, s: State, run: seq<Action>)
    requires IsRun(cfg, s, run)
    decreases run
  {
    run == [] || (!FillsInactive(s, run[0]) && NeverFills(cfg, Apply(cfg, s, run[0]), run[1..]))
  }

  /** The header's promise: an inactive sensor has an invalid cache. */
  predicate CacheOk(x: Sensor) {
    x.cacheValid ==> x.active
  }

  predicate AllCachesOk(sensors: Table) {
    forall id: SensorId :: CacheOk(sensors[id])
  }

  predicate AlwaysCacheOk(cfg: Config, s: State, run: seq<Action>)
    requires IsRun(cfg, s, run)
    decreases run
  {
    AllCachesOk(s.sensors) && (run == [] || AlwaysCacheOk(cfg, Apply(cfg, s, run[0]), run[1..]))
  }

  lemma DispatchKeepsCache(f: State, r: Request, memory: bool)
    requires CacheOk(f.sensors[SensorOf(r)])
    ensures CacheOk(Dispatch(f, r, memory).sensors[SensorOf(r)])
  {
  }

  lemma FetchKeepsCaches(s: State, memory: bool)
    requires AllCachesOk(s.sensors)
    ensures AllCachesOk(ServeNext(s, memory).sensors)
  {
    if NextRequest(s).Some? {
      var r, f := NextRequest(s).value, Fetched(s);
      DispatchKeepsCache(f, r, memory);
      forall id: SensorId | id != SensorOf(r)
        ensures CacheOk(Dispatch(f, r, memory).sensors[id])
      {
        DispatchOneSensor(f, r, memory, id);
      }
    }
  }

  lemma OthersKeepCache(cfg: Config, s: State, a: Action, id: SensorId)
    requires Enabled(cfg, s, a) && !a.FetchRequest? && CacheOk(s.sensors[id])
    ensures CacheOk(Apply(cfg, s, a).sensors[id]) <==> !(FillsInactive(s, a) && a.sensor == id)
  {
    if a.ManagerPut? {
      PutKeepsCache(s, id);
    } else if !a.Reading? && !a.RealReading? {
      OthersTouchNoSensor(cfg, s, a);
    }
  }

  lemma PutKeepsCache(s: State, id: SensorId)
    requires s.manager.Putting? && CacheOk(s.sensors[id])
    ensures CacheOk(PutResponse(s).sensors[id])
  {
  }

  lemma OthersTouchNoSensor(cfg: Config, s: State, a: Action)
    requires Enabled(cfg, s, a) && !a.FetchRequest? && !a.ManagerPut? && !a.Reading? && !a.RealReading?
    ensures Apply(cfg, s, a).sensors == s.sensors
  {
    if a.DeferRequest? {
      DeferTouches(cfg, s);
    }
  }

  lemma StepCachesIff(cfg: Config, s: State, a: Action)
    requires Enabled(cfg, s, a) && AllCachesOk(s.sensors)
    ensures AllCachesOk(Apply(cfg, s, a).sensors) <==> !FillsInactive(s, a)
  {
    if a.FetchRequest? {
      FetchKeepsCaches(s, a.memory);
    } else {
      forall id: SensorId
        ensures CacheOk(Apply(cfg, s, a).sensors[id]) <==> !(FillsInactive(s, a) && a.sensor == id)
      {
        OthersKeepCache(cfg, s, a, id);
      }
      if FillsInactive(s, a) {
        assert !CacheOk(Apply(cfg, s, a).sensors[a.sensor]);
      }
    }
  }

  lemma {:induction false} AlwaysCacheOkIffFrom(cfg: Config, s: State, run: seq<Action>)
    requires IsRun(cfg, s, run) && AllCachesOk(s.sensors)
    ensures AlwaysCacheOk(cfg, s, run) <==> NeverFills(cfg, s, run)
    decreases run
  {
    if run == [] {
    } else {
      StepCachesIff(cfg, s, run[0]);
      if AllCachesOk(Apply(cfg, s, run[0]).sensors) {
        AlwaysCacheOkIffFrom(cfg, Apply(cfg, s, run[0]), run[1..]);
      }
    }
  }

  /** The header's promise on caches holds throughout a run exactly if no sample is cached for a sensor that
      is off. */
  lemma AlwaysCacheOkIff(cfg: Config, run: seq<Action>)
    requires IsRun(cfg, Initial(), run)
    ensures AlwaysCacheOk(cfg, Initial(), run) <==> NeverFills(cfg, Initial(), run)
  {
    AlwaysCacheOkIffFrom(cfg, Initial(), run);
  }

  // ---- one frequency for all ----

  /** Every observer asks for the same frequency, as every one does whose GET the handler serves. */
  predicate AsksOnly(run: seq<Action>, freq: int) {
    forall a <- run :: a.ObserveGet? ==> a.freq == freq
  }

  predicate PendingAt(pending: seq<Request>, freq: int) {
    forall r <- pending :: r.Start? ==> r.freq == freq
  }

  predicate StreamsAt(streams: seq<StreamInfo>, freq: int) {
    forall x <- streams :: x.freq == freq
  }

  ghost predicate AllAt(s: State, freq: int) {
    PendingAt(Pending(s), freq) && forall id: SensorId :: StreamsAt(s.sensors[id].streams, freq)
  }

  lemma PendingAfterServer(cfg: Config, s: State, a: Action, freq: int)
    requires PendingAt(Pending(s), freq) && Enabled(cfg, s, a) && OfServer(a) && (a.ObserveGet? ==> a.freq == freq)
    ensures PendingAt(Pending(Apply(cfg, s, a)), freq)
  {
    match a
    case ObserveGet(t, sensor, f) =>
      HandPending(s, Observe(View(s), t, sensor, f), Start(t, Registered(View(s), t, sensor), f));
    case PlainGet(t, sensor) => HandPending(s, View(s), Oneshot(t, sensor));
    case OnUnregister(t) => HandPending(s, View(s), Stop(t, s.lives[t]));
    case ServerPut => PutRequestKeepsPending(s);
    case ConsumeResponse(confirmable) => ConsumeTouches(s, confirmable);
    case _ =>
  }

  lemma PendingAfterFetch(s: State, memory: bool, freq: int)
    requires PendingAt(Pending(s), freq)
    ensures PendingAt(Pending(ServeNext(s, memory)), freq)
  {
    FetchedPending(s);
    if NextRequest(s).Some? {
      DispatchTouches(Fetched(s), NextRequest(s).value, memory);
    }
  }

  lemma PendingAfterDefer(cfg: Config, s: State, freq: int)
    requires PendingAt(Pending(s), freq) && s.manager.Deferring? && (cfg.design.ByValue? ==> s.deferred == [])
    ensures PendingAt(Pending(SetAside(cfg, s)), freq)
  {
    DeferIsEvent(cfg, s);
    if cfg.design.ByValue? && s.requests.items != [] {
      assert Pending(SetAside(cfg, s)) == Pending(s)[1..];
      assert forall r <- Pending(s)[1..] :: r in Pending(s);
    } else {
      assert Pending(SetAside(cfg, s)) == Pending(s);
    }
  }

  lemma OthersTouchNoRequest(cfg: Config, s: State, a: Action)
    requires Enabled(cfg, s, a) && !OfServer(a) && !a.FetchRequest? && !a.DeferRequest?
    ensures var after := Apply(cfg, s, a);
            after.deferred == s.deferred && after.requests == s.requests && after.server == s.server
  {
  }

  lemma PendingAfterManager(cfg: Config, s: State, a: Action, freq: int)
    requires PendingAt(Pending(s), freq) && Enabled(cfg, s, a) && !OfServer(a)
    requires cfg.design.ByValue? ==> s.deferred == []
    ensures PendingAt(Pending(Apply(cfg, s, a)), freq)
  {
    if a.FetchRequest? {
      PendingAfterFetch(s, a.memory, freq);
    } else if a.DeferRequest? {
      PendingAfterDefer(cfg, s, freq);
    } else {
      OthersTouchNoRequest(cfg, s, a);
    }
  }

  lemma StreamsAfterDispatch(f: State, r: Request, memory: bool, freq: int)
    requires DistinctTickets(f.sensors[SensorOf(r)].streams) && StreamsAt(f.sensors[SensorOf(r)].streams, freq)
    requires r.Start? ==> r.freq == freq
    ensures StreamsAt(Dispatch(f, r, memory).sensors[SensorOf(r)].streams, freq)
  {
    if !r.Oneshot? {
      OthersKeepsTheRest(f.sensors[SensorOf(r)].streams, r.ticket);
    }
  }

  lemma StepKeepsAllAt(cfg: Config, s: State, a: Action, freq: int)
    requires Invariant(s) && AllAt(s, freq) && Enabled(cfg, s, a) && (a.ObserveGet? ==> a.freq == freq)
    requires cfg.design.ByValue? ==> s.deferred == []
    ensures AllAt(Apply(cfg, s, a), freq)
  {
    if OfServer(a) {
      PendingAfterServer(cfg, s, a, freq);
    } else {
      PendingAfterManager(cfg, s, a, freq);
    }
    forall id: SensorId
      ensures StreamsAt(Apply(cfg, s, a).sensors[id].streams, freq)
    {
      assert StreamsAt(s.sensors[id].streams, freq) && Consistent(s.sensors[id]);
      if a.FetchRequest? && NextRequest(s).Some? {
        var r, f := NextRequest(s).value, Fetched(s);
        FetchedPending(s);
        assert r in Pending(s);
        if id == SensorOf(r) {
          StreamsAfterDispatch(f, r, a.memory, freq);
        } else {
          DispatchOneSensor(f, r, a.memory, id);
        }
      } else if !a.FetchRequest? {
        OthersTouchNoStream(cfg, s, a, id);
      }
    }
  }

  lemma NoneUndercuts(s: State, a: Action, freq: int)
    requires Invariant(s) && AllExact(s.sensors) && AllAt(s, freq)
    ensures !Undercuts(s, a)
  {
    if a.FetchRequest? && NextRequest(s).Some? && NextRequest(s).value.Start? {
      var r := NextRequest(s).value;
      var x := s.sensors[r.life.sensor];
      FetchedPending(s);
      assert r in Pending(s);
      assert Consistent(x) && Exact(x) && StreamsAt(x.streams, freq);
    }
  }

  lemma {:induction false} UniformFrom(cfg: Config, s: State, run: seq<Action>, freq: int)
    requires Reachable(cfg, s) && IsRun(cfg, s, run) && AsksOnly(run, freq) && AllExact(s.sensors) && AllAt(s, freq)
    ensures NeverUndercuts(cfg, s, run)
    decreases run
  {
    if run == [] {
    } else {
      ReachableKeepsAll(cfg, s);
      NoneUndercuts(s, run[0], freq);
      StepExactIff(cfg, s, run[0]);
      assert run[0] in run && forall a <- run[1..] :: a in run;
      StepKeepsAllAt(cfg, s, run[0], freq);
      ReachNext(cfg, s, run[0]);
      UniformFrom(cfg, Apply(cfg, s, run[0]), run[1..], freq);
    }
  }

  /** When all observers ask for the same frequency, every sensor's is the maximum of its streams' in every
      state of every run.  The handler asks for 10 always, so the program as built keeps the promise. */
  lemma UniformRunsAreExact(cfg: Config, run: seq<Action>, freq: int)
    requires IsRun(cfg, Initial(), run) && AsksOnly(run, freq)
    ensures AlwaysExact(cfg, Initial(), run)
  {
    assert Reaches(cfg, [], Initial());
    UniformFrom(cfg, Initial(), run, freq);
    AlwaysExactIff(cfg, run);
  }
}
