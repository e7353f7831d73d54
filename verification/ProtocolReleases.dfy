/** Nothing but a lost START keeps a reference for ever: wherever the manager is not about to fault, a
    continuation of the run stops all streams and releases everything else. */
module ProtocolReleases {
  import opened Events
  import opened Options
  import opened RingModel
  import opened SensorModel
  import opened Ledger
  import opened Progress
  import opened Protocol
  import opened ProtocolConditions
  import opened ProtocolInvariants
  import opened ProtocolRuns

  // ---- continuations ----

  predicate Path(cfg: Config, from: State, run: seq<Action>, s: State) {
    IsRun(cfg, from, run) && EndOf(cfg, from, run) == s
  }

  /** Reached by some continuation of `from`. */
  ghost predicate Later(cfg: Config, from: State, s: State) {
    Reachable(cfg, s) && exists run :: Path(cfg, from, run, s)
  }

  lemma Go(cfg: Config, from: State, s: State, a: Action) returns (next: State)
    requires Later(cfg, from, s) && Enabled(cfg, s, a)
    ensures Later(cfg, from, next) && next == Apply(cfg, s, a)
  {
    var run :| Path(cfg, from, run, s);
    RunAppend(cfg, from, run, a);
    next := Apply(cfg, s, a);
    assert Path(cfg, from, run + [a], next);
    ReachNext(cfg, s, a);
  }

  // ---- no fault ahead ----

  predicate NoStopFor(requests: seq<Request>, id: SensorId) {
    forall r <- requests :: r.Stop? ==> r.life.sensor != id
  }

  /** No one-shot waits on the sensor, or no STOP is pending for it that could fault. */
  predicate SafeAt(s: State, id: SensorId) {
    s.sensors[id].oneshots == [] || NoStopFor(Pending(s), id)
  }

  predicate Safe(s: State) {
    !s.manager.Faulted? && forall id: SensorId :: SafeAt(s, id)
  }

  /** Safe but for the one-shots of one sensor, which must be answered before the next fetch. */
  predicate SafeBut(s: State, but: SensorId) {
    !s.manager.Faulted? && forall id: SensorId :: id != but ==> SafeAt(s, id)
  }

  lemma FewerRequests(requests: seq<Request>, fewer: seq<Request>)
    requires forall r <- fewer :: r in requests
    ensures forall id: SensorId :: NoStopFor(requests, id) ==> NoStopFor(fewer, id)
  {
  }

  /** The steps of the server that such a continuation takes. */
  function ServerNext(s: State): Action {
    match s.server
    case Handing(_, _) => ServerPut
    case Net(left) => if left > 0 then OtherMessage else NetworkDone
    case Consuming(done) => if done < RESPONSES_PER_ROUND then ConsumeResponse(false) else NextRound(0)
  }

  lemma ServerNextTouches(cfg: Config, s: State)
    requires RequestSide(s.requests, s.server) && !ServerWaits(s)
    ensures Enabled(cfg, s, ServerNext(s)) && OfServer(ServerNext(s))
    ensures var after := Apply(cfg, s, ServerNext(s));
            && Pending(after) == Pending(s) && after.deferred == s.deferred && after.sensors == s.sensors
            && after.live == s.live && after.manager == s.manager
  {
    if s.server.Handing? {
      PutRequestKeepsPending(s);
    }
  }

  /** The step of the manager inside a put. */
  function ManagerNext(s: State): Action
    requires InPut(s)
  {
    if s.manager.Deferring? then DeferRequest
    else if s.responses.wait == Waiting then WaitExpires
    else ManagerPut
  }

  /** What a put that has gone in leaves of the sensors. */
  function SensorsAfterPut(s: State): Table
    requires InPut(s)
  {
    match s.manager.after
    case AfterOneshot(id, _) =>
      if s.sensors[id].oneshots == [] then s.sensors else s.sensors[id := AnsweredOneshot(s.sensors[id])]
    case _ => s.sensors
  }

  lemma PutTouches(s: State)
    requires s.manager.Putting? && s.responses.wait != Waiting
    ensures var after := PutResponse(s);
            && Pending(after) == Pending(s) && after.live == s.live
            && if after.sent == s.sent then after.sensors == s.sensors
               else after.sensors == SensorsAfterPut(s) && !after.manager.Faulted? && !after.manager.Fetching?
                    && (InPut(after) ==> s.manager.after.AfterOneshot? && after.manager.after == s.manager.after
                                         && after.sensors[s.manager.after.sensor].oneshots != [])
                    && (s.manager.after.AfterOneshot? && !InPut(after) ==>
                          after.sensors[s.manager.after.sensor].oneshots == [])
  {
  }

  lemma SetAsideTouches(cfg: Config, s: State)
    requires s.manager.Deferring? && (cfg.design.ByValue? ==> s.deferred == [])
    ensures forall r <- Pending(SetAside(cfg, s)) :: r in Pending(s)
    ensures |Pending(SetAside(cfg, s))| <= |Pending(s)|
  {
    DeferIsEvent(cfg, s);
    if cfg.design.ByValue? && s.requests.items != [] {
      assert Pending(SetAside(cfg, s)) == Pending(s)[1..];
    } else {
      assert Pending(SetAside(cfg, s)) == Pending(s);
    }
  }

  /** A step inside the put: the put goes in, or it is the same put with no more pending than before. */
  lemma ManagerNextTouches(cfg: Config, s: State)
    requires Invariant(s) && InPut(s) && (cfg.design.ByValue? ==> s.deferred == [])
    ensures Enabled(cfg, s, ManagerNext(s)) && !OfServer(ManagerNext(s))
    ensures var after := Apply(cfg, s, ManagerNext(s));
            && |Pending(after)| <= |Pending(s)| && (forall r <- Pending(after) :: r in Pending(s))
            && after.live == s.live && (after.sent == s.sent ==> after.sensors == s.sensors)
  {
    if s.manager.Deferring? {
      DeferTouches(cfg, s);
      SetAsideTouches(cfg, s);
    } else if s.responses.wait == Waiting {
      assert Pending(Apply(cfg, s, WaitExpires)) == Pending(s);
    } else {
      PutTouches(s);
    }
  }

  /** What has come of the put. */
  predicate PutDone(s: State, t: State)
    requires InPut(s)
  {
    && t.sensors == SensorsAfterPut(s) && !t.manager.Faulted? && !t.manager.Fetching?
    && (InPut(t) ==> s.manager.after.AfterOneshot? && t.manager.after == s.manager.after
                     && t.sensors[s.manager.after.sensor].oneshots != [])
    && (s.manager.after.AfterOneshot? && !InPut(t) ==> t.sensors[s.manager.after.sensor].oneshots == [])
  }

  predicate NoMore(s: State, t: State) {
    |Pending(t)| <= |Pending(s)| && (forall r <- Pending(t) :: r in Pending(s)) && t.live == s.live
  }

  /** The put has been done, or the same put is nearer to it. */
  predicate PutNearer(cfg: Config, s: State, t: State)
    requires InPut(s)
  {
    if t.sent == s.sent then SamePut(s, t) && t.sensors == s.sensors && Measure(cfg, t) < Measure(cfg, s)
    else PutDone(s, t)
  }

  lemma ManagerPutStep(cfg: Config, s: State)
    requires Reachable(cfg, s) && InPut(s) && ManagerHelps(s)
    ensures Enabled(cfg, s, ManagerNext(s)) && NoMore(s, Apply(cfg, s, ManagerNext(s)))
    ensures PutNearer(cfg, s, Apply(cfg, s, ManagerNext(s)))
  {
    ReachableKeepsAll(cfg, s);
    ManagerNextTouches(cfg, s);
    ManagerStepProgress(cfg, s, ManagerNext(s));
    if ManagerNext(s).ManagerPut? {
      PutTouches(s);
    }
  }

  lemma ServerPutStep(cfg: Config, s: State)
    requires Reachable(cfg, s) && InPut(s) && !ManagerHelps(s)
    ensures Enabled(cfg, s, ServerNext(s)) && NoMore(s, Apply(cfg, s, ServerNext(s)))
    ensures PutNearer(cfg, s, Apply(cfg, s, ServerNext(s)))
  {
    ReachableSides(cfg, s);
    ServerNextTouches(cfg, s);
    ServerStepProgress(cfg, s, ServerNext(s));
  }

  /** One step of whoever can help the put. */
  lemma PutStep(cfg: Config, from: State, s: State) returns (t: State)
    requires Later(cfg, from, s) && InPut(s)
    ensures Later(cfg, from, t) && NoMore(s, t) && PutNearer(cfg, s, t)
  {
    if ManagerHelps(s) {
      ManagerPutStep(cfg, s);
      t := Go(cfg, from, s, ManagerNext(s));
    } else {
      ServerPutStep(cfg, s);
      t := Go(cfg, from, s, ServerNext(s));
    }
  }

  /** A response in hand gets into the ring. */
  lemma {:induction false} FinishPut(cfg: Config, from: State, s: State) returns (t: State)
    requires Later(cfg, from, s) && InPut(s)
    ensures Later(cfg, from, t) && NoMore(s, t) && PutDone(s, t)
    decreases Measure(cfg, s)
  {
    t := PutStep(cfg, from, s);
    if t.sent == s.sent {
      t := FinishPut(cfg, from, t);
    }
  }

  lemma PutDoneAt(s: State, t: State, id: SensorId)
    requires Invariant(s) && InPut(s) && PutDone(s, t)
    requires s.manager.after.AfterOneshot? ==> s.manager.after.sensor == id
    ensures t.sensors == if s.manager.after.AfterOneshot? then s.sensors[id := t.sensors[id]] else s.sensors
    ensures InPut(t) ==> s.manager.after.AfterOneshot? && t.manager.after == s.manager.after
    ensures InPut(t) ==> |t.sensors[id].oneshots| < |s.sensors[id].oneshots|
  {
  }

  /** All one-shots of the sensor that are being answered, or the one response in hand. */
  lemma {:induction false} FinishPuts(cfg: Config, from: State, s: State, id: SensorId) returns (t: State)
    requires Later(cfg, from, s) && InPut(s) && (s.manager.after.AfterOneshot? ==> s.manager.after.sensor == id)
    ensures Later(cfg, from, t) && NoMore(s, t) && (t.manager.Sampling? || t.manager.Delivering?)
    ensures t.sensors == if s.manager.after.AfterOneshot? then s.sensors[id := t.sensors[id]] else s.sensors
    ensures s.manager.after.AfterOneshot? ==> t.sensors[id].oneshots == []
    decreases |s.sensors[id].oneshots|
  {
    ReachableKeepsAll(cfg, s);
    t := FinishPut(cfg, from, s);
    PutDoneAt(s, t, id);
    if InPut(t) {
      t := FinishPuts(cfg, from, t, id);
    }
  }

  // ---- back to the head of the manager's loop ----

  lemma RestOfPass(cfg: Config, from: State, s: State) returns (t: State)
    requires Later(cfg, from, s) && s.manager.Sampling?
    ensures Later(cfg, from, t) && t == s.(manager := Fetching)
  {
    t := s;
    while t.manager.turn < TURNS_PER_PASS
      invariant Later(cfg, from, t) && t.manager.Sampling? && t == s.(manager := t.manager)
      decreases TURNS_PER_PASS - t.manager.turn
    {
      t := Go(cfg, from, t, NoReading);
    }
    t := Go(cfg, from, t, NextPass);
  }

  /** No stream has a packet for the sample. */
  lemma RestOfTurn(cfg: Config, from: State, s: State) returns (t: State)
    requires Later(cfg, from, s) && s.manager.Delivering?
    ensures Later(cfg, from, t) && t == s.(manager := Sampling(s.manager.turn + 1))
  {
    t := s;
    while t.manager.k < |s.sensors[s.manager.sensor].streams|
      invariant Later(cfg, from, t) && t.manager.Delivering?
      invariant t == s.(manager := Delivering(s.manager.sensor, t.manager.k, s.manager.turn))
      decreases |s.sensors[s.manager.sensor].streams| - t.manager.k
    {
      t := Go(cfg, from, t, StreamTurn([]));
    }
    t := Go(cfg, from, t, StreamTurn([]));
  }

  /** Out of any put or delivery, to the head of the loop. */
  lemma ToFetching(cfg: Config, from: State, s: State) returns (t: State)
    requires Later(cfg, from, s) && !s.manager.Faulted?
    ensures Later(cfg, from, t) && t.manager.Fetching? && NoMore(s, t)
    ensures forall id: SensorId :: t.sensors[id].oneshots == s.sensors[id].oneshots
                                   || (OneshotsInHand(s.manager, id) && t.sensors[id].oneshots == [])
    ensures forall id: SensorId :: OneshotsInHand(s.manager, id) ==> t.sensors[id].oneshots == []
    ensures !InPut(s) ==> t == s.(manager := Fetching)
  {
    t := s;
    if InPut(t) {
      t := FinishPuts(cfg, from, t, if s.manager.after.AfterOneshot? then s.manager.after.sensor else 0);
    }
    if t.manager.Delivering? {
      t := RestOfTurn(cfg, from, t);
    }
    if t.manager.Sampling? {
      t := RestOfPass(cfg, from, t);
    }
  }

  /** The one-shots of the sensor are being answered. */
  predicate OneshotsInHand(pc: ManagerPc, id: SensorId) {
    (pc.Putting? || pc.Deferring?) && pc.after.AfterOneshot? && pc.after.sensor == id
  }

  lemma StaysSafe(s: State, t: State)
    requires NoMore(s, t) && !t.manager.Faulted?
    requires forall id: SensorId :: t.sensors[id].oneshots == [] || (t.sensors[id].oneshots == s.sensors[id].oneshots
                                                                     && SafeAt(s, id))
    ensures Safe(t)
  {
    FewerRequests(Pending(s), Pending(t));
    forall id: SensorId
      ensures SafeAt(t, id)
    {
      assert SafeAt(s, id) || t.sensors[id].oneshots == [];
    }
  }

  /** In the same pass a sample answers the one-shots of a sensor. */
  lemma AnswerSensor(cfg: Config, from: State, s: State, id: SensorId) returns (t: State)
    requires Later(cfg, from, s) && s.manager == Sampling(0)
    ensures Later(cfg, from, t) && t.manager.Fetching? && NoMore(s, t) && t.sensors[id].oneshots == []
    ensures forall other: SensorId :: other != id ==> t.sensors[other].oneshots == s.sensors[other].oneshots
  {
    t := s;
    if EventBased(id) {
      t := Go(cfg, from, t, NoReading);
    }
    t := Go(cfg, from, t, Reading(id, SensorEvent(id as byte, 0, [])));
    ghost var read := t;
    t := ToFetching(cfg, from, t);
    assert forall other: SensorId :: other != id ==> !OneshotsInHand(read.manager, other);
  }

  // ---- every request served ----

  lemma ServedDoesNotFault(cfg: Config, s: State, r: Request)
    requires Reachable(cfg, s) && Safe(s) && s.manager.Fetching? && NextRequest(s) == Some(r)
    ensures var pc := ServeNext(s, true).manager;
            pc == Sampling(0) || (pc.Putting? && pc.after == AfterRequest)
  {
    FetchedPending(s);
    assert r in Pending(s) && SafeAt(s, SensorOf(r));
    FaultIff(cfg, s, true);
  }

  lemma ServedIsSafe(cfg: Config, s: State, r: Request)
    requires Reachable(cfg, s) && Safe(s) && s.manager.Fetching? && NextRequest(s) == Some(r)
    ensures SafeBut(ServeNext(s, true), SensorOf(r)) && |Pending(ServeNext(s, true))| < |Pending(s)|
    ensures var pc := ServeNext(s, true).manager;
            if pc.Putting? then pc.after == AfterRequest && Safe(ServeNext(s, true)) else pc == Sampling(0)
  {
    var f, after := Fetched(s), ServeNext(s, true);
    ServedDoesNotFault(cfg, s, r);
    FetchedPending(s);
    DispatchTouches(f, r, true);
    FewerRequests(Pending(s), Pending(after));
    forall id: SensorId | id != SensorOf(r) || after.manager.Putting?
      ensures SafeAt(after, id)
    {
      assert SafeAt(s, id);
      DispatchOneshotsAt(f, r, id);
    }
  }

  lemma DispatchOneshotsAt(f: State, r: Request, id: SensorId)
    requires id != SensorOf(r) || Dispatch(f, r, true).manager.Putting?
    ensures Dispatch(f, r, true).sensors[id].oneshots == f.sensors[id].oneshots
  {
  }

  /** One fetch and what follows from it: a request is served, or a filler is gone.  A one-shot that the cache
      cannot answer is answered in the same pass. */
  lemma ServeOne(cfg: Config, from: State, s: State) returns (t: State)
    requires Later(cfg, from, s) && Safe(s) && s.manager.Fetching? && (s.deferred != [] || s.requests.items != [])
    ensures Later(cfg, from, t) && Safe(t) && t.manager.Fetching?
    ensures |Pending(t)| < |Pending(s)|
         || (Pending(t) == Pending(s) && |t.deferred| < |s.deferred| && t.server == s.server && t.live == s.live
             && t.sensors == s.sensors)
  {
    FetchedPending(s);
    t := Go(cfg, from, s, FetchRequest(true));
    if NextRequest(s).Some? {
      ServedIsSafe(cfg, s, NextRequest(s).value);
      t := FinishRequest(cfg, from, t, SensorOf(NextRequest(s).value));
    } else {
      t := ToFetching(cfg, from, t);
      StaysSafe(s, t);
    }
  }

  lemma FinishRequest(cfg: Config, from: State, s: State, id: SensorId) returns (t: State)
    requires Later(cfg, from, s) && SafeBut(s, id)
    requires s.manager == Sampling(0) || (InPut(s) && s.manager.after == AfterRequest && Safe(s))
    ensures Later(cfg, from, t) && Safe(t) && t.manager.Fetching? && NoMore(s, t)
  {
    if SafeAt(s, id) {
      t := ToFetching(cfg, from, s);
    } else {
      t := AnswerSensor(cfg, from, s, id);
    }
    StaysSafe(s, t);
  }

  lemma PutLast(cfg: Config, from: State, s: State) returns (t: State)
    requires Later(cfg, from, s) && s.manager.Fetching? && s.deferred == [] && s.requests.items == []
    requires s.server.Handing?
    ensures Later(cfg, from, t) && t.manager.Fetching? && t.deferred == [] && !t.server.Handing?
    ensures Pending(t) == Pending(s) && t.live == s.live && t.sensors == s.sensors
  {
    ReachableSides(cfg, s);
    ServerNextTouches(cfg, s);
    t := Go(cfg, from, s, ServerPut);
  }

  lemma {:induction false} ServeAll(cfg: Config, from: State, s: State) returns (t: State)
    requires Later(cfg, from, s) && Safe(s) && s.manager.Fetching?
    ensures Later(cfg, from, t) && t.manager.Fetching? && Pending(t) == [] && t.deferred == []
    ensures Pending(s) == [] ==> t.live == s.live && t.sensors == s.sensors
    decreases |Pending(s)|, |s.deferred|, if s.server.Handing? then 1 else 0
  {
    if s.deferred != [] || s.requests.items != [] {
      t := ServeOne(cfg, from, s);
      t := ServeAll(cfg, from, t);
    } else if s.server.Handing? {
      t := PutLast(cfg, from, s);
      assert forall id: SensorId :: SafeAt(s, id) ==> SafeAt(t, id);
      t := ServeAll(cfg, from, t);
    } else {
      t := s;
    }
  }

  // ---- every response consumed ----

  /** Nothing is under way, and both threads are at the head of their loops. */
  predicate Idle(s: State) {
    && Pending(s) == [] && s.deferred == [] && s.responses.items == []
    && s.manager.Fetching? && s.server.Consuming? && s.server.done >= RESPONSES_PER_ROUND
  }

  /** How far the server is from a response, or from the end of its round if there is none. */
  function RoundRank(s: State): nat {
    match s.server
    case Net(left) => left + 7
    case Consuming(done) =>
      if done < RESPONSES_PER_ROUND then RESPONSES_PER_ROUND - done else if s.responses.items == [] then 0 else 8
    case Handing(_, _) => 0
  }

  lemma ConsumeStep(cfg: Config, s: State)
    requires RequestSide(s.requests, s.server) && RingOk(s.responses) && Pending(s) == [] && !Idle(s)
    requires s.manager.Fetching? && s.deferred == []
    ensures var after := Apply(cfg, s, ServerNext(s));
            || |after.responses.items| < |s.responses.items|
            || (after.responses.items == s.responses.items && RoundRank(after) < RoundRank(s))
  {
    assert RequestInHand(s.server) == [];
  }

  lemma {:induction false} ConsumeAll(cfg: Config, from: State, s: State) returns (t: State)
    requires Later(cfg, from, s) && s.manager.Fetching? && Pending(s) == [] && s.deferred == []
    ensures Later(cfg, from, t) && Idle(t) && t.live == s.live && t.sensors == s.sensors
    decreases |s.responses.items|, RoundRank(s)
  {
    if Idle(s) {
      t := s;
    } else {
      ReachableSides(cfg, s);
      assert RequestInHand(s.server) == [];
      ServerNextTouches(cfg, s);
      ConsumeStep(cfg, s);
      t := Go(cfg, from, s, ServerNext(s));
      t := ConsumeAll(cfg, from, t);
    }
  }

  /** From the head of the manager's loop with nothing pending, to rest. */
  lemma ToIdle(cfg: Config, from: State, s: State) returns (t: State)
    requires Later(cfg, from, s) && s.manager.Fetching? && Pending(s) == []
    ensures Later(cfg, from, t) && Idle(t) && t.live == s.live && t.sensors == s.sensors
  {
    t := ServeAll(cfg, from, s);
    t := ConsumeAll(cfg, from, t);
  }

  // ---- every one-shot answered ----

  lemma AnswerAtRest(cfg: Config, from: State, s: State, id: SensorId) returns (t: State)
    requires Later(cfg, from, s) && Idle(s)
    ensures Later(cfg, from, t) && Idle(t) && t.sensors[id].oneshots == []
    ensures forall other: SensorId :: other != id ==> t.sensors[other].oneshots == s.sensors[other].oneshots
  {
    assert s.requests.items == [];
    t := Go(cfg, from, s, FetchRequest(true));
    t := AnswerSensor(cfg, from, t, id);
    t := ToIdle(cfg, from, t);
  }

  predicate NoneWaiting(sensors: Table) {
    forall id: SensorId :: sensors[id].oneshots == []
  }

  lemma AnswerAll(cfg: Config, from: State, s: State) returns (t: State)
    requires Later(cfg, from, s) && Idle(s)
    ensures Later(cfg, from, t) && Idle(t) && NoneWaiting(t.sensors)
  {
    t := s;
    var n := 0;
    while n < SENSORS
      invariant n <= SENSORS && Later(cfg, from, t) && Idle(t)
      invariant forall id: SensorId :: id < n ==> t.sensors[id].oneshots == []
    {
      t := AnswerAtRest(cfg, from, t, n);
      n := n + 1;
    }
  }

  // ---- every stream stopped ----

  lemma LiveIsHeld(cfg: Config, s: State, t: int)
    requires Reachable(cfg, s) && t in s.live
    ensures t in s.owed && t in s.lives && s.lives[t] == s.live[t]
  {
    ReachableKeepsAll(cfg, s);
    assert t in multiset(s.live.Keys);
  }

  /** The server gives up a registration, and its STOP is in the ring. */
  lemma GiveUp(cfg: Config, from: State, s: State, t: int) returns (next: State)
    requires cfg.work >= 1 && Later(cfg, from, s) && Idle(s) && t in s.live
    ensures Later(cfg, from, next) && next.manager.Fetching? && next.live == s.live && next.sensors == s.sensors
    ensures next.deferred == [] && Pending(next) == [Stop(t, s.live[t])]
    ensures NextRequest(next) == Some(Stop(t, s.live[t]))
  {
    LiveIsHeld(cfg, s, t);
    ReachableSides(cfg, s);
    assert s.requests.items == [];
    next := Go(cfg, from, s, NextRound(1));
    next := Go(cfg, from, next, OnUnregister(t));
    next := Go(cfg, from, next, ServerPut);
    assert next.requests.items == [Stop(t, s.live[t])];
  }

  lemma ServeStop(cfg: Config, from: State, s: State, r: Request) returns (next: State)
    requires Later(cfg, from, s) && NoneWaiting(s.sensors) && s.manager.Fetching? && s.deferred == []
    requires r.Stop? && r.ticket in s.live && Pending(s) == [r] && NextRequest(s) == Some(r)
    ensures Later(cfg, from, next) && NoneWaiting(next.sensors) && next.live == s.live - {r.ticket}
    ensures Pending(next) == [] && InPut(next) && next.manager.after == AfterRequest
  {
    ReachableKeepsAll(cfg, s);
    FetchedPending(s);
    FaultIff(cfg, s, true);
    HeadOfPendingIsOfLife(s, r);
    StopOnTable(Fetched(s), r, true);
    DispatchTouches(Fetched(s), r, true);
    StopAddsNoOneshot(Fetched(s), r);
    next := Go(cfg, from, s, FetchRequest(true));
  }

  lemma StopAddsNoOneshot(f: State, r: Request)
    requires r.Stop?
    ensures forall id: SensorId :: Dispatch(f, r, true).sensors[id].oneshots == f.sensors[id].oneshots
  {
  }

  lemma StopOne(cfg: Config, from: State, s: State, t: int) returns (next: State)
    requires cfg.work >= 1 && Later(cfg, from, s) && NoneWaiting(s.sensors) && Idle(s) && t in s.live
    ensures Later(cfg, from, next) && NoneWaiting(next.sensors) && Idle(next) && next.live == s.live - {t}
  {
    next := GiveUp(cfg, from, s, t);
    next := ServeStop(cfg, from, next, Stop(t, s.live[t]));
    next := ToFetching(cfg, from, next);
    next := ToIdle(cfg, from, next);
  }

  lemma {:induction false} StopAll(cfg: Config, from: State, s: State) returns (next: State)
    requires cfg.work >= 1 && Later(cfg, from, s) && NoneWaiting(s.sensors) && Idle(s)
    ensures Later(cfg, from, next) && NoneWaiting(next.sensors) && Idle(next) && next.live == map[]
    decreases |s.live|
  {
    if t :| t in s.live {
      next := StopOne(cfg, from, s, t);
      FewerKeys(s.live, t);
      next := StopAll(cfg, from, next);
    } else {
      next := s;
      assert forall t :: t !in s.live;
      assert s.live == map[];
    }
  }

  lemma FewerKeys(live: map<int, Life>, t: int)
    requires t in live
    ensures |live - {t}| < |live|
  {
    assert live.Keys == (live - {t}).Keys + {t};
  }

  /** From every reachable state that has not faulted, and in which no STOP is pending for a sensor on which a
      one-shot waits, some continuation answers every one-shot, stops every stream and releases every
      reference except those of lost STARTs. */
  lemma EverythingElseCanBeReleased(cfg: Config, s: State)
    requires cfg.work >= 1 && Reachable(cfg, s) && Safe(s)
    ensures exists run :: IsRun(cfg, s, run) && WoundDown(EndOf(cfg, s, run))
  {
    var t := WindDown(cfg, s);
    IdleOwes(cfg, t);
    var run :| Path(cfg, s, run, t);
    assert WoundDown(EndOf(cfg, s, run));
  }

  lemma WindDown(cfg: Config, s: State) returns (t: State)
    requires cfg.work >= 1 && Reachable(cfg, s) && Safe(s)
    ensures Later(cfg, s, t) && Idle(t) && NoneWaiting(t.sensors) && t.live == map[]
  {
    assert Path(cfg, s, [], s);
    t := ToFetching(cfg, s, s);
    StaysSafe(s, t);
    t := ServeAll(cfg, s, t);
    t := ConsumeAll(cfg, s, t);
    t := AnswerAll(cfg, s, t);
    t := StopAll(cfg, s, t);
  }

  lemma IdleOwes(cfg: Config, s: State)
    requires Reachable(cfg, s) && Idle(s) && s.live == map[]
    ensures s.owed == Starts(s.lost)
  {
    ReachableKeepsAll(cfg, s);
    RestOwes(View(s));
  }

  lemma RestOwes(l: Ledger)
    requires Sound(l) && l.pending == [] && l.responses == [] && l.live == map[]
    ensures l.owed == Starts(l.lost)
  {
    QuiescentDebt(l);
    assert multiset(l.live.Keys) == multiset{};
  }

  /** Nobody waits, nothing streams, and only lost STARTs are owed for. */
  predicate WoundDown(s: State) {
    NoneWaiting(s.sensors) && s.live == map[] && s.owed == Starts(s.lost)
  }
}
