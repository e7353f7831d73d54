/** What the handlers put into the request ring, as a run's calls of them alone tell. */
module ProtocolHandlers {
  import opened SensorModel
  import opened Ledger
  import opened Protocol
  import opened ProtocolInvariants
  import opened ProtocolRuns

  datatype RequestType = START | STOP | ONESHOT

  /** The arguments of put_request_buf_item. */
  datatype Put = Put(rtype: RequestType, sensor: SensorId, ticket: int, freq: int)

  // ---- from the calls of the handlers alone ----

  /** The sensor of the resource for which the ticket's latest registration was made or found. */
  function ResourceOf(run: seq<Action>, t: int): SensorId {
    if run == [] then 0
    else
      var last := run[|run| - 1];
      if last.ObserveGet? && last.ticket == t then last.sensor else ResourceOf(run[..|run| - 1], t)
  }

  function PutFor(before: seq<Action>, a: Action): seq<Put> {
    match a
    case ObserveGet(t, sensor, freq) => [Put(START, sensor, t, freq)]
    case PlainGet(t, sensor) => [Put(ONESHOT, sensor, t, 0)]
    case OnUnregister(t) => [Put(STOP, ResourceOf(before, t), t, 0)]
    case _ => []
  }

  /** What the handlers called in a run have to put, in order. */
  function PutsFor(run: seq<Action>): seq<Put> {
    if run == [] then []
    else PutsFor(run[..|run| - 1]) + PutFor(run[..|run| - 1], run[|run| - 1])
  }

  // ---- what is put ----

  function PutOf(r: Request): Put {
    match r
    case Start(t, life, freq) => Put(START, life.sensor, t, freq)
    case Stop(t, life) => Put(STOP, life.sensor, t, 0)
    case Oneshot(t, sensor) => Put(ONESHOT, sensor, t, 0)
  }

  function PutsOf(requests: seq<Request>): seq<Put> {
    seq(|requests|, i requires 0 <= i < |requests| => PutOf(requests[i]))
  }

  /** The requests that the server has put or is putting. */
  function Made(s: State): seq<Request> {
    s.issued + RequestInHand(s.server)
  }

  /** A registration's life is on the sensor of its resource. */
  ghost predicate OnResources(run: seq<Action>, lives: map<int, Life>) {
    forall t :: t in lives ==> lives[t].sensor == ResourceOf(run, t)
  }

  lemma FetchMakesNothing(s: State, memory: bool)
    ensures Made(ServeNext(s, memory)) == Made(s) && ServeNext(s, memory).lives == s.lives
  {
    FetchTouchesNoReference(s, memory);
    if NextRequest(s).Some? {
      DispatchTouches(Fetched(s), NextRequest(s).value, memory);
    }
  }

  lemma PutMakesNothing(s: State)
    requires s.server.Handing?
    ensures Made(PutRequest(s)) == Made(s) && PutRequest(s).lives == s.lives
  {
    assert s.issued + [s.server.request] + [] == s.issued + [s.server.request];
  }

  lemma ResponseMakesNothing(s: State)
    requires s.manager.Putting?
    ensures Made(PutResponse(s)) == Made(s) && PutResponse(s).lives == s.lives
  {
  }

  lemma RestMakesNothing(cfg: Config, s: State, a: Action)
    requires Enabled(cfg, s, a) && !a.ObserveGet? && !a.PlainGet? && !a.OnUnregister?
    requires !a.ConsumeResponse? && !a.FetchRequest? && !a.ServerPut? && !a.ManagerPut?
    ensures Made(Apply(cfg, s, a)) == Made(s) && Apply(cfg, s, a).lives == s.lives
  {
  }

  lemma OthersMakeNothing(cfg: Config, s: State, a: Action)
    requires Enabled(cfg, s, a) && !a.ObserveGet? && !a.PlainGet? && !a.OnUnregister?
    ensures Made(Apply(cfg, s, a)) == Made(s) && Apply(cfg, s, a).lives == s.lives
  {
    match a
    case ConsumeResponse(confirmable) => ConsumeTouches(s, confirmable);
    case FetchRequest(memory) => FetchMakesNothing(s, memory);
    case ServerPut => PutMakesNothing(s);
    case ManagerPut => ResponseMakesNothing(s);
    case _ => RestMakesNothing(cfg, s, a);
  }

  lemma StepMakes(cfg: Config, s: State, before: seq<Action>, a: Action)
    requires Enabled(cfg, s, a) && OnResources(before, s.lives)
    ensures PutsOf(Made(Apply(cfg, s, a))) == PutsOf(Made(s)) + PutFor(before, a)
    ensures OnResources(before + [a], Apply(cfg, s, a).lives)
  {
    var after := Apply(cfg, s, a);
    assert (before + [a])[..|before|] == before;
    if a.ObserveGet? || a.PlainGet? || a.OnUnregister? {
      assert s.issued + [] == s.issued;
      assert Made(after) == Made(s) + [after.server.request];
      assert PutOf(after.server.request) == PutFor(before, a)[0];
    } else {
      OthersMakeNothing(cfg, s, a);
      assert PutsOf(Made(s)) + [] == PutsOf(Made(s));
    }
  }

  lemma {:induction false} RunMakes(cfg: Config, run: seq<Action>)
    requires IsRun(cfg, Initial(), run)
    ensures PutsOf(Made(EndOf(cfg, Initial(), run))) == PutsFor(run)
    ensures OnResources(run, EndOf(cfg, Initial(), run).lives)
  {
    if run == [] {
    } else {
      var front, last := run[..|run| - 1], run[|run| - 1];
      RunFront(cfg, Initial(), run);
      RunMakes(cfg, front);
      StepMakes(cfg, EndOf(cfg, Initial(), front), front, last);
      assert front + [last] == run;
    }
  }

  /** The server puts what its handlers were called for, in order: a START of the observer's registration on the
      resource's sensor at the frequency asked for, a ONESHOT on the resource's sensor, and a STOP of the
      registration on the sensor of the resource it was made for. */
  lemma HandlersPut(cfg: Config, run: seq<Action>)
    requires IsRun(cfg, Initial(), run)
    ensures var s := EndOf(cfg, Initial(), run);
            PutsOf(s.issued) + PutsOf(RequestInHand(s.server)) == PutsFor(run)
  {
    var s := EndOf(cfg, Initial(), run);
    RunMakes(cfg, run);
    assert PutsOf(Made(s)) == PutsOf(s.issued) + PutsOf(RequestInHand(s.server));
  }
}
