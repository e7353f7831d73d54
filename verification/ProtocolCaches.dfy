/** When a sensor's cached sample answers a one-shot: the flag that says so, in every state of every run. */
module ProtocolCaches {
  import opened RingModel
  import opened SensorModel
  import opened Ledger
  import opened Protocol
  import opened ProtocolConditions
  import opened ProtocolInvariants
  import opened ProtocolOutcomes
  import opened ProtocolRuns

  /** The state before the i-th step of a run, or its end. */
  function StateAt(cfg: Config, s: State, run: seq<Action>, i: nat): State
    requires IsRun(cfg, s, run) && i <= |run|
    decreases run
  {
    if i == 0 then s else StateAt(cfg, Apply(cfg, s, run[0]), run[1..], i - 1)
  }

  /** The step takes a sample of the sensor out of the sample queue, not out of the carriers queue. */
  predicate Samples(s: State, a: Action, id: SensorId) {
    match a
    case RealReading(sensor) => sensor == id
    case Reading(sensor, _) => sensor == id && s.manager.Sampling? && s.manager.turn in {0, 2, 4}
    case _ => false
  }

  predicate SamplesAt(cfg: Config, s: State, run: seq<Action>, i: nat, id: SensorId)
    requires IsRun(cfg, s, run)
  {
    i < |run| && Samples(StateAt(cfg, s, run, i), run[i], id)
  }

  predicate ActiveAt(cfg: Config, s: State, run: seq<Action>, i: nat, id: SensorId)
    requires IsRun(cfg, s, run) && i <= |run|
  {
    StateAt(cfg, s, run, i).sensors[id].active
  }

  /** No step from the n-th on turns the sensor off. */
  predicate NotTurnedOff(cfg: Config, s: State, run: seq<Action>, n: nat, id: SensorId)
    requires IsRun(cfg, s, run)
  {
    forall i: nat {:trigger ActiveAt(cfg, s, run, i, id)} :: n <= i < |run| ==>
      (ActiveAt(cfg, s, run, i, id) ==> ActiveAt(cfg, s, run, i + 1, id))
  }

  /** The i-th step samples the sensor, and none after it turns the sensor off. */
  predicate FreshFrom(cfg: Config, s: State, run: seq<Action>, i: nat, id: SensorId)
    requires IsRun(cfg, s, run)
  {
    SamplesAt(cfg, s, run, i, id) && NotTurnedOff(cfg, s, run, i + 1, id)
  }

  // ---- one step ----

  predicate TurnsOff(x: Sensor, after: Sensor) {
    x.active && !after.active
  }

  /** The flag is set by a sample from the sample queue, cleared by a turn-off, and otherwise left. */
  predicate CacheFollows(x: Sensor, sampled: bool, after: Sensor) {
    after.cacheValid <==> sampled || (x.cacheValid && !TurnsOff(x, after))
  }

  lemma CacheByFetch(s: State, memory: bool, id: SensorId)
    requires Invariant(s) && s.manager.Fetching?
    ensures CacheFollows(s.sensors[id], false, ServeNext(s, memory).sensors[id])
  {
    if NextRequest(s).Some? {
      var r, f := NextRequest(s).value, Fetched(s);
      assert Consistent(s.sensors[id]);
      if id == SensorOf(r) {
        CacheByDispatch(f, r, memory);
      } else {
        DispatchOneSensor(f, r, memory, id);
      }
    }
  }

  lemma CacheByDispatch(f: State, r: Request, memory: bool)
    requires Consistent(f.sensors[SensorOf(r)])
    ensures CacheFollows(f.sensors[SensorOf(r)], false, Dispatch(f, r, memory).sensors[SensorOf(r)])
  {
  }

  lemma CacheByContinue(s: State, after: After, id: SensorId)
    requires Consistent(s.sensors[id])
    ensures CacheFollows(s.sensors[id], false, Continue(s, after).sensors[id])
  {
  }

  lemma CacheByPut(s: State, id: SensorId)
    requires Consistent(s.sensors[id]) && s.manager.Putting? && s.responses.wait != Waiting
    ensures CacheFollows(s.sensors[id], false, PutResponse(s).sensors[id])
  {
    var inserted := PutContinues(s);
    CacheByContinue(inserted, s.manager.after, id);
  }

  lemma CacheByReading(cfg: Config, s: State, a: Action, id: SensorId)
    requires Enabled(cfg, s, a) && (a.Reading? || a.RealReading?)
    ensures CacheFollows(s.sensors[id], Samples(s, a, id), Apply(cfg, s, a).sensors[id])
  {
    if a.Reading? {
      assert s.manager.turn in {0, 2, 4} <==> !CarrierTurn(s.manager.turn);
    }
  }

  lemma OthersFollow(cfg: Config, s: State, a: Action, id: SensorId)
    requires Enabled(cfg, s, a) && !a.FetchRequest? && !a.ManagerPut? && !a.Reading? && !a.RealReading?
    ensures CacheFollows(s.sensors[id], Samples(s, a, id), Apply(cfg, s, a).sensors[id])
  {
    OthersTouchNoSensor(cfg, s, a);
  }

  lemma CacheByStep(cfg: Config, s: State, a: Action, id: SensorId)
    requires Invariant(s) && Enabled(cfg, s, a)
    ensures CacheFollows(s.sensors[id], Samples(s, a, id), Apply(cfg, s, a).sensors[id])
  {
    if a.FetchRequest? {
      CacheByFetch(s, a.memory, id);
    } else if a.ManagerPut? {
      assert Consistent(s.sensors[id]);
      CacheByPut(s, id);
    } else if a.Reading? || a.RealReading? {
      CacheByReading(cfg, s, a, id);
    } else {
      OthersFollow(cfg, s, a, id);
    }
  }

  // ---- every run ----

  lemma FirstStep(cfg: Config, s: State, run: seq<Action>, id: SensorId)
    requires IsRun(cfg, s, run) && run != []
    ensures var next := Apply(cfg, s, run[0]);
            NotTurnedOff(cfg, s, run, 0, id) <==>
            !TurnsOff(s.sensors[id], next.sensors[id]) && NotTurnedOff(cfg, next, run[1..], 0, id)
  {
    var next := Apply(cfg, s, run[0]);
    LaterSteps(cfg, s, run, 0, id);
    assert ActiveAt(cfg, s, run, 0, id) <==> s.sensors[id].active;
    assert StateAt(cfg, s, run, 1) == StateAt(cfg, next, run[1..], 0) == next;
    assert ActiveAt(cfg, s, run, 1, id) <==> next.sensors[id].active;
  }

  /** Counted from the second step on, the steps are those of the rest of the run. */
  lemma LaterSteps(cfg: Config, s: State, run: seq<Action>, n: nat, id: SensorId)
    requires IsRun(cfg, s, run) && run != []
    ensures NotTurnedOff(cfg, s, run, n + 1, id) <==> NotTurnedOff(cfg, Apply(cfg, s, run[0]), run[1..], n, id)
  {
    var next := Apply(cfg, s, run[0]);
    assert forall i: nat {:trigger ActiveAt(cfg, next, run[1..], i, id)} :: i < |run| ==>
      (ActiveAt(cfg, next, run[1..], i, id) <==> ActiveAt(cfg, s, run, i + 1, id));
    if NotTurnedOff(cfg, next, run[1..], n, id) {
      forall i: nat | n + 1 <= i < |run|
        ensures ActiveAt(cfg, s, run, i, id) ==> ActiveAt(cfg, s, run, i + 1, id)
      {
        assert ActiveAt(cfg, next, run[1..], i - 1, id) ==> ActiveAt(cfg, next, run[1..], i, id);
      }
    }
  }

  lemma FreshLater(cfg: Config, s: State, run: seq<Action>, i: nat, id: SensorId)
    requires IsRun(cfg, s, run) && run != []
    ensures FreshFrom(cfg, s, run, i + 1, id) <==> FreshFrom(cfg, Apply(cfg, s, run[0]), run[1..], i, id)
  {
    LaterSteps(cfg, s, run, i + 1, id);
  }

  ghost predicate Fresh(cfg: Config, s: State, run: seq<Action>, id: SensorId)
    requires IsRun(cfg, s, run)
  {
    exists i: nat :: FreshFrom(cfg, s, run, i, id)
  }

  lemma FreshInTwo(cfg: Config, s: State, run: seq<Action>, id: SensorId)
    requires IsRun(cfg, s, run) && run != []
    ensures var next := Apply(cfg, s, run[0]);
            Fresh(cfg, s, run, id) <==>
            (Samples(s, run[0], id) && NotTurnedOff(cfg, next, run[1..], 0, id)) || Fresh(cfg, next, run[1..], id)
  {
    var next := Apply(cfg, s, run[0]);
    LaterSteps(cfg, s, run, 0, id);
    assert FreshFrom(cfg, s, run, 0, id) <==> Samples(s, run[0], id) && NotTurnedOff(cfg, next, run[1..], 0, id);
    if Fresh(cfg, s, run, id) && !FreshFrom(cfg, s, run, 0, id) {
      var i: nat :| FreshFrom(cfg, s, run, i, id);
      FreshLater(cfg, s, run, i - 1, id);
    }
    if Fresh(cfg, next, run[1..], id) {
      var i: nat :| FreshFrom(cfg, next, run[1..], i, id);
      FreshLater(cfg, s, run, i, id);
      assert FreshFrom(cfg, s, run, i + 1, id);
    }
  }

  lemma {:induction false} CacheByRun(cfg: Config, s: State, run: seq<Action>, id: SensorId)
    requires Reachable(cfg, s) && IsRun(cfg, s, run)
    ensures EndOf(cfg, s, run).sensors[id].cacheValid
       <==> (s.sensors[id].cacheValid && NotTurnedOff(cfg, s, run, 0, id)) || Fresh(cfg, s, run, id)
    decreases run
  {
    if run == [] {
    } else {
      var next := Apply(cfg, s, run[0]);
      ReachableKeepsAll(cfg, s);
      ReachNext(cfg, s, run[0]);
      CacheByStep(cfg, s, run[0], id);
      FirstStep(cfg, s, run, id);
      FreshInTwo(cfg, s, run, id);
      CacheByRun(cfg, next, run[1..], id);
    }
  }

  /** A sensor's cache is valid exactly if a sample of it was taken out of the sample queue in the run, and the
      sensor has not been turned off since. */
  lemma CacheValidIff(cfg: Config, run: seq<Action>, id: SensorId)
    requires IsRun(cfg, Initial(), run)
    ensures EndOf(cfg, Initial(), run).sensors[id].cacheValid <==> Fresh(cfg, Initial(), run, id)
  {
    assert Reaches(cfg, [], Initial());
    CacheByRun(cfg, Initial(), run, id);
  }
}
