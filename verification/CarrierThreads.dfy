/** The carrier thread of one event-based sensor and the manager's calls that start and end it.

    The two share three flags without a lock; each step below is one access to them.  Only the manager
    sets `is_active` and creates threads, and only it calls activate and turn-off, one after the other. */
module CarrierThreads {
  /** Inside android_sensor_activate: is_active is set, the flag was found clear, the thread is created. */
  datatype ManagerPc = Idle | Activating | Cleared | Created

  datatype Carrier = Looping | Leaving

  datatype State = State(active: bool, started: bool, globalExit: bool, manager: ManagerPc, carriers: seq<Carrier>)

  datatype Action =
    | Activate        // is_active = 1
    | TestStarted     // carrier_thread_started == 0 ?
    | Create          // pthread_create
    | MarkStarted     // carrier_thread_started = 1
    | TurnOff         // is_active = 0
    | Poll(i: nat)    // the loop condition of a carrier
    | Finish(i: nat)  // carrier_thread_started = 0, and the thread is gone
    | Exit            // globalexit = 1

  predicate Enabled(s: State, a: Action) {
    match a
    case Activate => s.manager.Idle?
    case TestStarted => s.manager.Activating?
    case Create => s.manager.Cleared?
    case MarkStarted => s.manager.Created?
    case TurnOff => s.manager.Idle?
    case Poll(i) => i < |s.carriers| && s.carriers[i].Looping?
    case Finish(i) => i < |s.carriers| && s.carriers[i].Leaving?
    case Exit => true
  }

  function Apply(s: State, a: Action): State
    requires Enabled(s, a)
  {
    match a
    case Activate => s.(active := true, manager := Activating)
    case TestStarted => s.(manager := if s.started then Idle else Cleared)
    case Create => s.(carriers := s.carriers + [Looping], manager := Created)
    case MarkStarted => s.(started := true, manager := Idle)
    case TurnOff => s.(active := false)
    case Poll(i) => if s.globalExit || !s.active then s.(carriers := s.carriers[i := Leaving]) else s
    case Finish(i) => s.(started := false, carriers := s.carriers[..i] + s.carriers[i + 1..])
    case Exit => s.(globalExit := true)
  }

  const INITIAL: State := State(false, false, false, Idle, [])

  predicate IsRun(s: State, run: seq<Action>)
    decreases run
  {
    run == [] || (Enabled(s, run[0]) && IsRun(Apply(s, run[0]), run[1..]))
  }

  function EndOf(s: State, run: seq<Action>): State
    requires IsRun(s, run)
    decreases run
  {
    if run == [] then s else EndOf(Apply(s, run[0]), run[1..])
  }

  predicate Reaches(run: seq<Action>, s: State) {
    IsRun(INITIAL, run) && EndOf(INITIAL, run) == s
  }

  ghost predicate Reachable(s: State) {
    exists run :: Reaches(run, s)
  }

  lemma {:induction false} RunAppend(s: State, run: seq<Action>, a: Action)
    requires IsRun(s, run) && Enabled(EndOf(s, run), a)
    ensures IsRun(s, run + [a]) && EndOf(s, run + [a]) == Apply(EndOf(s, run), a)
    decreases run
  {
    if run == [] {
      assert run + [a] == [a];
      assert EndOf(Apply(s, a), []) == Apply(s, a);
    } else {
      assert (run + [a])[1..] == run[1..] + [a] && (run + [a])[0] == run[0];
      RunAppend(Apply(s, run[0]), run[1..], a);
    }
  }

  lemma Take(s: State, a: Action) returns (after: State)
    requires Reachable(s) && Enabled(s, a)
    ensures Reachable(after) && after == Apply(s, a)
  {
    var run :| Reaches(run, s);
    RunAppend(INITIAL, run, a);
    after := Apply(s, a);
    assert Reaches(run + [a], after);
  }

  /** While a thread is being created it cannot end, because is_active stays set until the manager is
      back; except at global exit, after which the flag may stay set with no thread behind it. */
  predicate Invariant(s: State) {
    && |s.carriers| <= 1
    && (!s.manager.Idle? ==> s.active)
    && match s.manager
       case Cleared => !s.started && s.carriers == []
       case Created => !s.globalExit ==> s.carriers == [Looping]
       case _ => (s.carriers != [] ==> s.started) && (s.started && !s.globalExit ==> s.carriers != [])
  }

  lemma {:induction false} RunKeepsInvariant(s: State, run: seq<Action>)
    requires Invariant(s) && IsRun(s, run)
    ensures Invariant(EndOf(s, run))
    decreases run
  {
    if run == [] {
    } else {
      RunKeepsInvariant(Apply(s, run[0]), run[1..]);
    }
  }

  lemma ReachableInvariant(s: State)
    requires Reachable(s)
    ensures Invariant(s)
  {
    var run :| Reaches(run, s);
    RunKeepsInvariant(INITIAL, run);
  }

  /** Under every interleaving at most one carrier thread exists, and until global exit the flag says
      whether one does, outside the window between creating it and setting the flag. */
  lemma AtMostOneCarrier(s: State)
    requires Reachable(s)
    ensures |s.carriers| <= 1
    ensures !s.globalExit && !s.manager.Created? ==> (s.started <==> s.carriers != [])
  {
    ReachableInvariant(s);
  }

  /** The run goes on until the manager is back from its call, however the carrier's steps fall in between,
      and the program does not exit meanwhile. */
  predicate UntilBack(s: State, run: seq<Action>)
    decreases run
  {
    if s.manager.Idle? then run == []
    else run != [] && !run[0].Exit? && Enabled(s, run[0]) && UntilBack(Apply(s, run[0]), run[1..])
  }

  lemma {:induction false} UntilBackIsRun(s: State, run: seq<Action>)
    requires UntilBack(s, run)
    ensures IsRun(s, run) && EndOf(s, run).manager.Idle?
    decreases run
  {
    if s.manager.Idle? {
    } else {
      UntilBackIsRun(Apply(s, run[0]), run[1..]);
    }
  }

  /** A carrier that is being created loops when the manager comes back. */
  lemma {:induction false} CreatedCarrierLoops(s: State, run: seq<Action>)
    requires UntilBack(s, run) && IsRun(s, run)
    requires s.active && !s.globalExit
    requires !s.manager.Activating? && s.carriers == if s.manager.Cleared? then [] else [Looping]
    ensures EndOf(s, run).carriers == [Looping] && EndOf(s, run).active
    decreases run
  {
    if s.manager.Idle? {
    } else {
      assert [] + [Looping] == [Looping];
      CreatedCarrierLoops(Apply(s, run[0]), run[1..]);
    }
  }

  /** From the test of the flag to the manager's return, under every interleaving without global exit, an
      activation leaves the sensor with a carrier that goes on exactly if none was past its loop when the
      flag was tested.  Otherwise that one goes, and the active sensor has none. */
  lemma ActivationCarriesOnIff(s: State, run: seq<Action>)
    requires Reachable(s) && s.manager.Activating? && !s.globalExit && UntilBack(Apply(s, TestStarted), run)
    ensures IsRun(Apply(s, TestStarted), run)
    ensures EndOf(Apply(s, TestStarted), run).carriers == [Looping] <==> s.carriers != [Leaving]
  {
    ReachableInvariant(s);
    var tested := Apply(s, TestStarted);
    UntilBackIsRun(tested, run);
    if s.started {
      var only := s.carriers[0];
      assert tested.carriers == s.carriers == [only];
      assert [Looping][0] != [Leaving][0] && (only == Looping || only == Leaving);
    } else {
      assert s.carriers == [];
      CreatedCarrierLoops(tested, run);
    }
  }

  // ---- the carriers end ----

  /** How many steps a carrier has to take to be gone. */
  function StepsOf(c: Carrier): nat {
    if c.Looping? then 2 else 1
  }

  function StepsLeft(carriers: seq<Carrier>): nat {
    if carriers == [] then 0 else StepsLeft(carriers[..|carriers| - 1]) + StepsOf(carriers[|carriers| - 1])
  }

  /** The run's steps of carriers. */
  function CarrierSteps(run: seq<Action>): nat {
    if run == [] then 0 else (if run[0].Poll? || run[0].Finish? then 1 else 0) + CarrierSteps(run[1..])
  }

  function Creations(run: seq<Action>): nat {
    if run == [] then 0 else (if run[0].Create? then 1 else 0) + Creations(run[1..])
  }

  /** No carrier is to go on: the program exits, or the sensor is off and stays off. */
  predicate Ending(s: State, run: seq<Action>) {
    s.globalExit || (!s.active && forall a <- run :: !a.Activate?)
  }

  lemma {:induction false} StepsLeftOf(before: seq<Carrier>, c: Carrier, rest: seq<Carrier>)
    ensures StepsLeft(before + [c] + rest) == StepsLeft(before + rest) + StepsOf(c)
    decreases rest
  {
    if rest == [] {
      assert (before + [c] + rest)[..|before|] == before && before + rest == before;
    } else {
      var last := |rest| - 1;
      StepsLeftOf(before, c, rest[..last]);
      assert (before + [c] + rest)[..|before| + 1 + last] == before + [c] + rest[..last];
      assert (before + rest)[..|before| + last] == before + rest[..last];
    }
  }

  lemma PollTakesOne(s: State, i: nat)
    requires Enabled(s, Poll(i)) && (s.globalExit || !s.active)
    ensures StepsLeft(Apply(s, Poll(i)).carriers) + 1 == StepsLeft(s.carriers)
  {
    var before, rest := s.carriers[..i], s.carriers[i + 1..];
    StepsLeftOf(before, Looping, rest);
    StepsLeftOf(before, Leaving, rest);
    assert s.carriers == before + [Looping] + rest;
    assert Apply(s, Poll(i)).carriers == before + [Leaving] + rest;
  }

  lemma FinishTakesOne(s: State, i: nat)
    requires Enabled(s, Finish(i))
    ensures StepsLeft(Apply(s, Finish(i)).carriers) + 1 == StepsLeft(s.carriers)
  {
    var before, rest := s.carriers[..i], s.carriers[i + 1..];
    StepsLeftOf(before, Leaving, rest);
    assert s.carriers == before + [Leaving] + rest;
  }

  lemma CreateAddsTwo(s: State)
    requires Enabled(s, Create)
    ensures StepsLeft(Apply(s, Create).carriers) == StepsLeft(s.carriers) + 2
  {
    StepsLeftOf(s.carriers, Looping, []);
    assert s.carriers + [Looping] + [] == s.carriers + [Looping] && s.carriers + [] == s.carriers;
  }

  /** Of the steps that the carriers still need, one step of the run takes or adds its own. */
  predicate StepCounts(s: State, a: Action, after: State) {
    StepsLeft(after.carriers) + (if a.Poll? || a.Finish? then 1 else 0)
    == StepsLeft(s.carriers) + if a.Create? then 2 else 0
  }

  lemma EveryStepCounts(s: State, a: Action)
    requires Enabled(s, a) && (s.globalExit || !s.active)
    ensures StepCounts(s, a, Apply(s, a))
  {
    match a
    case Poll(i) => PollTakesOne(s, i);
    case Finish(i) => FinishTakesOne(s, i);
    case Create => CreateAddsTwo(s);
    case _ =>
  }

  /** Once the program exits, or while the sensor stays off, whatever the interleaving, every step of a carrier
      brings it nearer to its end: a looping one is gone after two, one past its loop after one. */
  lemma {:induction false} EveryCarrierEnds(s: State, run: seq<Action>)
    requires IsRun(s, run) && Ending(s, run)
    ensures StepsLeft(EndOf(s, run).carriers) + CarrierSteps(run) == StepsLeft(s.carriers) + 2 * Creations(run)
    decreases run
  {
    if run == [] {
    } else {
      assert run[0] in run && forall a <- run[1..] :: a in run;
      EveryStepCounts(s, run[0]);
      EveryCarrierEnds(Apply(s, run[0]), run[1..]);
    }
  }

  /** Until the sensor is turned off or the program exits, its carrier goes on, and no other is created. */
  lemma {:induction false} CarrierGoesOn(s: State, run: seq<Action>)
    requires IsRun(s, run) && forall a <- run :: !a.TurnOff? && !a.Exit?
    requires s.active && s.started && !s.globalExit && (s.manager.Idle? || s.manager.Activating?)
    requires s.carriers == [Looping]
    ensures EndOf(s, run).carriers == [Looping]
    decreases run
  {
    if run == [] {
    } else {
      assert run[0] in run && forall a <- run[1..] :: a in run;
      CarrierGoesOn(Apply(s, run[0]), run[1..]);
    }
  }

  /** Turned off and on again while its carrier is on the way out, a sensor is active without one. */
  lemma ActiveSensorWithoutCarrier()
    ensures exists s :: Reachable(s) && s.active && s.manager.Idle? && s.carriers == [] && !s.globalExit
  {
    var s := INITIAL;
    assert Reaches([], s);
    s := Take(s, Activate);
    s := Take(s, TestStarted);
    s := Take(s, Create);
    s := Take(s, MarkStarted);
    s := Take(s, TurnOff);
    s := Take(s, Poll(0));
    s := Take(s, Activate);
    s := Take(s, TestStarted);
    s := Take(s, Finish(0));
  }
}
