/** The timed put and its deferral loop break every circular wait: a response that the manager wants to
    put gets into the ring after a bounded number of steps, provided both threads keep being scheduled. */
module Progress {
  import opened RingModel
  import opened Protocol
  import opened ProtocolInvariants
  import opened ProtocolRuns

  predicate InPut(s: State) {
    s.manager.Putting? || s.manager.Deferring?
  }

  predicate Full(s: State) {
    |s.responses.items| >= SLOTS
  }

  predicate ServerWaits(s: State) {
    s.requests.wait == Waiting
  }

  /** How many steps the server is away from consuming a response, at most. */
  function ServerRank(cfg: Config, s: State): nat {
    match s.server
    case Consuming(done) => if done < RESPONSES_PER_ROUND then 0 else 4 * cfg.work + 2
    case Net(left) => 4 * left + 1
    case Handing(_, left) =>
      4 * left + match s.requests.wait case Signalled => 2 case Waiting => 3 case _ => 4
  }

  /** How many steps the manager is away from fetching a request. */
  function FetchRank(s: State): nat
    requires InPut(s)
  {
    if s.manager.Deferring? then 1
    else match s.responses.wait case TimedOut => 2 case Waiting => 3 case _ => 4
  }

  /** How many steps the manager is away from a put into a ring with a free slot. */
  function PutRank(s: State): nat
    requires InPut(s)
  {
    if s.manager.Deferring? then 3
    else match s.responses.wait case Signalled => 1 case TimedOut => 4 case _ => 2
  }

  /** First the server must free a slot, for which it may need the manager to take a request; then the
      manager must come round to its put. */
  function Measure(cfg: Config, s: State): nat
    requires InPut(s)
  {
    if !Full(s) then PutRank(s)
    else 8 + 6 * ServerRank(cfg, s) + if ServerWaits(s) then FetchRank(s) else 5
  }

  /** Whose step brings the put nearer. */
  predicate ManagerHelps(s: State) {
    !Full(s) || ServerWaits(s)
  }

  predicate SamePut(s: State, after: State) {
    && InPut(s) && InPut(after) && after.sent == s.sent
    && after.manager.response == s.manager.response && after.manager.after == s.manager.after
  }

  predicate Completes(s: State, after: State) {
    InPut(s) && after.sent == s.sent + [s.manager.response]
  }

  predicate Sides(s: State) {
    RequestSide(s.requests, s.server) && ResponseSide(s.responses, s.manager)
  }

  /** What a step of the server does for a put of the manager. */
  predicate ServerAdvances(cfg: Config, s: State, after: State) {
    && SamePut(s, after)
    && Measure(cfg, after) <= Measure(cfg, s)
    && (!ManagerHelps(s) ==> Measure(cfg, after) < Measure(cfg, s))
    && (ManagerHelps(s) ==> ManagerHelps(after))
  }

  /** What a step of the manager does for its put. */
  predicate ManagerAdvances(cfg: Config, s: State, after: State) {
    || (ManagerHelps(s) && Completes(s, after))
    || (&& SamePut(s, after)
        && Measure(cfg, after) <= Measure(cfg, s)
        && (ManagerHelps(s) ==> Measure(cfg, after) < Measure(cfg, s))
        && (!ManagerHelps(s) ==> !ManagerHelps(after)))
  }

  /** Only the consumer's get touches the response ring on the server's side. */
  lemma ServerActTouches(cfg: Config, s: State, a: Action)
    requires Enabled(cfg, s, a) && OfServer(a) && !a.ServerPut? && !a.ConsumeResponse?
    ensures var after := Apply(cfg, s, a);
            && after.requests == s.requests && after.responses == s.responses && after.manager == s.manager
            && after.sent == s.sent
            && match s.server
               case Consuming(_) => after.server.Net? && after.server.left <= cfg.work
                                    && s.server.done >= RESPONSES_PER_ROUND
               case Net(left) => if left == 0 then after.server == Consuming(0)
                                 else after.server == Net(left - 1)
                                      || (after.server.Handing? && after.server.left == left - 1)
               case Handing(_, _) => false
  {
  }

  lemma ServerActProgress(cfg: Config, s: State, a: Action)
    requires Sides(s) && InPut(s) && Enabled(cfg, s, a) && OfServer(a) && !a.ServerPut? && !a.ConsumeResponse?
    ensures ServerAdvances(cfg, s, Apply(cfg, s, a))
  {
    ServerActTouches(cfg, s, a);
  }

  lemma ServerPutProgress(cfg: Config, s: State)
    requires Sides(s) && InPut(s) && Enabled(cfg, s, ServerPut)
    ensures ServerAdvances(cfg, s, PutRequest(s))
  {
  }

  lemma ConsumeProgress(cfg: Config, s: State, confirmable: bool)
    requires Sides(s) && InPut(s) && s.server.Consuming? && s.server.done < RESPONSES_PER_ROUND
    ensures ServerAdvances(cfg, s, ConsumeOne(s, confirmable))
  {
    ConsumeTouches(s, confirmable);
    assert ConsumeOne(s, confirmable).sent == s.sent;
  }

  lemma ServerStepProgress(cfg: Config, s: State, a: Action)
    requires Sides(s) && InPut(s) && Enabled(cfg, s, a) && OfServer(a)
    ensures ServerAdvances(cfg, s, Apply(cfg, s, a))
  {
    match a
    case ServerPut => ServerPutProgress(cfg, s);
    case ConsumeResponse(confirmable) => ConsumeProgress(cfg, s, confirmable);
    case _ => ServerActProgress(cfg, s, a);
  }

  lemma ManagerPutProgress(cfg: Config, s: State)
    requires Sides(s) && s.manager.Putting? && s.responses.wait != Waiting
    ensures ManagerAdvances(cfg, s, PutResponse(s))
  {
  }

  lemma DeferProgress(cfg: Config, s: State)
    requires Sides(s) && s.manager.Deferring?
    ensures ManagerAdvances(cfg, s, SetAside(cfg, s))
  {
  }

  lemma ManagerStepProgress(cfg: Config, s: State, a: Action)
    requires Sides(s) && InPut(s) && Enabled(cfg, s, a) && !OfServer(a)
    ensures ManagerAdvances(cfg, s, Apply(cfg, s, a))
  {
    match a
    case ManagerPut => ManagerPutProgress(cfg, s);
    case DeferRequest => DeferProgress(cfg, s);
    case WaitExpires =>
  }

  lemma ReachableSides(cfg: Config, s: State)
    requires Reachable(cfg, s)
    ensures Sides(s)
  {
    ReachableKeepsAll(cfg, s);
  }

  // ---- runs ----

  predicate Follows(cfg: Config, s: State, a: Action, next: State) {
    Enabled(cfg, s, a) && next == Apply(cfg, s, a)
  }

  /** A run together with the states it passes through. */
  predicate IsTrace(cfg: Config, states: seq<State>, run: seq<Action>) {
    |states| == |run| + 1 && forall i :: 0 <= i < |run| ==> Follows(cfg, states[i], run[i], states[i + 1])
  }

  lemma {:induction false} RunHasTrace(cfg: Config, s: State, run: seq<Action>) returns (states: seq<State>)
    requires IsRun(cfg, s, run)
    ensures IsTrace(cfg, states, run) && states[0] == s && states[|run|] == EndOf(cfg, s, run)
    decreases run
  {
    if run == [] {
      states := [s];
    } else {
      var rest := RunHasTrace(cfg, Apply(cfg, s, run[0]), run[1..]);
      states := [s] + rest;
      forall i | 0 <= i < |run|
        ensures Follows(cfg, states[i], run[i], states[i + 1])
      {
        if i > 0 {
          assert Follows(cfg, rest[i - 1], run[1..][i - 1], rest[i]);
        }
      }
    }
  }

  /** In every window of so many steps the manager takes one, and the server takes one or is found
      waiting for a slot in the request ring. */
  predicate Fair(states: seq<State>, run: seq<Action>, window: nat)
    requires |states| == |run| + 1
  {
    forall i: nat :: i + window <= |run| ==> FairAt(states, run, window, i)
  }

  predicate FairAt(states: seq<State>, run: seq<Action>, window: nat, i: nat)
    requires |states| == |run| + 1 && i + window <= |run|
  {
    && (exists j :: i <= j < i + window && !OfServer(run[j]))
    && (exists j :: i <= j < i + window && ServerActsOrWaits(states, run, j))
  }

  predicate ServerActsOrWaits(states: seq<State>, run: seq<Action>, j: nat)
    requires |states| == |run| + 1 && j < |run|
  {
    OfServer(run[j]) || ServerWaits(states[j])
  }

  /** The manager's steps advance it when it is its turn to help, and the server's when it is the server's. */
  lemma StepProgress(cfg: Config, s: State, a: Action)
    requires Reachable(cfg, s) && InPut(s) && Enabled(cfg, s, a)
    ensures Reachable(cfg, Apply(cfg, s, a))
    ensures if OfServer(a) then ServerAdvances(cfg, s, Apply(cfg, s, a)) else ManagerAdvances(cfg, s, Apply(cfg, s, a))
  {
    ReachableSides(cfg, s);
    ReachNext(cfg, s, a);
    if OfServer(a) {
      ServerStepProgress(cfg, s, a);
    } else {
      ManagerStepProgress(cfg, s, a);
    }
  }

  /** The put is done, or the same put is nearer to it. */
  predicate Advanced(cfg: Config, s: State, after: State) {
    Completes(s, after) || (SamePut(s, after) && Measure(cfg, after) < Measure(cfg, s))
  }

  /** From step i on, within so many steps, there is one of the thread that helps. */
  predicate HelpWithin(states: seq<State>, run: seq<Action>, i: nat, n: nat)
    requires |states| == |run| + 1 && i + n <= |run|
  {
    if ManagerHelps(states[i]) then exists j :: i <= j < i + n && !OfServer(run[j])
    else exists j :: i <= j < i + n && ServerActsOrWaits(states, run, j)
  }

  lemma {:induction false} HelpComes(cfg: Config, states: seq<State>, run: seq<Action>, i: nat, n: nat) returns (j: nat)
    requires IsTrace(cfg, states, run) && i + n <= |run|
    requires Reachable(cfg, states[i]) && InPut(states[i]) && HelpWithin(states, run, i, n)
    ensures i < j <= i + n && Reachable(cfg, states[j]) && Advanced(cfg, states[i], states[j])
    decreases n
  {
    var s, next := states[i], states[i + 1];
    assert Follows(cfg, s, run[i], next);
    StepProgress(cfg, s, run[i]);
    if OfServer(run[i]) != ManagerHelps(s) {
      j := i + 1;
    } else {
      HelpIsStillToCome(states, run, i, n);
      j := HelpComes(cfg, states, run, i + 1, n - 1);
    }
  }

  lemma HelpIsStillToCome(states: seq<State>, run: seq<Action>, i: nat, n: nat)
    requires |states| == |run| + 1 && i + n <= |run| && 0 < n && HelpWithin(states, run, i, n)
    requires OfServer(run[i]) == ManagerHelps(states[i]) == ManagerHelps(states[i + 1])
    ensures HelpWithin(states, run, i + 1, n - 1)
  {
    if ManagerHelps(states[i]) {
      var j :| i <= j < i + n && !OfServer(run[j]);
      assert j != i;
    } else {
      var j :| i <= j < i + n && ServerActsOrWaits(states, run, j);
      assert j != i;
    }
  }

  lemma {:induction false} PutCompletesFrom(cfg: Config, states: seq<State>, run: seq<Action>, window: nat, i: nat)
    returns (k: nat)
    requires IsTrace(cfg, states, run) && Fair(states, run, window) && i <= |run|
    requires Reachable(cfg, states[i]) && InPut(states[i]) && |run| - i >= window * Measure(cfg, states[i])
    ensures i <= k <= |run| && Completes(states[i], states[k])
    decreases Measure(cfg, states[i])
  {
    AtLeastOnce(window, Measure(cfg, states[i]));
    assert FairAt(states, run, window, i);
    var j := HelpComes(cfg, states, run, i, window);
    if Completes(states[i], states[j]) {
      k := j;
    } else {
      OneFewer(window, Measure(cfg, states[j]), Measure(cfg, states[i]));
      k := PutCompletesFrom(cfg, states, run, window, j);
    }
  }

  lemma AtLeastOnce(window: nat, n: nat)
    requires n >= 1
    ensures window * n >= window
  {
  }

  lemma OneFewer(window: nat, n: nat, m: nat)
    requires n < m
    ensures window * n + window <= window * m
  {
    assert window * (n + 1) == window * n + window;
    AtMost(window, n + 1, m);
  }

  lemma AtMost(window: nat, n: nat, m: nat)
    requires n <= m
    ensures window * n <= window * m
  {
  }

  /** From every reachable state in which the manager wants to put a response, every fair run of that many
      steps puts it, whichever way the two threads interleave and whatever waits expire. */
  lemma PutCompletes(cfg: Config, states: seq<State>, run: seq<Action>, window: nat)
    requires IsTrace(cfg, states, run) && Fair(states, run, window)
    requires Reachable(cfg, states[0]) && InPut(states[0]) && |run| >= window * Measure(cfg, states[0])
    ensures exists i: nat :: i <= |run| && Completes(states[0], states[i])
  {
    var i := PutCompletesFrom(cfg, states, run, window, 0);
  }

  /** When both threads wait on full rings, the bound depends only on what the server still has to hand on
      in this round. */
  lemma MeasureWhenBothWait(cfg: Config, s: State)
    requires Reachable(cfg, s) && ServerWaits(s) && s.manager.Putting? && s.responses.wait == Waiting
    ensures s.server.Handing? && Measure(cfg, s) == 24 * s.server.left + 29
  {
    ReachableSides(cfg, s);
  }

  /** Without the deferral loop both threads would wait for ever: of the server no step is possible, and
      of the manager only that its wait expires. */
  lemma OnlyTheTimeoutIsLeft(cfg: Config, s: State, a: Action)
    requires Reachable(cfg, s) && ServerWaits(s) && s.manager.Putting? && s.responses.wait == Waiting
    ensures Enabled(cfg, s, a) <==> a == WaitExpires
  {
    ReachableSides(cfg, s);
  }
}
