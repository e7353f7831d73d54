/** How the two threads share their time: what the manager looks at between two requests, and what the server
    does between two turns to the network. */
module ProtocolRounds {
  import opened Protocol
  import opened Ledger
  import opened ProtocolOutcomes
  import opened ProtocolRuns

  // ---- the manager's passes ----

  /** One look at the sample queue or the carriers queue, whatever is there. */
  predicate Looks(a: Action) {
    a.Reading? || a.NoReading?
  }

  /** How often the manager has looked at the two queues since it last fetched a request. */
  function LooksSince(run: seq<Action>): nat {
    if run == [] then 0
    else
      var last, front := run[|run| - 1], run[..|run| - 1];
      if last.FetchRequest? then 0 else LooksSince(front) + if Looks(last) then 1 else 0
  }

  predicate FetchedBefore(run: seq<Action>) {
    exists a <- run :: a.FetchRequest?
  }

  /** The turn that the manager's place in its loops belongs to. */
  predicate InTurn(run: seq<Action>, pc: ManagerPc) {
    match pc
    case Fetching => FetchedBefore(run) ==> LooksSince(run) == 5
    case Sampling(turn) => turn == LooksSince(run) <= 5
    case Delivering(_, _, turn) => turn + 1 == LooksSince(run) <= 5
    case Putting(_, after) => AfterInTurn(run, after)
    case Deferring(_, after) => AfterInTurn(run, after)
    case Faulted => true
  }

  predicate AfterInTurn(run: seq<Action>, after: After) {
    match after
    case AfterRequest => LooksSince(run) == 0
    case AfterOneshot(_, turn) => turn + 1 == LooksSince(run) <= 5
    case AfterStream(_, _, turn) => turn + 1 == LooksSince(run) <= 5
  }

  lemma LooksNext(run: seq<Action>, a: Action)
    ensures LooksSince(run + [a]) == if a.FetchRequest? then 0 else LooksSince(run) + if Looks(a) then 1 else 0
    ensures FetchedBefore(run + [a]) <==> FetchedBefore(run) || a.FetchRequest?
  {
    assert (run + [a])[..|run|] == run;
    assert a in run + [a] && forall b <- run :: b in run + [a];
  }

  lemma DispatchInTurn(run: seq<Action>, f: State, r: Request, memory: bool)
    requires LooksSince(run) == 0
    ensures InTurn(run, Dispatch(f, r, memory).manager)
  {
    match r
    case Start(_, _, _) =>
    case Stop(_, _) =>
    case Oneshot(_, _) =>
  }

  lemma FetchInTurn(run: seq<Action>, s: State, memory: bool)
    requires s.manager.Fetching? && LooksSince(run) == 0
    ensures InTurn(run, ServeNext(s, memory).manager)
  {
    if NextRequest(s).Some? {
      DispatchInTurn(run, Fetched(s), NextRequest(s).value, memory);
    }
  }

  lemma PutInTurn(run: seq<Action>, s: State)
    requires s.manager.Putting? && InTurn(run, s.manager)
    ensures InTurn(run, PutResponse(s).manager)
  {
  }

  lemma StepInTurn(cfg: Config, run: seq<Action>, s: State, a: Action)
    requires Enabled(cfg, s, a) && InTurn(run, s.manager)
    ensures InTurn(run + [a], Apply(cfg, s, a).manager)
  {
    LooksNext(run, a);
    if a.FetchRequest? {
      FetchInTurn(run + [a], s, a.memory);
    } else if a.ManagerPut? {
      PutInTurn(run, s);
    } else if !OfServer(a) {
      RestInTurn(cfg, run, s, a);
    } else {
      ServerLeavesManager(cfg, s, a);
    }
  }

  lemma RestInTurn(cfg: Config, run: seq<Action>, s: State, a: Action)
    requires Enabled(cfg, s, a) && InTurn(run, s.manager) && !OfServer(a) && !a.FetchRequest? && !a.ManagerPut?
    ensures InTurn(run + [a], Apply(cfg, s, a).manager)
  {
    LooksNext(run, a);
  }

  lemma {:induction false} RunInTurn(cfg: Config, run: seq<Action>)
    requires IsRun(cfg, Initial(), run)
    ensures InTurn(run, EndOf(cfg, Initial(), run).manager)
  {
    if run == [] {
    } else {
      var front, last := run[..|run| - 1], run[|run| - 1];
      RunFront(cfg, Initial(), run);
      RunInTurn(cfg, front);
      StepInTurn(cfg, front, EndOf(cfg, Initial(), front), last);
      assert front + [last] == run;
    }
  }

  /** Between two requests the manager looks at its queues exactly five times, alternately and beginning with the
      sample queue: from the sample queue it takes for the streams what is not event-based, and from the carriers
      queue what is. */
  lemma FiveLooksToARequest(cfg: Config, run: seq<Action>, a: Action)
    requires IsRun(cfg, Initial(), run) && Enabled(cfg, EndOf(cfg, Initial(), run), a)
    ensures a.FetchRequest? && FetchedBefore(run) ==> LooksSince(run) == 5
    ensures Looks(a) ==> LooksSince(run) < 5
    ensures a.Reading? ==> (a.sensor in {3, 8} <==> LooksSince(run) in {1, 3})
  {
    RunInTurn(cfg, run);
  }

  // ---- the server's rounds ----

  predicate Handles(a: Action) {
    a.ObserveGet? || a.PlainGet? || a.OnUnregister? || a.Settled? || a.OtherMessage?
  }

  /** How much the network had for the server in this round, and how much of it has been handled; 0 before the
      first round. */
  function Found(run: seq<Action>): nat {
    if run == [] then 0
    else if run[|run| - 1].NextRound? then run[|run| - 1].work else Found(run[..|run| - 1])
  }

  function HandledSince(run: seq<Action>): nat {
    if run == [] || run[|run| - 1].NextRound? then 0
    else HandledSince(run[..|run| - 1]) + if Handles(run[|run| - 1]) then 1 else 0
  }

  /** How often the server has looked for a response since it was last done with the network; five before the
      first round. */
  function GetsSince(run: seq<Action>): nat {
    if run == [] then 5
    else if run[|run| - 1].NetworkDone? then 0
    else GetsSince(run[..|run| - 1]) + if run[|run| - 1].ConsumeResponse? then 1 else 0
  }

  predicate InRound(run: seq<Action>, pc: ServerPc) {
    match pc
    case Net(left) => HandledSince(run) + left == Found(run)
    case Handing(_, left) => HandledSince(run) + left == Found(run)
    case Consuming(done) => done == GetsSince(run) <= 5 && HandledSince(run) == Found(run)
  }

  lemma RoundNext(run: seq<Action>, a: Action)
    ensures Found(run + [a]) == if a.NextRound? then a.work else Found(run)
    ensures HandledSince(run + [a]) == if a.NextRound? then 0 else HandledSince(run) + if Handles(a) then 1 else 0
    ensures GetsSince(run + [a]) == if a.NetworkDone? then 0 else GetsSince(run) + if a.ConsumeResponse? then 1 else 0
  {
    assert (run + [a])[..|run|] == run;
  }

  lemma StepInRound(cfg: Config, run: seq<Action>, s: State, a: Action)
    requires Enabled(cfg, s, a) && InRound(run, s.server)
    ensures InRound(run + [a], Apply(cfg, s, a).server)
  {
    RoundNext(run, a);
    if !OfServer(a) {
      ManagerKeepsPc(cfg, s, a);
    } else if a.ConsumeResponse? {
      assert ConsumeOne(s, a.confirmable).server == Consuming(s.server.done + 1);
    }
  }

  lemma ManagerKeepsPc(cfg: Config, s: State, a: Action)
    requires Enabled(cfg, s, a) && !OfServer(a)
    ensures Apply(cfg, s, a).server == s.server
  {
    if a.FetchRequest? {
      FetchTouchesNoReference(s, a.memory);
    }
  }

  lemma {:induction false} RunInRound(cfg: Config, run: seq<Action>)
    requires IsRun(cfg, Initial(), run)
    ensures InRound(run, EndOf(cfg, Initial(), run).server)
  {
    if run == [] {
    } else {
      var front, last := run[..|run| - 1], run[|run| - 1];
      RunFront(cfg, Initial(), run);
      RunInRound(cfg, front);
      StepInRound(cfg, front, EndOf(cfg, Initial(), front), last);
      assert front + [last] == run;
    }
  }

  /** In a round the server handles all that the network has for it, then looks for a response exactly five
      times, and turns to the network again. */
  lemma FiveGetsToARound(cfg: Config, run: seq<Action>, a: Action)
    requires IsRun(cfg, Initial(), run) && Enabled(cfg, EndOf(cfg, Initial(), run), a)
    ensures a.NextRound? ==> GetsSince(run) == 5
    ensures a.ConsumeResponse? ==> GetsSince(run) < 5
    ensures a.NextRound? || a.NetworkDone? || a.ConsumeResponse? ==> HandledSince(run) == Found(run)
    ensures Handles(a) ==> HandledSince(run) < Found(run)
  {
    RunInRound(cfg, run);
  }
}
