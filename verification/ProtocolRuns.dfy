/** What holds in every state that the two threads can reach, under either design of the deferral
    queue and whatever waits expire. */
module ProtocolRuns {
  import opened Options
  import opened SensorModel
  import opened Ledger
  import opened Protocol
  import opened ProtocolInvariants
  import opened ProtocolLogs

  predicate Reaches(cfg: Config, run: seq<Action>, s: State) {
    IsRun(cfg, Initial(), run) && EndOf(cfg, Initial(), run) == s
  }

  ghost predicate Reachable(cfg: Config, s: State) {
    exists run :: Reaches(cfg, run, s)
  }

  lemma {:induction false} RunAppend(cfg: Config, s: State, run: seq<Action>, a: Action)
    requires IsRun(cfg, s, run) && Enabled(cfg, EndOf(cfg, s, run), a)
    ensures IsRun(cfg, s, run + [a]) && EndOf(cfg, s, run + [a]) == Apply(cfg, EndOf(cfg, s, run), a)
    decreases run
  {
    if run == [] {
      assert run + [a] == [a];
      assert EndOf(cfg, Apply(cfg, s, a), []) == Apply(cfg, s, a);
    } else {
      assert (run + [a])[1..] == run[1..] + [a] && (run + [a])[0] == run[0];
      RunAppend(cfg, Apply(cfg, s, run[0]), run[1..], a);
    }
  }

  /** The last step of a run, and what came before it. */
  lemma {:induction false} RunFront(cfg: Config, s: State, run: seq<Action>)
    requires IsRun(cfg, s, run) && run != []
    ensures var front, last := run[..|run| - 1], run[|run| - 1];
            && IsRun(cfg, s, front) && Enabled(cfg, EndOf(cfg, s, front), last)
            && EndOf(cfg, s, run) == Apply(cfg, EndOf(cfg, s, front), last)
    decreases run
  {
    var front := run[..|run| - 1];
    if |run| == 1 {
      assert front == [] && EndOf(cfg, Apply(cfg, s, run[0]), run[1..]) == Apply(cfg, s, run[0]);
    } else {
      RunFront(cfg, Apply(cfg, s, run[0]), run[1..]);
      assert front[0] == run[0] && front[1..] == run[1..][..|run[1..]| - 1];
    }
  }

  lemma {:induction false} ReachRun(cfg: Config, s: State, run: seq<Action>)
    requires Reachable(cfg, s) && IsRun(cfg, s, run)
    ensures Reachable(cfg, EndOf(cfg, s, run))
    decreases run
  {
    if run == [] {
    } else {
      ReachNext(cfg, s, run[0]);
      ReachRun(cfg, Apply(cfg, s, run[0]), run[1..]);
    }
  }

  lemma ReachNext(cfg: Config, s: State, a: Action)
    requires Reachable(cfg, s) && Enabled(cfg, s, a)
    ensures Reachable(cfg, Apply(cfg, s, a))
  {
    var run :| Reaches(cfg, run, s);
    RunAppend(cfg, Initial(), run, a);
    assert Reaches(cfg, run + [a], Apply(cfg, s, a));
  }

  lemma OthersPutNothing(cfg: Config, s: State, a: Action)
    requires Enabled(cfg, s, a) && !a.ManagerPut?
    ensures Apply(cfg, s, a).sent == s.sent
  {
    if a.FetchRequest? && NextRequest(s).Some? {
      DispatchTouches(Fetched(s), NextRequest(s).value, a.memory);
    }
  }

  /** The checkouts for the manager are what it owes and what it has given back. */
  predicate ReferenceLog(s: State) {
    Starts(s.issued + RequestInHand(s.server)) == s.owed + Stops(s.received)
  }

  lemma StepKeepsReferenceLog(cfg: Config, s: State, a: Action)
    requires ReferenceLog(s) && Invariant(s) && Enabled(cfg, s, a)
    ensures ReferenceLog(Apply(cfg, s, a))
  {
    match a
    case ObserveGet(_, _, _) => HandKeepsReferenceLog(cfg, s, a);
    case PlainGet(_, _) => HandKeepsReferenceLog(cfg, s, a);
    case OnUnregister(_) => HandKeepsReferenceLog(cfg, s, a);
    case ConsumeResponse(confirmable) => ConsumeKeepsReferenceLog(s, confirmable);
    case _ => OthersTouchNoReference(cfg, s, a);
  }

  lemma OthersTouchNoReference(cfg: Config, s: State, a: Action)
    requires Enabled(cfg, s, a)
    requires !a.ObserveGet? && !a.PlainGet? && !a.OnUnregister? && !a.ConsumeResponse?
    ensures var after := Apply(cfg, s, a);
            && after.issued + RequestInHand(after.server) == s.issued + RequestInHand(s.server)
            && after.owed == s.owed && after.received == s.received
  {
    if a.FetchRequest? {
      FetchTouchesNoReference(s, a.memory);
    } else if a.ServerPut? {
      assert s.issued + [s.server.request] + [] == s.issued + [s.server.request];
    }
  }

  lemma FetchTouchesNoReference(s: State, memory: bool)
    ensures var after := ServeNext(s, memory);
            && after.issued == s.issued && after.server == s.server && after.owed == s.owed
            && after.received == s.received
  {
    if NextRequest(s).Some? {
      DispatchTouches(Fetched(s), NextRequest(s).value, memory);
    }
  }

  lemma HandKeepsReferenceLog(cfg: Config, s: State, a: Action)
    requires ReferenceLog(s) && Enabled(cfg, s, a) && (a.ObserveGet? || a.PlainGet? || a.OnUnregister?)
    ensures ReferenceLog(Apply(cfg, s, a))
  {
    var after := Apply(cfg, s, a);
    StartsAppend(s.issued, after.server.request);
    assert s.issued + [] == s.issued;
  }

  lemma ConsumeKeepsReferenceLog(s: State, confirmable: bool)
    requires ReferenceLog(s) && Invariant(s) && s.server.Consuming?
    ensures ReferenceLog(ConsumeOne(s, confirmable))
  {
    if s.responses.items != [] {
      var r := s.responses.items[0];
      assert Outstanding(s)[0] == r;
      if r.Stopped? {
        OldestResponseIsHeld(View(s));
      }
      ReceiveBalances(s.owed, s.received, r);
    }
  }

  lemma ReceiveBalances(owed: multiset<int>, received: seq<Response>, r: Response)
    requires r.Stopped? ==> r.ticket in owed
    ensures owed + Stops(received)
         == (if r.Stopped? then owed - multiset{r.ticket} else owed) + Stops(received + [r])
  {
    StopsAppend(received, r);
  }

  lemma {:induction false} RunKeepsAll(cfg: Config, s: State, run: seq<Action>)
    requires Invariant(s) && Logged(cfg, s) && ReferenceLog(s) && IsRun(cfg, s, run)
    ensures var end := EndOf(cfg, s, run); Invariant(end) && Logged(cfg, end) && ReferenceLog(end)
    decreases run
  {
    if run == [] {
    } else {
      StepKeepsInvariant(cfg, s, run[0]);
      StepKeepsLogged(cfg, s, run[0]);
      StepKeepsReferenceLog(cfg, s, run[0]);
      RunKeepsAll(cfg, Apply(cfg, s, run[0]), run[1..]);
    }
  }

  lemma ReachableKeepsAll(cfg: Config, s: State)
    requires Reachable(cfg, s)
    ensures Invariant(s) && Logged(cfg, s) && ReferenceLog(s)
  {
    var run :| Reaches(cfg, run, s);
    InitialInvariant();
    InitialLogged(cfg);
    assert ReferenceLog(Initial());
    RunKeepsAll(cfg, Initial(), run);
  }

  // ---- references ----

  /** No use after release: when the server takes a STREAM_UPDATE or a STREAM_STOPPED out of the ring,
      the manager's reference to that registration is not released yet, and the registration is the one
      the response was made for, not a later one at the same address. */
  lemma NoUseAfterRelease(cfg: Config, s: State)
    requires Reachable(cfg, s) && s.responses.items != [] && !s.responses.items[0].Answer?
    ensures var r := s.responses.items[0];
            && r.ticket in s.owed && Alive(View(s), r.ticket)
            && r.ticket in s.lives && s.lives[r.ticket] == r.life
  {
    ReachableKeepsAll(cfg, s);
    assert Outstanding(s)[0] == s.responses.items[0];
    OldestResponseIsHeld(View(s));
  }

  ghost predicate Running(s: State, t: int) {
    exists id: SensorId :: Streams(s.sensors[id], t)
  }

  lemma LiveIsRunning(s: State, t: int)
    requires LiveMatches(s.sensors, s.live)
    ensures t in s.live <==> Running(s, t)
  {
    if t in s.live {
      assert MatchesAt(s.sensors[s.live[t].sensor], s.live[t].sensor, s.live);
    }
    forall id: SensorId | Streams(s.sensors[id], t)
      ensures t in s.live
    {
      assert MatchesAt(s.sensors[id], id, s.live);
    }
  }

  /** Every update in the ring or in the manager's hand is of a running stream, or its STREAM_STOPPED
      comes behind it. */
  lemma UpdateIsCovered(cfg: Config, s: State, i: nat)
    requires Reachable(cfg, s) && i < |Outstanding(s)| && Outstanding(s)[i].Update?
    ensures var t := Outstanding(s)[i].ticket; Running(s, t) || StopFollows(Outstanding(s), i, t)
  {
    ReachableKeepsAll(cfg, s);
    LiveIsRunning(s, Outstanding(s)[i].ticket);
  }

  /** Conservation: for each ticket, the checkouts for the manager are the releases, the STARTs not served
      yet, the STARTs lost, the stream holding the ticket if there is one, and the STREAM_STOPPEDs not
      consumed yet. */
  lemma ReferencesAreConserved(cfg: Config, s: State, t: int)
    requires Reachable(cfg, s)
    ensures Starts(s.issued + RequestInHand(s.server))[t]
         == Stops(s.received)[t] + Starts(Pending(s))[t] + Starts(s.lost)[t] + One(Running(s, t))
            + Stops(Outstanding(s))[t]
  {
    ReachableKeepsAll(cfg, s);
    LiveIsRunning(s, t);
    assert multiset(s.live.Keys)[t] == One(t in s.live);
  }

  /** A ticket has at most one stream over all sensors and within each. */
  lemma OneStreamToATicket(cfg: Config, s: State, id: SensorId, id': SensorId, k: nat, k': nat)
    requires Reachable(cfg, s) && k < |s.sensors[id].streams| && k' < |s.sensors[id'].streams|
    requires s.sensors[id].streams[k].ticket == s.sensors[id'].streams[k'].ticket
    ensures id == id' && k == k'
  {
    ReachableKeepsAll(cfg, s);
    assert Consistent(s.sensors[id]);
    var x, x' := s.sensors[id].streams[k], s.sensors[id'].streams[k'];
    assert x in s.sensors[id].streams && x' in s.sensors[id'].streams;
    assert Streams(s.sensors[id], x.ticket) && Streams(s.sensors[id'], x.ticket);
    assert MatchesAt(s.sensors[id], id, s.live) && MatchesAt(s.sensors[id'], id', s.live);
  }

  /** A STOP takes no reference, so its registration may be gone and its address reused by the time it is
      served.  It still never stops a stream of a later registration. */
  lemma StopNeverCrossesLives(cfg: Config, s: State, r: Request)
    requires Reachable(cfg, s) && s.manager.Fetching? && NextRequest(s) == Some(r) && r.Stop?
    requires !StopStream(s.sensors[r.life.sensor], r.ticket).NotFound?
    ensures r.ticket in s.live && s.live[r.ticket] == r.life
    ensures r.ticket in s.lives && s.lives[r.ticket] == r.life
  {
    ReachableKeepsAll(cfg, s);
    FetchedPending(s);
    var id := r.life.sensor;
    assert Consistent(s.sensors[id]) && MatchesAt(s.sensors[id], id, s.live);
    StopForgetsTicket(s.sensors[id], r.ticket);
    StopIsOfStreamsLife(View(s));
  }

  /** With everything served and consumed. */
  predicate Quiet(s: State) {
    Pending(s) == [] && Outstanding(s) == []
  }

  /** Once all is served and consumed, the manager holds one reference for each running stream and each
      lost START, and nothing else. */
  lemma QuietStateOwes(cfg: Config, s: State)
    requires Reachable(cfg, s) && Quiet(s)
    ensures forall t :: s.owed[t] == Starts(s.lost)[t] + One(Running(s, t))
    ensures s.owed == multiset{} <==> (forall r <- s.lost :: !r.Start?) && forall t :: !Running(s, t)
  {
    ReachableKeepsAll(cfg, s);
    forall t
      ensures t in s.live <==> Running(s, t)
      ensures s.owed[t] == Starts(s.lost)[t] + One(Running(s, t))
    {
      LiveIsRunning(s, t);
    }
    QuiescentDebt(View(s));
    if forall t :: !Running(s, t) {
      assert forall t :: t !in s.live;
      assert s.live == map[];
    }
  }

  // ---- requests ----

  /** The manager serves the requests of the server in the order of their puts, none lost and none twice,
      whatever waits expire, as long as none was lost; on the shared deferral queue none ever is. */
  lemma RequestsKeepOrder(cfg: Config, s: State)
    requires Reachable(cfg, s)
    ensures cfg.design.Shared? ==> s.lost == []
    ensures s.issued == s.served + Queue(s) <==> s.lost == []
    ensures multiset(s.issued) == multiset(s.served) + multiset(s.lost) + multiset(Queue(s))
  {
    ReachableKeepsAll(cfg, s);
    if s.issued == s.served + Queue(s) {
      assert |multiset(s.issued)| == |s.issued|;
      assert |multiset(s.served) + multiset(s.lost) + multiset(Queue(s))| == |s.served| + |s.lost| + |Queue(s)|;
    }
  }

  /** Responses are consumed in the order in which the manager put them. */
  lemma ResponsesKeepOrder(cfg: Config, s: State)
    requires Reachable(cfg, s)
    ensures s.sent == s.received + s.responses.items
  {
    ReachableKeepsAll(cfg, s);
  }

  // ---- one-shots and sensors ----

  /** Each served one-shot has one answer in or through the ring, or waits for one on its sensor or in
      the manager's hand. */
  lemma OneshotsAreAnsweredOnce(cfg: Config, s: State, t: int)
    requires Reachable(cfg, s)
    ensures Asked(s.served, t) == Answered(s.sent, t) + WaitingOn(s.sensors, t) + CachedInHand(s.manager, t)
  {
    ReachableKeepsAll(cfg, s);
    assert OneshotLog(s, t);
  }

  /** The sensor whose sample is being answered to one-shots or delivered to streams. */
  function SampleOf(pc: ManagerPc): Option<SensorId> {
    if pc.Delivering? then Some(pc.sensor)
    else if (pc.Putting? || pc.Deferring?) && pc.after.AfterOneshot? then Some(pc.after.sensor)
    else if (pc.Putting? || pc.Deferring?) && pc.after.AfterStream? then Some(pc.after.sensor)
    else None
  }

  /** The first sample of a sensor to reach the delivery branch answers all its one-shots: while any is
      pending, the answer in hand is that of the oldest, and no stream is offered the sample. */
  lemma OneshotsComeFirst(cfg: Config, s: State, id: SensorId)
    requires Reachable(cfg, s) && SampleOf(s.manager) == Some(id)
    ensures if s.sensors[id].oneshots == [] then s.manager.Delivering? || s.manager.after.AfterStream?
            else !s.manager.Delivering? && s.manager.after.AfterOneshot?
                 && s.manager.response == Answer(s.sensors[id].oneshots[0])
  {
    ReachableKeepsAll(cfg, s);
  }

  /** In every reachable state a sensor is on exactly when it has a stream or a pending one-shot, and its
      frequency field is zero without streams and never below what a stream asked for. */
  lemma ActivationMatchesDemand(cfg: Config, s: State, id: SensorId)
    requires Reachable(cfg, s)
    ensures Consistent(s.sensors[id])
  {
    ReachableKeepsAll(cfg, s);
  }

  lemma OthersTouchNoStream(cfg: Config, s: State, a: Action, id: SensorId)
    requires Enabled(cfg, s, a) && !a.FetchRequest?
    ensures var after := Apply(cfg, s, a).sensors[id];
            after.streams == s.sensors[id].streams && after.freq == s.sensors[id].freq
  {
  }

  /** Serving a request ends in the read of a missing stream exactly when it is a STOP of the only stream
      of a sensor on which one-shots wait. */
  lemma FaultIff(cfg: Config, s: State, memory: bool)
    requires Reachable(cfg, s) && s.manager.Fetching?
    ensures ServeNext(s, memory).manager.Faulted? <==>
            && NextRequest(s).Some? && NextRequest(s).value.Stop?
            && var r := NextRequest(s).value;
               var x := s.sensors[r.life.sensor];
               |x.streams| == 1 && x.streams[0].ticket == r.ticket && x.oneshots != []
  {
    if NextRequest(s).Some? && NextRequest(s).value.Stop? {
      var r := NextRequest(s).value;
      StopFaultsIff(s.sensors[r.life.sensor], r.ticket);
    }
  }
}
