/** Which registration an address stands for: an address is reused only when every reference to the
    registration that had it has been given back, and then nothing names the new registration yet. */
module ProtocolLives {
  import opened Events
  import opened Options
  import opened RingModel
  import opened SensorModel
  import opened Ledger
  import opened Protocol
  import opened ProtocolHandlers
  import opened ProtocolInvariants
  import opened ProtocolLogs
  import opened ProtocolOutcomes
  import opened ProtocolRuns

  // ---- references counted ----

  predicate TakesUpdate(s: State, a: Action, t: int) {
    a.ConsumeResponse? && s.responses.items != [] && s.responses.items[0].Update? && s.responses.items[0].ticket == t
  }

  predicate TakesStopped(s: State, a: Action, t: int) {
    a.ConsumeResponse? && s.responses.items != [] && s.responses.items[0].Stopped? && s.responses.items[0].ticket == t
  }

  /** A GET with observe checks the registration out for the manager, a confirmable notification for its
      transaction. */
  function CheckedOutBy(s: State, a: Action, t: int): nat {
    One(a.ObserveGet? && a.ticket == t) + One(TakesUpdate(s, a, t) && a.confirmable)
  }

  function ReleasedBy(s: State, a: Action, t: int): nat {
    One(a.Settled? && a.ticket == t) + One(TakesStopped(s, a, t))
  }

  function Checkouts(cfg: Config, s: State, run: seq<Action>, t: int): nat
    requires IsRun(cfg, s, run)
    decreases run
  {
    if run == [] then 0 else CheckedOutBy(s, run[0], t) + Checkouts(cfg, Apply(cfg, s, run[0]), run[1..], t)
  }

  function Releases(cfg: Config, s: State, run: seq<Action>, t: int): nat
    requires IsRun(cfg, s, run)
    decreases run
  {
    if run == [] then 0 else ReleasedBy(s, run[0], t) + Releases(cfg, Apply(cfg, s, run[0]), run[1..], t)
  }

  function Held(s: State, t: int): nat {
    s.owed[t] + s.inflight[t]
  }

  lemma OthersHoldAsMany(cfg: Config, s: State, a: Action)
    requires Enabled(cfg, s, a) && !a.ObserveGet? && !a.Settled? && !a.ConsumeResponse?
    ensures Apply(cfg, s, a).owed == s.owed && Apply(cfg, s, a).inflight == s.inflight
  {
    if a.FetchRequest? && NextRequest(s).Some? {
      DispatchTouches(Fetched(s), NextRequest(s).value, a.memory);
    }
  }

  /** What is released was held. */
  lemma StoppedIsOwed(s: State, a: Action, t: int)
    requires Invariant(s) && TakesStopped(s, a, t)
    ensures t in s.owed
  {
    assert Outstanding(s)[0] == s.responses.items[0];
    OldestResponseIsHeld(View(s));
  }

  lemma HeldByConsume(s: State, confirmable: bool, t: int)
    requires s.server.Consuming? && (TakesStopped(s, ConsumeResponse(confirmable), t) ==> t in s.owed)
    ensures var a, after := ConsumeResponse(confirmable), ConsumeOne(s, confirmable);
            Held(after, t) + ReleasedBy(s, a, t) == Held(s, t) + CheckedOutBy(s, a, t)
  {
  }

  lemma HeldByServer(cfg: Config, s: State, a: Action, t: int)
    requires Enabled(cfg, s, a) && (a.ObserveGet? || a.Settled?)
    ensures Held(Apply(cfg, s, a), t) + ReleasedBy(s, a, t) == Held(s, t) + CheckedOutBy(s, a, t)
  {
  }

  lemma HeldByStep(cfg: Config, s: State, a: Action, t: int)
    requires Invariant(s) && Enabled(cfg, s, a)
    ensures Held(Apply(cfg, s, a), t) + ReleasedBy(s, a, t) == Held(s, t) + CheckedOutBy(s, a, t)
  {
    if a.ConsumeResponse? {
      if TakesStopped(s, a, t) {
        StoppedIsOwed(s, a, t);
      }
      HeldByConsume(s, a.confirmable, t);
    } else if a.ObserveGet? || a.Settled? {
      HeldByServer(cfg, s, a, t);
    } else {
      OthersHoldAsMany(cfg, s, a);
    }
  }

  lemma {:induction false} HeldByRun(cfg: Config, s: State, run: seq<Action>, t: int)
    requires Reachable(cfg, s) && IsRun(cfg, s, run)
    ensures Held(EndOf(cfg, s, run), t) + Releases(cfg, s, run, t) == Held(s, t) + Checkouts(cfg, s, run, t)
    decreases run
  {
    if run == [] {
    } else {
      ReachableKeepsAll(cfg, s);
      ReachNext(cfg, s, run[0]);
      HeldByStep(cfg, s, run[0], t);
      HeldByRun(cfg, Apply(cfg, s, run[0]), run[1..], t);
    }
  }

  /** A registration's reference count is its checkouts for the manager and for confirmable notifications less
      its releases, and it exists exactly while fewer were released than checked out. */
  lemma ReferencesAreCounted(cfg: Config, run: seq<Action>, t: int)
    requires IsRun(cfg, Initial(), run)
    ensures var s := EndOf(cfg, Initial(), run);
            && Held(s, t) + Releases(cfg, Initial(), run, t) == Checkouts(cfg, Initial(), run, t)
            && (Alive(View(s), t) <==> Releases(cfg, Initial(), run, t) < Checkouts(cfg, Initial(), run, t))
  {
    assert Reaches(cfg, [], Initial());
    HeldByRun(cfg, Initial(), run, t);
  }

  // ---- an address is reused only when nothing holds it ----

  /** The GET finds no registration and makes one. */
  predicate MakesNew(s: State, a: Action, t: int) {
    a.ObserveGet? && a.ticket == t && !Alive(View(s), t)
  }

  predicate NeverNew(cfg: Config, s: State, run: seq<Action>, t: int)
    requires IsRun(cfg, s, run)
    decreases run
  {
    run == [] || (!MakesNew(s, run[0], t) && NeverNew(cfg, Apply(cfg, s, run[0]), run[1..], t))
  }

  /** The registration is the same, or a later one. */
  predicate NotEarlier(before: Option<Life>, after: Option<Life>) {
    before == after || (after.Some? && (before.Some? ==> before.value.number < after.value.number))
  }

  lemma LifeByStep(cfg: Config, s: State, a: Action, t: int)
    requires Invariant(s) && Enabled(cfg, s, a)
    ensures var before, after := LiveOf(s.lives, t), LiveOf(Apply(cfg, s, a).lives, t);
            NotEarlier(before, after) && (before == after <==> !MakesNew(s, a, t))
  {
    if !a.ObserveGet? && !a.PlainGet? && !a.OnUnregister? {
      OthersMakeNothing(cfg, s, a);
    }
  }

  /** A ticket stands for the same registration throughout exactly if no GET made a new one, which one does only
      after every reference to the old one was given back. */
  lemma {:induction false} LifeLastsIff(cfg: Config, s: State, run: seq<Action>, t: int)
    requires Reachable(cfg, s) && IsRun(cfg, s, run)
    ensures NotEarlier(LiveOf(s.lives, t), LiveOf(EndOf(cfg, s, run).lives, t))
    ensures LiveOf(EndOf(cfg, s, run).lives, t) == LiveOf(s.lives, t) <==> NeverNew(cfg, s, run, t)
    decreases run
  {
    if run == [] {
    } else {
      ReachableKeepsAll(cfg, s);
      ReachNext(cfg, s, run[0]);
      LifeByStep(cfg, s, run[0], t);
      LifeLastsIff(cfg, Apply(cfg, s, run[0]), run[1..], t);
    }
  }

  // ---- what names a registration ----

  predicate RequestNames(r: Request, t: int, life: Life) {
    !r.Oneshot? && r.ticket == t && r.life == life
  }

  predicate ResponseNames(r: Response, t: int, life: Life) {
    !r.Answer? && r.ticket == t && r.life == life
  }

  predicate AnyRequestNames(requests: seq<Request>, t: int, life: Life) {
    exists r <- requests :: RequestNames(r, t, life)
  }

  predicate AnyResponseNames(responses: seq<Response>, t: int, life: Life) {
    exists r <- responses :: ResponseNames(r, t, life)
  }

  /** The responses that the manager has put or is putting. */
  function Replies(s: State): seq<Response> {
    s.sent + ResponseInHand(s.manager)
  }

  /** A request made or lost, a response put, under way or in hand, or a running stream is for that registration
      at the address. */
  predicate Named(s: State, t: int, life: Life) {
    || AnyRequestNames(Made(s) + s.lost + Pending(s), t, life)
    || AnyResponseNames(Replies(s) + Outstanding(s), t, life)
    || LiveOf(s.live, t) == Some(life)
  }

  /** The same without what is there twice. */
  predicate NamedOnce(s: State, t: int, life: Life) {
    AnyRequestNames(Made(s), t, life) || AnyResponseNames(Replies(s), t, life) || LiveOf(s.live, t) == Some(life)
  }

  lemma PendingWasMade(s: State, r: Request)
    requires RequestLog(s) && (r in Pending(s) || r in s.lost)
    ensures r in Made(s)
  {
    if r in s.lost || r in Queue(s) {
      assert r in multiset(s.lost) || r in multiset(Queue(s));
      assert r in multiset(s.issued);
    }
  }

  lemma NamedIsOnce(s: State, t: int, life: Life)
    requires RequestLog(s) && ResponseLog(s) && Named(s, t, life)
    ensures NamedOnce(s, t, life)
  {
    if AnyRequestNames(Made(s) + s.lost + Pending(s), t, life) {
      var r :| r in Made(s) + s.lost + Pending(s) && RequestNames(r, t, life);
      if r !in Made(s) {
        PendingWasMade(s, r);
      }
    } else if AnyResponseNames(Replies(s) + Outstanding(s), t, life) {
      var r :| r in Replies(s) + Outstanding(s) && ResponseNames(r, t, life);
      assert r in Replies(s);
    }
  }

  // ---- what a step newly names ----

  lemma HandlerNames(cfg: Config, s: State, a: Action, t: int, life: Life)
    requires Enabled(cfg, s, a) && (a.ObserveGet? || a.PlainGet? || a.OnUnregister?)
    requires NamedOnce(Apply(cfg, s, a), t, life)
    ensures NamedOnce(s, t, life) || LiveOf(Apply(cfg, s, a).lives, t) == Some(life)
  {
    var after := Apply(cfg, s, a);
    assert Made(after) == s.issued + [after.server.request] && Made(s) == s.issued;
  }

  /** The manager names in its hand only what a request or a stream named before. */
  predicate NamesNothingNew(s: State, after: State, t: int, life: Life) {
    NamedOnce(after, t, life) ==> NamedOnce(s, t, life)
  }

  lemma FetchNames(s: State, memory: bool, t: int, life: Life)
    requires Invariant(s) && RequestLog(s) && s.manager.Fetching?
    ensures NamesNothingNew(s, ServeNext(s, memory), t, life)
  {
    FetchTouchesNoReference(s, memory);
    if NextRequest(s).Some? {
      var r := NextRequest(s).value;
      HeadOfPendingIsOfLife(s, r);
      PendingWasMade(s, r);
      DispatchTouches(Fetched(s), r, memory);
      DispatchNames(Fetched(s), r, memory, t, life);
    }
  }

  lemma DispatchNames(f: State, r: Request, memory: bool, t: int, life: Life)
    requires LiveMatches(f.sensors, f.live) && AllConsistent(f.sensors)
    requires r.Oneshot? || (r.ticket in f.live ==> f.live[r.ticket] == r.life)
    ensures var after := Dispatch(f, r, memory);
            && (LiveOf(after.live, t) == Some(life) ==> LiveOf(f.live, t) == Some(life) || RequestNames(r, t, life))
            && (AnyResponseNames(ResponseInHand(after.manager), t, life) ==> RequestNames(r, t, life))
  {
    if r.Stop? {
      LiveAfterStop(f.sensors, f.live, r.ticket, r.life);
    }
  }

  lemma TurnNames(s: State, packet: seq<Sample>, t: int, life: Life)
    requires Invariant(s) && s.manager.Delivering?
    ensures NamesNothingNew(s, OfferToStream(s, packet), t, life)
  {
    var pc := s.manager;
    var x := s.sensors[pc.sensor];
    if pc.k < |x.streams| {
      assert x.streams[pc.k] in x.streams;
      assert Streams(x, x.streams[pc.k].ticket) && MatchesAt(x, pc.sensor, s.live);
    }
  }

  lemma PutNames(s: State, t: int, life: Life)
    requires s.manager.Putting? && s.responses.wait != Waiting
    ensures NamesNothingNew(s, PutResponse(s), t, life)
  {
    var after := PutResponse(s);
    assert after.live == s.live && Made(after) == Made(s);
    assert forall r <- Replies(after) :: r in Replies(s) || r.Answer?;
  }

  lemma OthersNameNothing(cfg: Config, s: State, a: Action, t: int, life: Life)
    requires Enabled(cfg, s, a) && !a.ObserveGet? && !a.PlainGet? && !a.OnUnregister?
    requires !a.FetchRequest? && !a.StreamTurn? && !a.ManagerPut?
    ensures NamesNothingNew(s, Apply(cfg, s, a), t, life)
  {
    var after := Apply(cfg, s, a);
    OthersMakeNothing(cfg, s, a);
    OthersTouchNoLive(cfg, s, a);
    OthersPutNothing(cfg, s, a);
    assert forall r <- ResponseInHand(after.manager) :: r in ResponseInHand(s.manager) || r.Answer?;
  }

  lemma StepNames(cfg: Config, s: State, a: Action, t: int, life: Life)
    requires Invariant(s) && RequestLog(s) && Enabled(cfg, s, a) && NamedOnce(Apply(cfg, s, a), t, life)
    ensures NamedOnce(s, t, life) || LiveOf(Apply(cfg, s, a).lives, t) == Some(life)
  {
    match a
    case ObserveGet(_, _, _) => HandlerNames(cfg, s, a, t, life);
    case PlainGet(_, _) => HandlerNames(cfg, s, a, t, life);
    case OnUnregister(_) => HandlerNames(cfg, s, a, t, life);
    case FetchRequest(memory) => FetchNames(s, memory, t, life);
    case StreamTurn(packet) => TurnNames(s, packet, t, life);
    case ManagerPut => PutNames(s, t, life);
    case _ => OthersNameNothing(cfg, s, a, t, life);
  }

  // ---- every registration at an address is another one ----

  /** The registration is the one that has the address, or had it before. */
  predicate HadAddress(life: Life, latest: Option<Life>) {
    && latest.Some? && life.number <= latest.value.number
    && (life.number == latest.value.number ==> life == latest.value)
  }

  /** All registrations named at the address had it, and their numbers tell them apart. */
  ghost predicate ToldApart(s: State, t: int) {
    && (forall life :: NamedOnce(s, t, life) ==> HadAddress(life, LiveOf(s.lives, t)))
    && (forall life, life' :: NamedOnce(s, t, life) && NamedOnce(s, t, life') && life.number == life'.number
                              ==> life == life')
  }

  lemma StepTellsApart(cfg: Config, s: State, a: Action, t: int)
    requires Invariant(s) && RequestLog(s) && Enabled(cfg, s, a) && ToldApart(s, t)
    ensures ToldApart(Apply(cfg, s, a), t)
  {
    var after := Apply(cfg, s, a);
    LifeByStep(cfg, s, a, t);
    forall life | NamedOnce(after, t, life)
      ensures NamedOnce(s, t, life) || LiveOf(after.lives, t) == Some(life)
      ensures HadAddress(life, LiveOf(after.lives, t))
    {
      StepNames(cfg, s, a, t, life);
    }
  }

  lemma {:induction false} RunTellsApart(cfg: Config, s: State, run: seq<Action>, t: int)
    requires Reachable(cfg, s) && IsRun(cfg, s, run) && ToldApart(s, t)
    ensures ToldApart(EndOf(cfg, s, run), t)
    decreases run
  {
    if run == [] {
    } else {
      ReachableKeepsAll(cfg, s);
      ReachNext(cfg, s, run[0]);
      StepTellsApart(cfg, s, run[0], t);
      RunTellsApart(cfg, Apply(cfg, s, run[0]), run[1..], t);
    }
  }

  lemma ReachableToldApart(cfg: Config, s: State, t: int)
    requires Reachable(cfg, s)
    ensures ToldApart(s, t)
  {
    var run :| Reaches(cfg, run, s);
    assert Reaches(cfg, [], Initial());
    RunTellsApart(cfg, Initial(), run, t);
  }

  /** Whatever names a registration at an address, in the request and response logs, under way, in hand, lost or
      streaming, names the one that has the address or one that had it before; and two of the same number are the
      same. */
  lemma LivesAreOrdered(cfg: Config, s: State, t: int, life: Life, life': Life)
    requires Reachable(cfg, s) && Named(s, t, life) && Named(s, t, life')
    ensures t in s.lives && life.number <= s.lives[t].number
    ensures life.number == s.lives[t].number ==> life == s.lives[t]
    ensures life.number == life'.number ==> life == life'
  {
    ReachableKeepsAll(cfg, s);
    ReachableToldApart(cfg, s, t);
    NamedIsOnce(s, t, life);
    NamedIsOnce(s, t, life');
  }

  /** A GET with observe that comes when nothing holds the address makes a registration later than all that
      anything in the program names there; one that comes while something does finds that registration. */
  lemma NewRegistrationIsLater(cfg: Config, s: State, t: int, sensor: SensorId, freq: int)
    requires Reachable(cfg, s) && Enabled(cfg, s, ObserveGet(t, sensor, freq))
    ensures var after := Apply(cfg, s, ObserveGet(t, sensor, freq));
            && t in after.lives && after.lives[t].sensor == sensor
            && after.server.Handing? && after.server.request == Request.Start(t, after.lives[t], freq)
            && if Alive(View(s), t) then after.lives == s.lives
               else forall life :: Named(s, t, life) ==> life.number < after.lives[t].number
  {
    ReachableKeepsAll(cfg, s);
    ReachableToldApart(cfg, s, t);
    forall life | Named(s, t, life)
      ensures HadAddress(life, LiveOf(s.lives, t))
    {
      NamedIsOnce(s, t, life);
    }
    RegisteredIs(View(s), t, sensor);
  }

  lemma RegisteredIs(l: Ledger, t: int, sensor: SensorId)
    requires Sound(l)
    ensures var life := Registered(l, t, sensor);
            if Alive(l, t) then t in l.lives && life == l.lives[t] && l.lives[t := life] == l.lives
            else life.sensor == sensor && (t in l.lives ==> l.lives[t].number < life.number)
  {
  }
}
