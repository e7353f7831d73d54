/** What a run achieves for the clients: which streams run, and who is answered in which order. */
module ProtocolOutcomes {
  import opened Options
  import opened RingModel
  import opened SensorModel
  import opened Ledger
  import opened Protocol
  import opened ProtocolConditions
  import opened ProtocolHandlers
  import opened ProtocolInvariants
  import opened ProtocolRuns

  // ---- streams ----

  /** A request as it was served, with what sm_new_stream answered. */
  datatype Service = Service(request: Request, memory: bool)

  function ServiceOf(s: State, a: Action): seq<Service> {
    if a.FetchRequest? && NextRequest(s).Some? then [Service(NextRequest(s).value, a.memory)] else []
  }

  function Services(cfg: Config, s: State, run: seq<Action>): seq<Service>
    requires IsRun(cfg, s, run)
    decreases run
  {
    if run == [] then [] else ServiceOf(s, run[0]) + Services(cfg, Apply(cfg, s, run[0]), run[1..])
  }

  function Requests(services: seq<Service>): seq<Request> {
    seq(|services|, i requires 0 <= i < |services| => services[i].request)
  }

  /** The registration whose stream the last word of the requests on a ticket asks for: that of the last
      START that found memory, unless a STOP came later; and `before` if no word was said. */
  function Wanted(before: Option<Life>, services: seq<Service>, t: int): Option<Life> {
    if services == [] then before
    else
      var last, earlier := services[|services| - 1], services[..|services| - 1];
      if last.request.Start? && last.memory && last.request.ticket == t then Some(last.request.life)
      else if last.request.Stop? && last.request.ticket == t then None
      else Wanted(before, earlier, t)
  }

  lemma {:induction false} WantedInTwo(before: Option<Life>, first: seq<Service>, rest: seq<Service>, t: int)
    ensures Wanted(before, first + rest, t) == Wanted(Wanted(before, first, t), rest, t)
    decreases rest
  {
    if rest == [] {
      assert first + rest == first;
    } else {
      var last := |rest| - 1;
      assert (first + rest)[..|first + rest| - 1] == first + rest[..last];
      WantedInTwo(before, first, rest[..last], t);
    }
  }

  function LiveOf(live: map<int, Life>, t: int): Option<Life> {
    if t in live then Some(live[t]) else None
  }

  lemma OthersTouchNoLive(cfg: Config, s: State, a: Action)
    requires Enabled(cfg, s, a) && !a.FetchRequest?
    ensures Apply(cfg, s, a).live == s.live && Apply(cfg, s, a).served == s.served
  {
  }

  lemma LiveByDispatch(f: State, r: Request, memory: bool, t: int)
    requires LiveMatches(f.sensors, f.live) && AllConsistent(f.sensors) && (r.Start? ==> r.freq > 0)
    requires r.Oneshot? || (r.ticket in f.live ==> f.live[r.ticket] == r.life)
    requires !Dispatch(f, r, memory).manager.Faulted?
    ensures LiveOf(Dispatch(f, r, memory).live, t) == Wanted(LiveOf(f.live, t), [Service(r, memory)], t)
  {
    var service := Service(r, memory);
    assert [service][..0] == [] && Wanted(LiveOf(f.live, t), [], t) == LiveOf(f.live, t);
    match r
    case Start(_, _, _) => StartOnTable(f, r, memory);
    case Stop(_, _) => StopOnTable(f, r, memory);
    case Oneshot(_, _) => OneshotOnTable(f, r, memory);
  }

  lemma LiveByFetch(s: State, memory: bool, t: int)
    requires Invariant(s) && s.manager.Fetching? && !ServeNext(s, memory).manager.Faulted?
    ensures LiveOf(ServeNext(s, memory).live, t) == Wanted(LiveOf(s.live, t), ServiceOf(s, FetchRequest(memory)), t)
  {
    if NextRequest(s).Some? {
      HeadOfPendingIsOfLife(s, NextRequest(s).value);
      LiveByDispatch(Fetched(s), NextRequest(s).value, memory, t);
    }
  }

  lemma LiveByStep(cfg: Config, s: State, a: Action, t: int)
    requires Invariant(s) && Enabled(cfg, s, a) && !Apply(cfg, s, a).manager.Faulted?
    ensures LiveOf(Apply(cfg, s, a).live, t) == Wanted(LiveOf(s.live, t), ServiceOf(s, a), t)
  {
    if a.FetchRequest? {
      LiveByFetch(s, a.memory, t);
    } else {
      OthersTouchNoLive(cfg, s, a);
    }
  }

  lemma {:induction false} FaultStays(cfg: Config, s: State, run: seq<Action>)
    requires IsRun(cfg, s, run) && s.manager.Faulted?
    ensures EndOf(cfg, s, run).manager.Faulted?
    decreases run
  {
    if run == [] {
    } else {
      ServerLeavesManager(cfg, s, run[0]);
      FaultStays(cfg, Apply(cfg, s, run[0]), run[1..]);
    }
  }

  lemma ServerLeavesManager(cfg: Config, s: State, a: Action)
    requires Enabled(cfg, s, a) && OfServer(a)
    ensures Apply(cfg, s, a).manager == s.manager
  {
  }

  lemma {:induction false} LiveByRun(cfg: Config, s: State, run: seq<Action>, t: int)
    requires Reachable(cfg, s) && IsRun(cfg, s, run) && !EndOf(cfg, s, run).manager.Faulted?
    ensures LiveOf(EndOf(cfg, s, run).live, t) == Wanted(LiveOf(s.live, t), Services(cfg, s, run), t)
    decreases run
  {
    if run == [] {
    } else {
      var next := Apply(cfg, s, run[0]);
      if next.manager.Faulted? {
        FaultStays(cfg, next, run[1..]);
      }
      ReachableKeepsAll(cfg, s);
      ReachNext(cfg, s, run[0]);
      LiveByStep(cfg, s, run[0], t);
      LiveByRun(cfg, next, run[1..], t);
      WantedInTwo(LiveOf(s.live, t), ServiceOf(s, run[0]), Services(cfg, next, run[1..]), t);
    }
  }

  /** A ticket's stream runs exactly if the last word of the served requests on it is a START that found
      memory, and then on the sensor, and for the life, of that START's registration. */
  lemma StreamsAreWanted(cfg: Config, run: seq<Action>, t: int)
    requires IsRun(cfg, Initial(), run) && !EndOf(cfg, Initial(), run).manager.Faulted?
    ensures var s, wanted := EndOf(cfg, Initial(), run), Wanted(None, Services(cfg, Initial(), run), t);
            && (Running(s, t) <==> wanted.Some?)
            && (wanted.Some? ==> Streams(s.sensors[wanted.value.sensor], t) && LiveOf(s.live, t) == wanted)
  {
    var s := EndOf(cfg, Initial(), run);
    assert Reaches(cfg, [], Initial()) && Reaches(cfg, run, s);
    LiveByRun(cfg, Initial(), run, t);
    ReachableKeepsAll(cfg, s);
    LiveIsRunning(s, t);
    if t in s.live {
      assert MatchesAt(s.sensors[s.live[t].sensor], s.live[t].sensor, s.live);
    }
  }

  lemma ServedByStep(cfg: Config, s: State, a: Action)
    requires Enabled(cfg, s, a)
    ensures Apply(cfg, s, a).served == s.served + Requests(ServiceOf(s, a))
  {
    assert Requests([]) == [] && s.served + [] == s.served;
    if a.FetchRequest? {
      if NextRequest(s).Some? {
        var r, f := NextRequest(s).value, Fetched(s);
        DispatchTouches(f, r, a.memory);
        assert Requests(ServiceOf(s, a)) == [r];
      }
    } else {
      OthersTouchNoLive(cfg, s, a);
    }
  }

  lemma RequestsAppend(served: seq<Request>, first: seq<Service>, rest: seq<Service>)
    ensures (served + Requests(first)) + Requests(rest) == served + Requests(first + rest)
  {
    assert Requests(first + rest) == Requests(first) + Requests(rest);
  }

  lemma {:induction false} ServedByRun(cfg: Config, s: State, run: seq<Action>)
    requires IsRun(cfg, s, run)
    ensures EndOf(cfg, s, run).served == s.served + Requests(Services(cfg, s, run))
    decreases run
  {
    if run == [] {
      assert s.served + Requests([]) == s.served;
    } else {
      var next := Apply(cfg, s, run[0]);
      var first, rest := ServiceOf(s, run[0]), Services(cfg, next, run[1..]);
      ServedByStep(cfg, s, run[0]);
      ServedByRun(cfg, next, run[1..]);
      RequestsAppend(s.served, first, rest);
    }
  }

  /** Once the manager has caught up, what it served is what the handlers were called for exactly if no request
      was lost, and then the streams that run are those that the server's last word on each ticket asks for. */
  lemma RequestsAreCarriedOut(cfg: Config, run: seq<Action>, t: int)
    requires IsRun(cfg, Initial(), run)
    requires var s := EndOf(cfg, Initial(), run); !s.manager.Faulted? && Queue(s) == []
    ensures Requests(Services(cfg, Initial(), run)) == EndOf(cfg, Initial(), run).issued
       <==> NeverLoses(cfg, Initial(), run)
    ensures var served, s := Requests(Services(cfg, Initial(), run)), EndOf(cfg, Initial(), run);
            PutsOf(served + RequestInHand(s.server)) == PutsFor(run) <==> NeverLoses(cfg, Initial(), run)
    ensures Running(EndOf(cfg, Initial(), run), t) <==> Wanted(None, Services(cfg, Initial(), run), t).Some?
  {
    var s := EndOf(cfg, Initial(), run);
    OrderIffNeverLoses(cfg, run);
    ServedByRun(cfg, Initial(), run);
    assert s.served + Queue(s) == s.served && s.served == Requests(Services(cfg, Initial(), run));
    ServedAsCalledIff(cfg, run);
    StreamsAreWanted(cfg, run, t);
  }

  lemma ServedAsCalledIff(cfg: Config, run: seq<Action>)
    requires IsRun(cfg, Initial(), run) && Queue(EndOf(cfg, Initial(), run)) == []
    ensures var s := EndOf(cfg, Initial(), run);
            PutsOf(s.served + RequestInHand(s.server)) == PutsFor(run) <==> s.served == s.issued
  {
    var s := EndOf(cfg, Initial(), run);
    assert Reaches(cfg, run, s);
    RequestsKeepOrder(cfg, s);
    HandlersPut(cfg, run);
    assert PutsOf(s.served + RequestInHand(s.server)) == PutsOf(s.served) + PutsOf(RequestInHand(s.server));
    if PutsOf(s.served + RequestInHand(s.server)) == PutsFor(run) {
      assert |s.served| == |s.issued|;
      assert |multiset(s.issued)| == |s.issued|;
      assert |multiset(s.served) + multiset(s.lost) + multiset(Queue(s))| == |s.served| + |s.lost|;
      assert s.served + Queue(s) == s.served;
    }
  }

  // ---- one-shots ----

  /** The one-shots that a step registers on a sensor. */
  function RegisteredBy(s: State, a: Action, id: SensorId): seq<int> {
    if a.FetchRequest? && NextRequest(s).Some? && NextRequest(s).value.Oneshot? && NextRequest(s).value.sensor == id
       && !s.sensors[id].cacheValid
    then [NextRequest(s).value.ticket] else []
  }

  predicate PutGoesIn(s: State, a: Action) {
    && a.ManagerPut? && s.manager.Putting?
    && (s.responses.wait == Signalled || (s.responses.wait == Ready && |s.responses.items| < SLOTS))
  }

  /** The answers to one-shots of a sensor that a step puts into the ring. */
  function AnsweredBy(s: State, a: Action, id: SensorId): seq<int> {
    if PutGoesIn(s, a) && s.manager.after.AfterOneshot? && s.manager.after.sensor == id
    then [s.manager.response.ticket] else []
  }

  function RegisteredOn(cfg: Config, s: State, run: seq<Action>, id: SensorId): seq<int>
    requires IsRun(cfg, s, run)
    decreases run
  {
    if run == [] then [] else RegisteredBy(s, run[0], id) + RegisteredOn(cfg, Apply(cfg, s, run[0]), run[1..], id)
  }

  function AnsweredFor(cfg: Config, s: State, run: seq<Action>, id: SensorId): seq<int>
    requires IsRun(cfg, s, run)
    decreases run
  {
    if run == [] then [] else AnsweredBy(s, run[0], id) + AnsweredFor(cfg, Apply(cfg, s, run[0]), run[1..], id)
  }

  predicate OneshotsMove(before: seq<int>, registered: seq<int>, answered: seq<int>, after: seq<int>) {
    before + registered == answered + after
  }

  lemma OneshotsByFetch(s: State, memory: bool, id: SensorId)
    requires s.manager.Fetching?
    ensures ServeNext(s, memory).sensors[id].oneshots
         == s.sensors[id].oneshots + RegisteredBy(s, FetchRequest(memory), id)
  {
    assert s.sensors[id].oneshots + [] == s.sensors[id].oneshots;
    if NextRequest(s).Some? {
      OneshotsByDispatch(Fetched(s), NextRequest(s).value, memory, id);
    }
  }

  lemma OneshotsByDispatch(f: State, r: Request, memory: bool, id: SensorId)
    ensures var waits := r.Oneshot? && r.sensor == id && !f.sensors[id].cacheValid;
            Dispatch(f, r, memory).sensors[id].oneshots == f.sensors[id].oneshots + if waits then [r.ticket] else []
  {
    assert f.sensors[id].oneshots + [] == f.sensors[id].oneshots;
  }

  lemma OneshotsByContinue(s: State, after: After, id: SensorId)
    requires after.AfterOneshot? ==> s.sensors[after.sensor].oneshots != []
    ensures var oneshots, rest := s.sensors[id].oneshots, Continue(s, after).sensors[id].oneshots;
            if after.AfterOneshot? && after.sensor == id then oneshots == [oneshots[0]] + rest else rest == oneshots
  {
    var oneshots := s.sensors[id].oneshots;
    if after.AfterOneshot? && after.sensor == id {
      assert oneshots == [oneshots[0]] + oneshots[1..];
    }
  }

  /** A put that goes in goes on with the same sensors; any other leaves them. */
  lemma PutContinues(s: State) returns (inserted: State)
    requires s.manager.Putting? && s.responses.wait != Waiting
    ensures inserted.sensors == s.sensors
    ensures PutResponse(s).sensors
         == if PutGoesIn(s, ManagerPut) then Continue(inserted, s.manager.after).sensors else s.sensors
  {
    var ring := if s.responses.wait == Ready then EnterPut(s.responses, s.manager.response)
                else LeavePut(s.responses, s.manager.response);
    inserted := s.(responses := ring, sent := s.sent + [s.manager.response]);
  }

  lemma OneshotsByPut(s: State, id: SensorId)
    requires ManagerOk(s.manager, s.sensors, s.live) && s.manager.Putting? && s.responses.wait != Waiting
    ensures s.sensors[id].oneshots == AnsweredBy(s, ManagerPut, id) + PutResponse(s).sensors[id].oneshots
  {
    var inserted := PutContinues(s);
    OneshotsByContinue(inserted, s.manager.after, id);
    assert [] + s.sensors[id].oneshots == s.sensors[id].oneshots;
  }

  lemma OthersTouchNoOneshot(cfg: Config, s: State, a: Action, id: SensorId)
    requires Enabled(cfg, s, a) && !a.FetchRequest? && !a.ManagerPut?
    ensures Apply(cfg, s, a).sensors[id].oneshots == s.sensors[id].oneshots
  {
  }

  lemma WithNothing<T>(items: seq<T>)
    ensures items + [] == items == [] + items
  {
  }

  lemma OneshotsByStep(cfg: Config, s: State, a: Action, id: SensorId)
    requires Invariant(s) && Enabled(cfg, s, a)
    ensures OneshotsMove(s.sensors[id].oneshots, RegisteredBy(s, a, id), AnsweredBy(s, a, id),
                         Apply(cfg, s, a).sensors[id].oneshots)
  {
    WithNothing(s.sensors[id].oneshots);
    WithNothing(Apply(cfg, s, a).sensors[id].oneshots);
    if a.FetchRequest? {
      OneshotsByFetch(s, a.memory, id);
    } else if a.ManagerPut? {
      OneshotsByPut(s, id);
    } else {
      OthersTouchNoOneshot(cfg, s, a, id);
    }
  }

  lemma {:induction false} OneshotsByRun(cfg: Config, s: State, run: seq<Action>, id: SensorId)
    requires Reachable(cfg, s) && IsRun(cfg, s, run)
    ensures OneshotsMove(s.sensors[id].oneshots, RegisteredOn(cfg, s, run, id), AnsweredFor(cfg, s, run, id),
                         EndOf(cfg, s, run).sensors[id].oneshots)
    decreases run
  {
    if run == [] {
      assert s.sensors[id].oneshots + [] == [] + s.sensors[id].oneshots;
    } else {
      var next := Apply(cfg, s, run[0]);
      ReachableKeepsAll(cfg, s);
      ReachNext(cfg, s, run[0]);
      OneshotsByStep(cfg, s, run[0], id);
      OneshotsByRun(cfg, next, run[1..], id);
      Regroup(s.sensors[id].oneshots, RegisteredBy(s, run[0], id), RegisteredOn(cfg, next, run[1..], id),
              AnsweredBy(s, run[0], id), next.sensors[id].oneshots,
              AnsweredFor(cfg, next, run[1..], id), EndOf(cfg, next, run[1..]).sensors[id].oneshots);
    }
  }

  /** The one-shots that found no valid cache are answered in the order in which they were registered on
      their sensor, each once; those not answered yet are the ones registered last. */
  lemma OneshotsKeepOrder(cfg: Config, run: seq<Action>, id: SensorId)
    requires IsRun(cfg, Initial(), run)
    ensures RegisteredOn(cfg, Initial(), run, id)
         == AnsweredFor(cfg, Initial(), run, id) + EndOf(cfg, Initial(), run).sensors[id].oneshots
  {
    assert Reaches(cfg, [], Initial());
    OneshotsByRun(cfg, Initial(), run, id);
    assert [] + RegisteredOn(cfg, Initial(), run, id) == RegisteredOn(cfg, Initial(), run, id);
  }
}
