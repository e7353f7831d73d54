/** Which streams a sensor serves, how fast and in which order, from the requests served and from the calls of
    the handlers. */
module ProtocolStreams {
  import opened Options
  import opened SensorModel
  import opened Ledger
  import opened Protocol
  import opened ProtocolConditions
  import opened ProtocolHandlers
  import opened ProtocolInvariants
  import opened ProtocolLogs
  import opened ProtocolOutcomes
  import opened ProtocolRuns

  // ---- from the requests served ----

  predicate StartsOn(service: Service, id: SensorId, t: int) {
    var r := service.request;
    r.Start? && service.memory && r.ticket == t && r.life.sensor == id
  }

  predicate StopsOn(service: Service, id: SensorId, t: int) {
    var r := service.request;
    r.Stop? && r.ticket == t && r.life.sensor == id
  }

  /** The frequency that the last word on a ticket and a sensor asks for, if that is not a STOP. */
  function AskedFor(services: seq<Service>, id: SensorId, t: int): Option<int> {
    if services == [] then None
    else
      var last := services[|services| - 1];
      if StartsOn(last, id, t) then Some(last.request.freq)
      else if StopsOn(last, id, t) then None
      else AskedFor(services[..|services| - 1], id, t)
  }

  /** When the ticket's last START on the sensor was served, counted from 1; 0 if none was. */
  function StartedAt(services: seq<Service>, id: SensorId, t: int): (n: nat)
    ensures n <= |services|
  {
    if services == [] then 0
    else if StartsOn(services[|services| - 1], id, t) then |services|
    else StartedAt(services[..|services| - 1], id, t)
  }

  /** The frequency at which the ticket's stream is listed, if there is one. */
  function ListedAt(x: Sensor, t: int): Option<int> {
    var k := Find(x.streams, t);
    if k < |x.streams| then Some(x.streams[k].freq) else None
  }

  predicate InStartOrder(streams: seq<StreamInfo>, services: seq<Service>, id: SensorId) {
    forall i, j :: 0 <= i < j < |streams| ==>
      StartedAt(services, id, streams[i].ticket) < StartedAt(services, id, streams[j].ticket)
  }

  ghost predicate ServesAt(x: Sensor, services: seq<Service>, id: SensorId) {
    && (forall t :: ListedAt(x, t) == AskedFor(services, id, t))
    && InStartOrder(x.streams, services, id)
  }

  // ---- one request ----

  lemma ListedIs(x: Sensor, t: int)
    requires DistinctTickets(x.streams)
    ensures forall f :: ListedAt(x, t) == Some(f) <==> StreamInfo(t, f) in x.streams
  {
    var k := Find(x.streams, t);
    if k < |x.streams| {
      assert x.streams[k] in x.streams;
    }
  }

  lemma SameListed(x: Sensor, after: Sensor, t: int)
    requires DistinctTickets(x.streams) && DistinctTickets(after.streams)
    requires forall f :: StreamInfo(t, f) in x.streams <==> StreamInfo(t, f) in after.streams
    ensures ListedAt(after, t) == ListedAt(x, t)
  {
    ListedIs(x, t);
    ListedIs(after, t);
    if ListedAt(x, t).Some? {
      assert StreamInfo(t, ListedAt(x, t).value) in x.streams;
    }
    if ListedAt(after, t).Some? {
      assert StreamInfo(t, ListedAt(after, t).value) in after.streams;
    }
  }

  lemma AskedNext(services: seq<Service>, last: Service, id: SensorId, t: int)
    ensures AskedFor(services + [last], id, t) == if StartsOn(last, id, t) then Some(last.request.freq)
                                                  else if StopsOn(last, id, t) then None
                                                  else AskedFor(services, id, t)
    ensures StartedAt(services + [last], id, t) == if StartsOn(last, id, t) then |services| + 1
                                                   else StartedAt(services, id, t)
  {
    assert (services + [last])[..|services|] == services;
  }

  /** Dropping a stream from a list keeps the order of the others. */
  lemma OthersInOrder(streams: seq<StreamInfo>, t: int, services: seq<Service>, id: SensorId)
    requires InStartOrder(streams, services, id)
    ensures InStartOrder(Others(streams, t), services, id)
  {
    OthersIsDeletion(streams, t);
    var k := Find(streams, t);
    if k < |streams| {
      DropInOrder(streams, k, services, id);
    }
  }

  lemma DropInOrder(streams: seq<StreamInfo>, k: nat, services: seq<Service>, id: SensorId)
    requires k < |streams| && InStartOrder(streams, services, id)
    ensures InStartOrder(streams[..k] + streams[k + 1..], services, id)
  {
    var rest := streams[..k] + streams[k + 1..];
    forall i, j | 0 <= i < j < |rest|
      ensures StartedAt(services, id, rest[i].ticket) < StartedAt(services, id, rest[j].ticket)
    {
      var i', j' := if i < k then i else i + 1, if j < k then j else j + 1;
      assert rest[i] == streams[i'] && rest[j] == streams[j'];
    }
  }

  lemma StartServes(x: Sensor, services: seq<Service>, id: SensorId, service: Service)
    requires DistinctTickets(x.streams) && ServesAt(x, services, id)
    requires StartsOn(service, id, service.request.ticket)
    ensures ServesAt(StartStream(x, service.request.ticket, service.request.freq, true).sensor, services + [service], id)
  {
    var r := service.request;
    var after := StartStream(x, r.ticket, r.freq, true).sensor;
    OthersKeepsTheRest(x.streams, r.ticket);
    forall t
      ensures ListedAt(after, t) == AskedFor(services + [service], id, t)
    {
      AskedNext(services, service, id, t);
      if t == r.ticket {
        assert StreamInfo(t, r.freq) in after.streams;
        ListedIs(after, t);
      } else {
        SameListed(x, after, t);
      }
    }
    OthersInOrder(x.streams, r.ticket, services, id);
    NewestIsLast(Others(x.streams, r.ticket), services, id, service);
  }

  lemma NewestIsLast(rest: seq<StreamInfo>, services: seq<Service>, id: SensorId, service: Service)
    requires InStartOrder(rest, services, id) && StartsOn(service, id, service.request.ticket)
    requires forall x <- rest :: x.ticket != service.request.ticket
    ensures InStartOrder(rest + [StreamInfo(service.request.ticket, service.request.freq)], services + [service], id)
  {
    var after := rest + [StreamInfo(service.request.ticket, service.request.freq)];
    forall i, j | 0 <= i < j < |after|
      ensures StartedAt(services + [service], id, after[i].ticket)
            < StartedAt(services + [service], id, after[j].ticket)
    {
      AskedNext(services, service, id, after[i].ticket);
      AskedNext(services, service, id, after[j].ticket);
    }
  }

  lemma StopServes(x: Sensor, services: seq<Service>, id: SensorId, service: Service)
    requires DistinctTickets(x.streams) && ServesAt(x, services, id)
    requires StopsOn(service, id, service.request.ticket)
    requires StopStream(x, service.request.ticket).Removed?
    ensures ServesAt(StopStream(x, service.request.ticket).sensor, services + [service], id)
  {
    var ticket := service.request.ticket;
    var after := StopStream(x, ticket).sensor;
    OthersKeepsTheRest(x.streams, ticket);
    OthersInOrder(x.streams, ticket, services, id);
    assert after.streams == Others(x.streams, ticket);
    forall t
      ensures ListedAt(after, t) == AskedFor(services + [service], id, t)
    {
      AskedNext(services, service, id, t);
      if t == ticket {
        ListedIs(after, t);
        assert forall f :: StreamInfo(t, f) !in after.streams;
      } else {
        SameListed(x, after, t);
      }
    }
    StartsNothing(after.streams, services, id, service);
  }

  lemma StartsNothing(streams: seq<StreamInfo>, services: seq<Service>, id: SensorId, service: Service)
    requires InStartOrder(streams, services, id) && !StartsOn(service, id, service.request.ticket)
    ensures InStartOrder(streams, services + [service], id)
  {
    forall i, j | 0 <= i < j < |streams|
      ensures StartedAt(services + [service], id, streams[i].ticket)
            < StartedAt(services + [service], id, streams[j].ticket)
    {
      AskedNext(services, service, id, streams[i].ticket);
      AskedNext(services, service, id, streams[j].ticket);
    }
  }

  /** A request that says nothing of the sensor, or a STOP that finds no stream on it. */
  lemma OthersServe(x: Sensor, after: Sensor, services: seq<Service>, id: SensorId, service: Service)
    requires DistinctTickets(x.streams) && ServesAt(x, services, id) && after.streams == x.streams
    requires !StartsOn(service, id, service.request.ticket)
    requires StopsOn(service, id, service.request.ticket) ==> !Streams(x, service.request.ticket)
    ensures ServesAt(after, services + [service], id)
  {
    forall t
      ensures ListedAt(after, t) == AskedFor(services + [service], id, t)
    {
      AskedNext(services, service, id, t);
      if StopsOn(service, id, t) {
        ListedIs(x, t);
        assert forall f :: StreamInfo(t, f) !in x.streams;
      }
    }
    StartsNothing(x.streams, services, id, service);
  }

  lemma DispatchServes(f: State, r: Request, memory: bool, services: seq<Service>, id: SensorId)
    requires DistinctTickets(f.sensors[id].streams) && ServesAt(f.sensors[id], services, id)
    requires !Dispatch(f, r, memory).manager.Faulted?
    ensures ServesAt(Dispatch(f, r, memory).sensors[id], services + [Service(r, memory)], id)
  {
    var x, service := f.sensors[id], Service(r, memory);
    var after := Dispatch(f, r, memory).sensors[id];
    if StartsOn(service, id, r.ticket) {
      StartServes(x, services, id, service);
    } else if StopsOn(service, id, r.ticket) && StopStream(x, r.ticket).Removed? {
      StopServes(x, services, id, service);
    } else {
      OthersServe(x, after, services, id, service);
    }
  }

  // ---- every run ----

  lemma {:induction false} ServicesFront(cfg: Config, s: State, run: seq<Action>)
    requires IsRun(cfg, s, run) && run != []
    ensures var front, last := run[..|run| - 1], run[|run| - 1];
            && IsRun(cfg, s, front)
            && Services(cfg, s, run) == Services(cfg, s, front) + ServiceOf(EndOf(cfg, s, front), last)
    decreases run
  {
    var front, next := run[..|run| - 1], Apply(cfg, s, run[0]);
    RunFront(cfg, s, run);
    if |run| == 1 {
      assert front == [] && Services(cfg, next, run[1..]) == [];
    } else {
      var rest := run[1..];
      ServicesFront(cfg, next, rest);
      assert front[0] == run[0] && front[1..] == rest[..|rest| - 1] && rest[|rest| - 1] == run[|run| - 1];
      Grouped(ServiceOf(s, run[0]), Services(cfg, next, front[1..]), ServiceOf(EndOf(cfg, s, front), run[|run| - 1]));
    }
  }

  lemma Grouped(a: seq<Service>, b: seq<Service>, c: seq<Service>)
    ensures a + (b + c) == (a + b) + c
  {
  }

  lemma FetchServes(s: State, memory: bool, services: seq<Service>, id: SensorId)
    requires s.manager.Fetching? && DistinctTickets(s.sensors[id].streams) && ServesAt(s.sensors[id], services, id)
    requires !ServeNext(s, memory).manager.Faulted?
    ensures ServesAt(ServeNext(s, memory).sensors[id], services + ServiceOf(s, FetchRequest(memory)), id)
  {
    if NextRequest(s).Some? {
      DispatchServes(Fetched(s), NextRequest(s).value, memory, services, id);
    } else {
      assert services + [] == services;
    }
  }

  lemma SameStreamsServe(x: Sensor, after: Sensor, services: seq<Service>, id: SensorId)
    requires ServesAt(x, services, id) && after.streams == x.streams
    ensures ServesAt(after, services + [], id)
  {
    assert services + [] == services;
    forall t
      ensures ListedAt(after, t) == AskedFor(services, id, t)
    {
      assert ListedAt(after, t) == ListedAt(x, t);
    }
  }

  lemma StepServes(cfg: Config, s: State, a: Action, services: seq<Service>, id: SensorId)
    requires Invariant(s) && Enabled(cfg, s, a) && ServesAt(s.sensors[id], services, id)
    requires !Apply(cfg, s, a).manager.Faulted?
    ensures ServesAt(Apply(cfg, s, a).sensors[id], services + ServiceOf(s, a), id)
  {
    if a.FetchRequest? {
      assert Consistent(s.sensors[id]);
      FetchServes(s, a.memory, services, id);
    } else {
      OthersTouchNoStream(cfg, s, a, id);
      SameStreamsServe(s.sensors[id], Apply(cfg, s, a).sensors[id], services, id);
    }
  }

  /** In every run without a fault, the tickets streaming on a sensor, and their frequencies, are those that the
      last word of the served requests asks for, listed in the order in which they were last started. */
  lemma {:induction false} SensorsServe(cfg: Config, run: seq<Action>, id: SensorId)
    requires IsRun(cfg, Initial(), run) && !EndOf(cfg, Initial(), run).manager.Faulted?
    ensures var x, services := EndOf(cfg, Initial(), run).sensors[id], Services(cfg, Initial(), run);
            && (forall t :: ListedAt(x, t) == AskedFor(services, id, t))
            && InStartOrder(x.streams, services, id)
  {
    if run == [] {
    } else {
      var front, last := run[..|run| - 1], run[|run| - 1];
      RunFront(cfg, Initial(), run);
      ServicesFront(cfg, Initial(), run);
      var s := EndOf(cfg, Initial(), front);
      if s.manager.Faulted? {
        ServerLeavesManager(cfg, s, last);
      }
      assert Reaches(cfg, front, s);
      ReachableKeepsAll(cfg, s);
      SensorsServe(cfg, front, id);
      StepServes(cfg, s, last, Services(cfg, Initial(), front), id);
    }
  }

  // ---- from the calls of the handlers ----

  /** The frequency that the last call on a ticket and a sensor asks for, if that is not a STOP. */
  function CalledFor(puts: seq<Put>, id: SensorId, t: int): Option<int> {
    if puts == [] then None
    else
      var last := puts[|puts| - 1];
      if last.rtype.START? && last.ticket == t && last.sensor == id then Some(last.freq)
      else if last.rtype.STOP? && last.ticket == t && last.sensor == id then None
      else CalledFor(puts[..|puts| - 1], id, t)
  }

  function OneshotsCalled(puts: seq<Put>, t: int): nat {
    if puts == [] then 0
    else
      var last := puts[|puts| - 1];
      OneshotsCalled(puts[..|puts| - 1], t) + One(last.rtype.ONESHOT? && last.ticket == t)
  }

  /** sm_new_stream always gets its memory. */
  predicate AlwaysMemory(run: seq<Action>) {
    forall a <- run :: a.FetchRequest? ==> a.memory
  }

  predicate AllWithMemory(services: seq<Service>) {
    forall service <- services :: service.memory
  }

  lemma {:induction false} ServicesWithMemory(cfg: Config, s: State, run: seq<Action>)
    requires IsRun(cfg, s, run) && AlwaysMemory(run)
    ensures AllWithMemory(Services(cfg, s, run))
    decreases run
  {
    if run == [] {
    } else {
      assert run[0] in run && forall a <- run[1..] :: a in run;
      ServicesWithMemory(cfg, Apply(cfg, s, run[0]), run[1..]);
    }
  }

  lemma {:induction false} AskedAsCalled(services: seq<Service>, id: SensorId, t: int)
    requires AllWithMemory(services)
    ensures AskedFor(services, id, t) == CalledFor(PutsOf(Requests(services)), id, t)
  {
    if services == [] {
    } else {
      var front := services[..|services| - 1];
      assert services[|services| - 1] in services && forall service <- front :: service in services;
      AskedAsCalled(front, id, t);
      assert PutsOf(Requests(services))[..|front|] == PutsOf(Requests(front));
    }
  }

  lemma {:induction false} OneshotsAsCalled(requests: seq<Request>, t: int)
    ensures Asked(requests, t) == OneshotsCalled(PutsOf(requests), t)
  {
    if requests == [] {
    } else {
      var front := requests[..|requests| - 1];
      OneshotsAsCalled(front, t);
      assert PutsOf(requests)[..|front|] == PutsOf(front);
    }
  }

  /** Once nothing is under way, and if no request was lost, what the manager served is what the handlers called
      for. */
  lemma ServedAsCalled(cfg: Config, run: seq<Action>)
    requires IsRun(cfg, Initial(), run) && NeverLoses(cfg, Initial(), run)
    requires Pending(EndOf(cfg, Initial(), run)) == []
    ensures var s := EndOf(cfg, Initial(), run);
            s.served == Requests(Services(cfg, Initial(), run)) && PutsOf(s.served) == PutsFor(run)
  {
    var s := EndOf(cfg, Initial(), run);
    NothingPending(s);
    OrderIffNeverLoses(cfg, run);
    ServedByRun(cfg, Initial(), run);
    ServedAsCalledIff(cfg, run);
  }

  lemma NothingPending(s: State)
    requires Pending(s) == []
    ensures Queue(s) == [] == RequestInHand(s.server)
    ensures s.served + Queue(s) == s.served == [] + s.served && s.served + RequestInHand(s.server) == s.served
  {
  }

  /** The clients get the streams they ask for: once every request is served, none lost, and the manager had
      memory and did not fault, a ticket streams on a sensor exactly if the last call of a handler for the two is
      a GET with observe, and then at the frequency asked for there. */
  lemma HandlersAreObeyed(cfg: Config, run: seq<Action>, id: SensorId, t: int)
    requires IsRun(cfg, Initial(), run) && NeverLoses(cfg, Initial(), run) && AlwaysMemory(run)
    requires var s := EndOf(cfg, Initial(), run); Pending(s) == [] && !s.manager.Faulted?
    ensures ListedAt(EndOf(cfg, Initial(), run).sensors[id], t) == CalledFor(PutsFor(run), id, t)
  {
    SensorsServe(cfg, run, id);
    ServedAsCalled(cfg, run);
    ServicesWithMemory(cfg, Initial(), run);
    AskedAsCalled(Services(cfg, Initial(), run), id, t);
  }

  /** And the samples: each plain GET has one answer in or through the ring, or waits for one on a sensor or in
      the manager's hand. */
  lemma GetsAreAnsweredOnce(cfg: Config, run: seq<Action>, t: int)
    requires IsRun(cfg, Initial(), run) && NeverLoses(cfg, Initial(), run)
    requires Pending(EndOf(cfg, Initial(), run)) == []
    ensures var s := EndOf(cfg, Initial(), run);
            OneshotsCalled(PutsFor(run), t) ==
            Answered(s.sent, t) + WaitingOn(s.sensors, t) + CachedInHand(s.manager, t)
  {
    var s := EndOf(cfg, Initial(), run);
    assert Reaches(cfg, run, s);
    ServedAsCalled(cfg, run);
    OneshotsAsCalled(s.served, t);
    OneshotsAreAnsweredOnce(cfg, s, t);
  }
}
