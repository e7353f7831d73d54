/** What the logs of a run say: the order in which requests are served, and one answer to a one-shot. */
module ProtocolLogs {
  import opened RingModel
  import opened SensorModel
  import opened Ledger
  import opened Protocol
  import opened ProtocolInvariants

  /** Nothing is duplicated; and while nothing was lost, requests are served in the order of their puts. */
  predicate InOrder(issued: seq<Request>, served: seq<Request>, lost: seq<Request>, queue: seq<Request>) {
    && multiset(issued) == multiset(served) + multiset(lost) + multiset(queue)
    && (lost == [] ==> issued == served + queue)
  }

  predicate RequestLog(s: State) {
    InOrder(s.issued, s.served, s.lost, Queue(s))
  }

  lemma IssuedInOrder(issued: seq<Request>, served: seq<Request>, lost: seq<Request>, queue: seq<Request>, r: Request)
    requires InOrder(issued, served, lost, queue)
    ensures InOrder(issued + [r], served, lost, queue + [r])
  {
    assert served + (queue + [r]) == (served + queue) + [r];
  }

  lemma ServedInOrder(issued: seq<Request>, served: seq<Request>, lost: seq<Request>, queue: seq<Request>, r: Request)
    requires InOrder(issued, served, lost, [r] + queue)
    ensures InOrder(issued, served + [r], lost, queue)
  {
    assert served + ([r] + queue) == (served + [r]) + queue;
  }

  lemma LostInOrder(issued: seq<Request>, served: seq<Request>, lost: seq<Request>, queue: seq<Request>, r: Request)
    requires InOrder(issued, served, lost, [r] + queue)
    ensures InOrder(issued, served, lost + [r], queue)
  {
  }

  predicate ResponseLog(s: State) {
    s.sent == s.received + s.responses.items
  }

  predicate OfDesign(cfg: Config, s: State) {
    match cfg.design
    case Shared => s.lost == []
    case ByValue => s.deferred == []
  }

  lemma FetchKeepsRequestLog(s: State, memory: bool)
    requires RequestLog(s)
    ensures RequestLog(ServeNext(s, memory)) && ServeNext(s, memory).lost == s.lost
  {
    QueueFetched(s);
    if NextRequest(s).Some? {
      var r, f := NextRequest(s).value, Fetched(s);
      DispatchTouches(f, r, memory);
      ServedInOrder(s.issued, s.served, s.lost, Queue(f), r);
    }
  }

  lemma PutKeepsRequestLog(s: State)
    requires RequestLog(s) && s.server.Handing? && (s.requests.wait == Ready || s.requests.wait == Signalled)
    ensures RequestLog(PutRequest(s))
  {
    var r, after := s.server.request, PutRequest(s);
    if after.server.Net? {
      assert Queue(after) == Queue(s) + [r];
      IssuedInOrder(s.issued, s.served, s.lost, Queue(s), r);
    }
  }

  lemma DeferKeepsRequestLog(cfg: Config, s: State)
    requires RequestLog(s) && OfDesign(cfg, s) && s.manager.Deferring?
    ensures RequestLog(SetAside(cfg, s)) && OfDesign(cfg, SetAside(cfg, s))
  {
    QueueSetAside(cfg, s);
    if cfg.design.ByValue? && s.requests.items != [] {
      LostInOrder(s.issued, s.served, s.lost, Queue(SetAside(cfg, s)), s.requests.items[0]);
    }
  }

  lemma ConsumeKeepsResponseLog(s: State, confirmable: bool)
    requires ResponseLog(s) && s.server.Consuming?
    ensures ResponseLog(ConsumeOne(s, confirmable))
  {
    var items := s.responses.items;
    if items != [] {
      assert items == [items[0]] + items[1..];
      assert s.received + ([items[0]] + items[1..]) == (s.received + [items[0]]) + items[1..];
    }
  }

  lemma PutKeepsResponseLog(s: State)
    requires ResponseLog(s) && s.manager.Putting? && s.responses.wait != Waiting
    ensures ResponseLog(PutResponse(s))
  {
    assert s.received + (s.responses.items + [s.manager.response])
        == (s.received + s.responses.items) + [s.manager.response];
  }

  // ---- one-shots ----

  function One(condition: bool): nat {
    if condition then 1 else 0
  }

  predicate Asks(r: Request, t: int) {
    r.Oneshot? && r.ticket == t
  }

  /** How many requests ask for a one-shot with the ticket. */
  function Asked(requests: seq<Request>, t: int): nat {
    if requests == [] then 0
    else Asked(requests[..|requests| - 1], t) + One(Asks(requests[|requests| - 1], t))
  }

  function Answered(responses: seq<Response>, t: int): nat {
    if responses == [] then 0
    else Answered(responses[..|responses| - 1], t) + One(responses[|responses| - 1] == Answer(t))
  }

  function Count(tickets: seq<int>, t: int): nat {
    if tickets == [] then 0 else One(tickets[0] == t) + Count(tickets[1..], t)
  }

  /** How many one-shots with the ticket are registered on any sensor. */
  function WaitingOn(sensors: seq<Sensor>, t: int): nat {
    if sensors == [] then 0 else Count(sensors[0].oneshots, t) + WaitingOn(sensors[1..], t)
  }

  /** A one-shot answered from the cache, while its answer is not yet in the ring. */
  function CachedInHand(pc: ManagerPc, t: int): nat {
    One((pc.Putting? || pc.Deferring?) && pc.after.AfterRequest? && pc.response == Answer(t))
  }

  /** Each served one-shot is answered once, or still to be answered once. */
  predicate OneshotLog(s: State, t: int) {
    Asked(s.served, t) == Answered(s.sent, t) + WaitingOn(s.sensors, t) + CachedInHand(s.manager, t)
  }

  lemma AskedAppend(requests: seq<Request>, r: Request, t: int)
    ensures Asked(requests + [r], t) == Asked(requests, t) + One(Asks(r, t))
  {
    assert (requests + [r])[..|requests|] == requests;
  }

  lemma AnsweredAppend(responses: seq<Response>, r: Response, t: int)
    ensures Answered(responses + [r], t) == Answered(responses, t) + One(r == Answer(t))
  {
    assert (responses + [r])[..|responses|] == responses;
  }

  lemma {:induction false} CountAppend(tickets: seq<int>, u: int, t: int)
    ensures Count(tickets + [u], t) == Count(tickets, t) + One(u == t)
  {
    if tickets == [] {
      assert tickets + [u] == [u];
    } else {
      assert (tickets + [u])[1..] == tickets[1..] + [u];
      CountAppend(tickets[1..], u, t);
    }
  }

  lemma {:induction false} WaitingAfter(sensors: seq<Sensor>, id: nat, x: Sensor, t: int)
    requires id < |sensors|
    ensures WaitingOn(sensors[id := x], t)
         == WaitingOn(sensors, t) + Count(x.oneshots, t) - Count(sensors[id].oneshots, t)
  {
    var after := sensors[id := x];
    if id == 0 {
      assert after[1..] == sensors[1..];
    } else {
      assert after[1..] == sensors[1..][id - 1 := x];
      WaitingAfter(sensors[1..], id - 1, x, t);
    }
  }

  lemma DispatchOneshots(f: State, r: Request, memory: bool, t: int)
    ensures var after := Dispatch(f, r, memory);
            WaitingOn(after.sensors, t) + CachedInHand(after.manager, t) == WaitingOn(f.sensors, t) + One(Asks(r, t))
  {
    match r
    case Oneshot(u, id) =>
      CountAppend(f.sensors[id].oneshots, u, t);
      WaitingAfter(f.sensors, id, RegisterOneshot(f.sensors[id], u), t);
    case Start(u, life, freq) =>
      var started := StartStream(f.sensors[life.sensor], u, freq, memory).sensor;
      assert started.oneshots == f.sensors[life.sensor].oneshots;
      WaitingAfter(f.sensors, life.sensor, started, t);
    case Stop(u, life) => StopOneshots(f, u, life, memory, t);
  }

  lemma StopOneshots(f: State, u: int, life: Life, memory: bool, t: int)
    ensures var after := Dispatch(f, Stop(u, life), memory);
            WaitingOn(after.sensors, t) == WaitingOn(f.sensors, t) && CachedInHand(after.manager, t) == 0
  {
    var stopped := StopStream(f.sensors[life.sensor], u);
    if stopped.Removed? {
      assert stopped.sensor.oneshots == f.sensors[life.sensor].oneshots;
      WaitingAfter(f.sensors, life.sensor, stopped.sensor, t);
    }
  }

  lemma DispatchKeepsOneshotLog(f: State, r: Request, memory: bool, t: int)
    requires OneshotLog(f, t) && f.manager.Fetching?
    ensures OneshotLog(Dispatch(f, r, memory), t)
  {
    DispatchTouches(f, r, memory);
    DispatchOneshots(f, r, memory, t);
    AskedAppend(f.served, r, t);
    assert CachedInHand(f.manager, t) == 0;
  }

  lemma FetchKeepsOneshotLog(s: State, memory: bool, t: int)
    requires OneshotLog(s, t) && s.manager.Fetching?
    ensures OneshotLog(ServeNext(s, memory), t)
  {
    var f := Fetched(s);
    assert OneshotLog(f, t) && f.manager == s.manager;
    if NextRequest(s).Some? {
      DispatchKeepsOneshotLog(f, NextRequest(s).value, memory, t);
    } else {
      assert ServeNext(s, memory) == f.(manager := Sampling(0));
    }
  }

  lemma SampleKeepsOneshotLog(cfg: Config, s: State, a: Action, t: int)
    requires OneshotLog(s, t) && Enabled(cfg, s, a) && (a.Reading? || a.RealReading?)
    ensures OneshotLog(Apply(cfg, s, a), t)
  {
    WaitingAfter(s.sensors, a.sensor, Apply(cfg, s, a).sensors[a.sensor], t);
  }

  /** The response in hand goes into the ring, and what it answered is no longer pending. */
  lemma ContinueKeepsOneshotLog(s: State, inserted: State, t: int)
    requires OneshotLog(s, t) && s.manager.Putting? && InHandOk(s.manager.response, s.manager.after, s.sensors, s.live)
    requires inserted.sent == s.sent + [s.manager.response] && inserted.served == s.served
    requires inserted.sensors == s.sensors
    ensures OneshotLog(Continue(inserted, s.manager.after), t)
  {
    AnsweredAppend(s.sent, s.manager.response, t);
    if s.manager.after.AfterOneshot? {
      var id := s.manager.after.sensor;
      WaitingAfter(s.sensors, id, AnsweredOneshot(s.sensors[id]), t);
    }
  }

  lemma PutKeepsOneshotLog(s: State, t: int)
    requires OneshotLog(s, t) && ManagerOk(s.manager, s.sensors, s.live)
    requires s.manager.Putting? && s.responses.wait != Waiting
    ensures OneshotLog(PutResponse(s), t)
  {
    var r := s.manager.response;
    if s.responses.wait == Ready && |s.responses.items| < SLOTS {
      ContinueKeepsOneshotLog(s, s.(responses := EnterPut(s.responses, r), sent := s.sent + [r]), t);
    } else if s.responses.wait == Signalled {
      ContinueKeepsOneshotLog(s, s.(responses := LeavePut(s.responses, r), sent := s.sent + [r]), t);
    }
  }

  // ---- every step ----

  ghost predicate Logged(cfg: Config, s: State) {
    RequestLog(s) && ResponseLog(s) && OfDesign(cfg, s) && forall t :: OneshotLog(s, t)
  }

  lemma {:induction false} NobodyWaitsAtRest(sensors: seq<Sensor>, t: int)
    requires forall x <- sensors :: x == IDLE
    ensures WaitingOn(sensors, t) == 0
  {
    if sensors == [] {
    } else {
      assert sensors[0] in sensors;
      assert forall x <- sensors[1..] :: x in sensors;
      NobodyWaitsAtRest(sensors[1..], t);
    }
  }

  lemma InitialLogged(cfg: Config)
    ensures Logged(cfg, Initial())
  {
    forall t
      ensures OneshotLog(Initial(), t)
    {
      NobodyWaitsAtRest(Initial().sensors, t);
    }
  }

  predicate LeavesLogs(a: Action) {
    a.NextRound? || a.ObserveGet? || a.PlainGet? || a.OnUnregister? || a.Settled?
    || a.OtherMessage? || a.NetworkDone?
    || a.NoReading? || a.NextPass? || a.StreamTurn? || a.WaitExpires?
  }

  lemma QuietTouches(cfg: Config, s: State, a: Action)
    requires Enabled(cfg, s, a) && LeavesLogs(a)
    ensures var after := Apply(cfg, s, a);
            && after.issued == s.issued && after.served == s.served && after.lost == s.lost
            && after.deferred == s.deferred && after.requests == s.requests
            && after.sent == s.sent && after.received == s.received && after.responses.items == s.responses.items
            && after.sensors == s.sensors && forall t :: CachedInHand(after.manager, t) == CachedInHand(s.manager, t)
  {
  }

  lemma QuietKeepsLogged(cfg: Config, s: State, a: Action)
    requires Logged(cfg, s) && Enabled(cfg, s, a) && LeavesLogs(a)
    ensures Logged(cfg, Apply(cfg, s, a))
  {
    QuietTouches(cfg, s, a);
    forall t
      ensures OneshotLog(Apply(cfg, s, a), t)
    {
      assert OneshotLog(s, t);
    }
  }

  lemma ServerTouches(cfg: Config, s: State, a: Action)
    requires Enabled(cfg, s, a) && (a.ServerPut? || a.ConsumeResponse?)
    ensures var after := Apply(cfg, s, a);
            && after.served == s.served && after.sent == s.sent && after.sensors == s.sensors
            && after.manager == s.manager && after.lost == s.lost && after.deferred == s.deferred
            && (a.ServerPut? ==> after.received == s.received && after.responses == s.responses)
            && (a.ConsumeResponse? ==> after.issued == s.issued && after.requests == s.requests)
  {
  }

  lemma ServerKeepsLogged(cfg: Config, s: State, a: Action)
    requires Logged(cfg, s) && Enabled(cfg, s, a) && (a.ServerPut? || a.ConsumeResponse?)
    ensures Logged(cfg, Apply(cfg, s, a))
  {
    if a.ServerPut? {
      PutKeepsRequestLog(s);
    } else {
      ConsumeKeepsResponseLog(s, a.confirmable);
    }
    ServerTouches(cfg, s, a);
    forall t
      ensures OneshotLog(Apply(cfg, s, a), t)
    {
      assert OneshotLog(s, t);
    }
  }

  lemma FetchKeepsLogged(cfg: Config, s: State, memory: bool)
    requires Logged(cfg, s) && s.manager.Fetching?
    ensures Logged(cfg, ServeNext(s, memory))
  {
    FetchKeepsRequestLog(s, memory);
    if NextRequest(s).Some? {
      DispatchTouches(Fetched(s), NextRequest(s).value, memory);
    }
    forall t
      ensures OneshotLog(ServeNext(s, memory), t)
    {
      FetchKeepsOneshotLog(s, memory, t);
    }
  }

  lemma SampleKeepsLogged(cfg: Config, s: State, a: Action)
    requires Logged(cfg, s) && Enabled(cfg, s, a) && (a.Reading? || a.RealReading?)
    ensures Logged(cfg, Apply(cfg, s, a))
  {
    forall t
      ensures OneshotLog(Apply(cfg, s, a), t)
    {
      SampleKeepsOneshotLog(cfg, s, a, t);
    }
  }

  lemma PutKeepsLogged(cfg: Config, s: State)
    requires Logged(cfg, s) && ManagerOk(s.manager, s.sensors, s.live)
    requires s.manager.Putting? && s.responses.wait != Waiting
    ensures Logged(cfg, PutResponse(s))
  {
    PutKeepsResponseLog(s);
    forall t
      ensures OneshotLog(PutResponse(s), t)
    {
      PutKeepsOneshotLog(s, t);
    }
  }

  lemma DeferKeepsLogged(cfg: Config, s: State)
    requires Logged(cfg, s) && s.manager.Deferring?
    ensures Logged(cfg, SetAside(cfg, s))
  {
    DeferKeepsRequestLog(cfg, s);
    DeferTouches(cfg, s);
    forall t
      ensures OneshotLog(SetAside(cfg, s), t)
    {
      assert OneshotLog(s, t);
    }
  }

  lemma StepKeepsLogged(cfg: Config, s: State, a: Action)
    requires Logged(cfg, s) && Invariant(s) && Enabled(cfg, s, a)
    ensures Logged(cfg, Apply(cfg, s, a))
  {
    match a
    case ServerPut => ServerKeepsLogged(cfg, s, a);
    case ConsumeResponse(_) => ServerKeepsLogged(cfg, s, a);
    case FetchRequest(memory) => FetchKeepsLogged(cfg, s, memory);
    case RealReading(_) => SampleKeepsLogged(cfg, s, a);
    case Reading(_, _) => SampleKeepsLogged(cfg, s, a);
    case ManagerPut => PutKeepsLogged(cfg, s);
    case DeferRequest => DeferKeepsLogged(cfg, s);
    case _ => QuietKeepsLogged(cfg, s, a);
  }
}
