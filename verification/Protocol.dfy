/** The two threads, one step for each section that runs under a mutex or touches no shared data.

    The server thread handles the network, then consumes a fixed number of responses, and starts over.
    The manager thread serves one request, then delivers a fixed number of samples, and starts over.
    Each produces into one ring and consumes the other.  There is one producer and one consumer to a
    ring and no spurious wakeup; sensor activation and turn-off succeed. */
module Protocol {
  import opened Options
  import opened RingModel
  import opened DeferralModel
  import opened Events
  import opened SensorModel
  import opened Ledger

  /** SMREQ_RATIO and QUEUE_REQ_RATIO. */
  const RESPONSES_PER_ROUND: nat := 5
  const TURNS_PER_PASS: nat := 5

  /** The kinds whose readings reach streams only through a carrier thread. */
  const ORIENTATION: SensorId := 3
  const PROXIMITY: SensorId := 8

  type Table = t: seq<Sensor> | |t| == SENSORS witness seq(SENSORS, _ => IDLE)

  /** `Shared` is the deferral queue that the comments describe, one for both wrappers.  `ByValue` is
      the code: the queue's head arrives by value, so a deferred request is seen by nobody again. */
  datatype Design = Shared | ByValue

  /** `work` bounds what one round of the server finds to do on the network. */
  datatype Config = Config(design: Design, work: nat)

  datatype ServerPc =
    | Net(left: nat)
    | Handing(request: Request, left: nat)
    | Consuming(done: nat)

  /** What the manager goes on with once its response is in the ring. */
  datatype After =
    | AfterRequest
    | AfterOneshot(sensor: SensorId, turn: nat)
    | AfterStream(sensor: SensorId, k: nat, turn: nat)

  datatype ManagerPc =
    | Fetching
    | Sampling(turn: nat)
    | Delivering(sensor: SensorId, k: nat, turn: nat)
    | Putting(response: Response, after: After)
    | Deferring(response: Response, after: After)
    | Faulted

  /** `live` (the life each running stream was started in) and the five logs are bookkeeping: no step
      depends on them. */
  datatype State = State(
    requests: Ring<Request>,
    responses: Ring<Response>,
    server: ServerPc,
    lives: map<int, Life>, owed: multiset<int>, inflight: multiset<int>,
    manager: ManagerPc,
    sensors: Table,
    deferred: seq<Option<Request>>,
    live: map<int, Life>,
    issued: seq<Request>, served: seq<Request>, lost: seq<Request>,
    sent: seq<Response>, received: seq<Response>)

  /** Both threads at the head of their loops, all sensors off. */
  function Initial(): State {
    State(Ring([], Ready), Ring([], Ready), Consuming(RESPONSES_PER_ROUND), map[], multiset{}, multiset{},
          Fetching, seq(SENSORS, _ => IDLE), [], map[], [], [], [], [], [])
  }

  function RequestInHand(pc: ServerPc): seq<Request> {
    if pc.Handing? then [pc.request] else []
  }

  function ResponseInHand(pc: ManagerPc): seq<Response> {
    if pc.Putting? || pc.Deferring? then [pc.response] else []
  }

  /** The requests between the server's put and the manager's service, oldest first. */
  function Queue(s: State): seq<Request> {
    Genuine(s.deferred) + s.requests.items
  }

  /** Every request that the server has decided on and the manager has not served, oldest first. */
  function Pending(s: State): seq<Request> {
    Queue(s) + RequestInHand(s.server)
  }

  /** Every response that the manager has decided on and the server has not consumed, oldest first. */
  function Outstanding(s: State): seq<Response> {
    s.responses.items + ResponseInHand(s.manager)
  }

  function View(s: State): Ledger {
    Ledger(s.lives, s.owed, s.inflight, s.live, Pending(s), s.lost, Outstanding(s))
  }

  datatype Action =
    // the server thread
    | NextRound(work: nat)
    | ObserveGet(ticket: int, sensor: SensorId, freq: int)
    | PlainGet(ticket: int, sensor: SensorId)
    | OnUnregister(ticket: int)
    | Settled(ticket: int)
    | OtherMessage
    | ServerPut
    | NetworkDone
    | ConsumeResponse(confirmable: bool)
    // the manager thread
    | FetchRequest(memory: bool)
    | RealReading(sensor: SensorId)
    | Reading(sensor: SensorId, event: SensorEvent)
    | NoReading
    | NextPass
    | StreamTurn(packet: seq<Sample>)
    | ManagerPut
    | WaitExpires
    | DeferRequest

  predicate OfServer(a: Action) {
    a.NextRound? || a.ObserveGet? || a.PlainGet? || a.OnUnregister? || a.Settled?
    || a.OtherMessage? || a.ServerPut? || a.NetworkDone? || a.ConsumeResponse?
  }

  predicate EventBased(sensor: SensorId) {
    sensor == ORIENTATION || sensor == PROXIMITY
  }

  /** Even turns look at the sample queue, odd turns at the carriers queue. */
  predicate CarrierTurn(turn: nat) {
    turn % 2 == 1
  }

  predicate Enabled(cfg: Config, s: State, a: Action) {
    match a
    case NextRound(work) => s.server.Consuming? && s.server.done >= RESPONSES_PER_ROUND && work <= cfg.work
    case ObserveGet(t, sensor, freq) =>
      // an existing registration belongs to one resource, and a resource to one sensor
      && s.server.Net? && s.server.left > 0 && freq > 0
      && (Alive(View(s), t) && t in s.lives ==> s.lives[t].sensor == sensor)
    case PlainGet(_, _) => s.server.Net? && s.server.left > 0
    case OnUnregister(t) => s.server.Net? && s.server.left > 0 && Alive(View(s), t) && t in s.lives
    case Settled(t) => s.server.Net? && s.server.left > 0 && t in s.inflight
    case ServerPut => s.server.Handing? && (s.requests.wait == Ready || s.requests.wait == Signalled)
    case OtherMessage => s.server.Net? && s.server.left > 0
    case NetworkDone => s.server.Net? && s.server.left == 0
    case ConsumeResponse(_) => s.server.Consuming? && s.server.done < RESPONSES_PER_ROUND
    case FetchRequest(_) => s.manager.Fetching?
    case RealReading(sensor) =>
      s.manager.Sampling? && s.manager.turn < TURNS_PER_PASS && EventBased(sensor) && !CarrierTurn(s.manager.turn)
    case Reading(sensor, event) =>
      && s.manager.Sampling? && s.manager.turn < TURNS_PER_PASS && (EventBased(sensor) <==> CarrierTurn(s.manager.turn))
      && event.kind as nat == sensor
    case NoReading => s.manager.Sampling? && s.manager.turn < TURNS_PER_PASS
    case NextPass => s.manager.Sampling? && s.manager.turn >= TURNS_PER_PASS
    case StreamTurn(_) => s.manager.Delivering?
    case ManagerPut => s.manager.Putting? && s.responses.wait != Waiting
    case WaitExpires => s.manager.Putting? && s.responses.wait == Waiting
    case DeferRequest => s.manager.Deferring?
  }

  // ---- the server's steps ----

  function Hand(s: State, l: Ledger, request: Request): State
    requires s.server.Net? && s.server.left > 0
  {
    s.(lives := l.lives, owed := l.owed, server := Handing(request, s.server.left - 1))
  }

  /** put_request_buf_item at its lock, and again when `notfull` was signalled. */
  function PutRequest(s: State): State
    requires s.server.Handing?
  {
    var r := s.server.request;
    if s.requests.wait == Ready && |s.requests.items| >= SLOTS then s.(requests := EnterPut(s.requests, r))
    else s.(requests := if s.requests.wait == Ready then EnterPut(s.requests, r) else LeavePut(s.requests, r),
            server := Net(s.server.left), issued := s.issued + [r])
  }

  function ConsumeOne(s: State, confirmable: bool): State
    requires s.server.Consuming?
  {
    var head := Head(s.responses);
    s.(responses := Get(s.responses), server := Consuming(s.server.done + 1),
       received := if head.Some? then s.received + [head.value] else s.received,
       owed := if head.Some? && head.value.Stopped? then s.owed - multiset{head.value.ticket} else s.owed,
       inflight := if head.Some? && head.value.Update? && confirmable then s.inflight + multiset{head.value.ticket}
                   else s.inflight)
  }

  // ---- the manager's steps ----

  function NextRequest(s: State): Option<Request> {
    if s.deferred != [] then s.deferred[0] else Head(s.requests)
  }

  function Fetched(s: State): State {
    if s.deferred != [] then s.(deferred := s.deferred[1..]) else s.(requests := Get(s.requests))
  }

  function LifeOf(live: map<int, Life>, ticket: int): Life {
    if ticket in live then live[ticket] else Life(0, 0)
  }

  /** The dispatch of one request, from sm_start_stream, sm_stop_stream and the one-shot branch. */
  function Dispatch(s: State, r: Request, memory: bool): State {
    var next := s.(served := s.served + [r], manager := Sampling(0));
    match r
    case Start(t, life, freq) =>
      var started := StartStream(s.sensors[life.sensor], t, freq, memory);
      next.(sensors := s.sensors[life.sensor := started.sensor],
            live := if memory then s.live[t := life] else s.live,
            manager := if started.added then Sampling(0) else Putting(Stopped(t, life), AfterRequest))
    case Stop(t, life) =>
      (match StopStream(s.sensors[life.sensor], t)
       case NotFound => next
       case NullStream => next.(manager := Faulted)
       case Removed(sensor) =>
         next.(sensors := s.sensors[life.sensor := sensor], live := s.live - {t},
               manager := Putting(Stopped(t, LifeOf(s.live, t)), AfterRequest)))
    case Oneshot(t, sensor) =>
      if s.sensors[sensor].cacheValid then next.(manager := Putting(Answer(t), AfterRequest))
      else next.(sensors := s.sensors[sensor := RegisterOneshot(s.sensors[sensor], t)])
  }

  function ServeNext(s: State, memory: bool): State {
    match NextRequest(s)
    case None => Fetched(s).(manager := Sampling(0))
    case Some(r) => Dispatch(Fetched(s), r, memory)
  }

  /** Where a sample goes next: to the oldest pending one-shot, or to the streams. */
  function Route(sensor: SensorId, x: Sensor, turn: nat): ManagerPc {
    if x.oneshots != [] then Putting(Answer(x.oneshots[0]), AfterOneshot(sensor, turn))
    else Delivering(sensor, 0, turn)
  }

  function ReadSample(s: State, sensor: SensorId): State
    requires s.manager.Sampling?
  {
    var x := s.sensors[sensor];
    var cached := if CarrierTurn(s.manager.turn) then x else Sampled(x);
    s.(sensors := s.sensors[sensor := cached], manager := Route(sensor, x, s.manager.turn))
  }

  /** The next stream gets the sample, and has a packet to send unless its buffer is not full yet. */
  function OfferToStream(s: State, packet: seq<Sample>): State
    requires s.manager.Delivering?
  {
    var pc := s.manager;
    var streams := s.sensors[pc.sensor].streams;
    if pc.k >= |streams| then s.(manager := Sampling(pc.turn + 1))
    else if packet == [] then s.(manager := Delivering(pc.sensor, pc.k + 1, pc.turn))
    else
      var t := streams[pc.k].ticket;
      s.(manager := Putting(Update(t, LifeOf(s.live, t), packet), AfterStream(pc.sensor, pc.k, pc.turn)))
  }

  function Continue(s: State, after: After): State {
    match after
    case AfterRequest => s.(manager := Sampling(0))
    case AfterOneshot(sensor, turn) =>
      var x := s.sensors[sensor];
      var answered := if x.oneshots == [] then x else AnsweredOneshot(x);
      s.(sensors := s.sensors[sensor := answered], manager := Route(sensor, answered, turn))
    case AfterStream(sensor, k, turn) => s.(manager := Delivering(sensor, k + 1, turn))
  }

  /** put_response_buf_item at its lock, and again after the timed wait. */
  function PutResponse(s: State): State
    requires s.manager.Putting?
  {
    var r, after := s.manager.response, s.manager.after;
    if s.responses.wait == TimedOut then s.(responses := LeavePut(s.responses, r), manager := Deferring(r, after))
    else if s.responses.wait == Ready && |s.responses.items| >= SLOTS then s.(responses := EnterPut(s.responses, r))
    else Continue(s.(responses := if s.responses.wait == Ready then EnterPut(s.responses, r)
                                  else LeavePut(s.responses, r),
                     sent := s.sent + [r]), after)
  }

  /** One turn of the timeout loop: a request is fetched from the ring and set aside. */
  function SetAside(cfg: Config, s: State): State
    requires s.manager.Deferring?
  {
    var request := Head(s.requests);
    var next := s.(requests := Get(s.requests), manager := Putting(s.manager.response, s.manager.after));
    match cfg.design
    case Shared => next.(deferred := s.deferred + [request])
    case ByValue => if request.None? then next else next.(lost := s.lost + [request.value])
  }

  function Apply(cfg: Config, s: State, a: Action): State
    requires Enabled(cfg, s, a)
  {
    match a
    case NextRound(work) => s.(server := Net(work))
    case ObserveGet(t, sensor, freq) =>
      Hand(s, Observe(View(s), t, sensor, freq), Start(t, Registered(View(s), t, sensor), freq))
    case PlainGet(t, sensor) => Hand(s, View(s), Oneshot(t, sensor))
    case OnUnregister(t) => Hand(s, View(s), Stop(t, s.lives[t]))
    case Settled(t) => s.(inflight := s.inflight - multiset{t}, server := Net(s.server.left - 1))
    case ServerPut => PutRequest(s)
    case OtherMessage => s.(server := Net(s.server.left - 1))
    case NetworkDone => s.(server := Consuming(0))
    case ConsumeResponse(confirmable) => ConsumeOne(s, confirmable)
    case FetchRequest(memory) => ServeNext(s, memory)
    case RealReading(sensor) => s.(sensors := s.sensors[sensor := Sampled(s.sensors[sensor])])
    case Reading(sensor, _) => ReadSample(s, sensor)
    case NoReading => s.(manager := Sampling(s.manager.turn + 1))
    case NextPass => s.(manager := Fetching)
    case StreamTurn(packet) => OfferToStream(s, packet)
    case ManagerPut => PutResponse(s)
    case WaitExpires => s.(responses := Expire(s.responses))
    case DeferRequest => SetAside(cfg, s)
  }

  predicate IsRun(cfg: Config, s: State, run: seq<Action>)
    decreases run
  {
    run == [] || (Enabled(cfg, s, run[0]) && IsRun(cfg, Apply(cfg, s, run[0]), run[1..]))
  }

  function EndOf(cfg: Config, s: State, run: seq<Action>): State
    requires IsRun(cfg, s, run)
    decreases run
  {
    if run == [] then s else EndOf(cfg, Apply(cfg, s, run[0]), run[1..])
  }
}
