/** The other half of progress: while the server waits on a full request ring, a bounded number of the
    manager's steps frees a slot, and the server's put completes. */
module ServerProgress {
  import opened Events
  import opened RingModel
  import opened SensorModel
  import opened Ledger
  import opened Protocol
  import opened ProtocolInvariants
  import opened ProtocolRuns
  import opened Progress

  // ---- how much there is to deliver ----

  function Size(x: Sensor): nat {
    |x.streams| + |x.oneshots|
  }

  /** All running streams and pending one-shots. */
  function Load(sensors: seq<Sensor>): nat {
    if sensors == [] then 0 else Size(sensors[0]) + Load(sensors[1..])
  }

  lemma {:induction false} LoadAfter(sensors: seq<Sensor>, id: nat, x: Sensor)
    requires id < |sensors|
    ensures Load(sensors[id := x]) == Load(sensors) + Size(x) - Size(sensors[id])
    ensures Size(sensors[id]) <= Load(sensors)
  {
    var after := sensors[id := x];
    if id == 0 {
      assert after[1..] == sensors[1..];
    } else {
      assert after[1..] == sensors[1..][id - 1 := x];
      LoadAfter(sensors[1..], id - 1, x);
    }
  }

  lemma OthersLength(streams: seq<StreamInfo>, ticket: int)
    ensures |Others(streams, ticket)| <= |streams|
  {
    OthersIsDeletion(streams, ticket);
  }

  /** Serving a request adds at most one stream or one-shot. */
  lemma DispatchLoad(f: State, r: Request, memory: bool)
    ensures Load(Dispatch(f, r, memory).sensors) <= Load(f.sensors) + 1
  {
    match r
    case Start(t, life, freq) =>
      var x := f.sensors[life.sensor];
      OthersLength(x.streams, t);
      LoadAfter(f.sensors, life.sensor, StartStream(x, t, freq, memory).sensor);
    case Stop(t, life) => StopLoad(f, t, life, memory);
    case Oneshot(t, id) => LoadAfter(f.sensors, id, RegisterOneshot(f.sensors[id], t));
  }

  lemma StopLoad(f: State, t: int, life: Life, memory: bool)
    ensures Load(Dispatch(f, Stop(t, life), memory).sensors) <= Load(f.sensors)
  {
    var x := f.sensors[life.sensor];
    OthersLength(x.streams, t);
    if StopStream(x, t).Removed? {
      LoadAfter(f.sensors, life.sensor, StopStream(x, t).sensor);
    }
  }

  // ---- the bound ----

  /** More than the steps of one look at a queue, when at most w streams and one-shots are served. */
  function TurnCost(w: nat): nat {
    6 * w + 2
  }

  function PassCost(w: nat): nat {
    TURNS_PER_PASS * TurnCost(w) + 6
  }

  function Times(n: nat, cost: nat): nat {
    if n == 0 then 0 else cost + Times(n - 1, cost)
  }

  /** The steps up to the get from the ring, from the head of the loop with d requests deferred. */
  function FetchCost(d: nat, w: nat): nat {
    1 + Times(d, PassCost(w))
  }

  function TurnsLeft(turn: nat): nat {
    if turn < TURNS_PER_PASS then TURNS_PER_PASS - turn else 0
  }

  function SampleCost(turn: nat, d: nat, w: nat): nat {
    Times(TurnsLeft(turn), TurnCost(w)) + 1 + FetchCost(d, w)
  }

  function DeliverCost(streams: nat, k: nat): nat {
    if k < streams then 6 * (streams - k) + 1 else 1
  }

  /** The puts that are still to come after that of the oldest of so many one-shots. */
  function OneshotCost(oneshots: nat): nat {
    if oneshots == 0 then 0 else 5 * (oneshots - 1)
  }

  function AfterCost(after: After, sensors: Table, d: nat, w: nat): nat {
    match after
    case AfterRequest => SampleCost(0, d, w)
    case AfterOneshot(id, turn) =>
      OneshotCost(|sensors[id].oneshots|) + DeliverCost(|sensors[id].streams|, 0) + SampleCost(turn + 1, d, w)
    case AfterStream(id, k, turn) => DeliverCost(|sensors[id].streams|, k + 1) + SampleCost(turn + 1, d, w)
  }

  /** How many steps a put takes at most before it is done or fetches a request. */
  function WaitCost(wait: Wait): nat {
    match wait
    case Ready => 4
    case Waiting => 3
    case _ => 2
  }

  function PcCost(pc: ManagerPc, wait: Wait, sensors: Table, d: nat, w: nat): nat {
    match pc
    case Fetching => FetchCost(d, w)
    case Sampling(turn) => SampleCost(turn, d, w)
    case Delivering(id, k, turn) => DeliverCost(|sensors[id].streams|, k) + SampleCost(turn + 1, d, w)
    case Putting(_, after) => WaitCost(wait) + AfterCost(after, sensors, d, w)
    case Deferring(_, after) => 1 + AfterCost(after, sensors, d, w)
    case Faulted => 0
  }

  function Cost(s: State, w: nat): nat {
    PcCost(s.manager, s.responses.wait, s.sensors, |s.deferred|, w)
  }

  /** All that the manager may have to serve before it comes to the ring. */
  function Backlog(s: State): nat {
    Load(s.sensors) + |s.deferred|
  }

  predicate Within(s: State, w: nat) {
    Backlog(s) <= w
  }

  // ---- one step of the manager ----

  /** The server's wait is over, and its request is still to be inserted. */
  predicate Freed(s: State, after: State) {
    after.server == s.server && after.issued == s.issued && after.requests.wait == Signalled
  }

  /** The server waits on, and the get from the ring is no further away. */
  predicate Nearer(s: State, after: State, w: nat) {
    && after.server == s.server && after.issued == s.issued && ServerWaits(after) && Within(after, w)
    && Cost(after, w) <= Cost(s, w)
  }

  predicate Helps(s: State, after: State, w: nat) {
    Freed(s, after) || after.manager.Faulted? || (Nearer(s, after, w) && Cost(after, w) < Cost(s, w))
  }

  lemma OnePassLess(d: nat, w: nat)
    requires d > 0
    ensures FetchCost(d, w) == PassCost(w) + FetchCost(d - 1, w)
  {
  }

  lemma OneTurnLess(turn: nat, d: nat, w: nat)
    requires turn < TURNS_PER_PASS
    ensures SampleCost(turn, d, w) == TurnCost(w) + SampleCost(turn + 1, d, w)
  {
  }

  lemma WholePass(w: nat, d: nat)
    ensures SampleCost(0, d, w) == PassCost(w) - 5 + FetchCost(d, w)
  {
    var c := TurnCost(w);
    assert Times(5, c) == c + Times(4, c) && Times(4, c) == c + Times(3, c);
    assert Times(3, c) == c + Times(2, c) && Times(2, c) == c + Times(1, c) && Times(1, c) == c;
  }

  /** Where the dispatch of a request leaves the manager, as far as the bound goes. */
  lemma DispatchCost(f: State, r: Request, memory: bool, w: nat)
    requires f.responses.wait == Ready
    ensures var after := Dispatch(f, r, memory);
            after.manager.Faulted? || Cost(after, w) <= 4 + SampleCost(0, |f.deferred|, w)
  {
    DispatchTouches(f, r, memory);
    var after := Dispatch(f, r, memory);
    assert after.manager.Faulted? || after.manager == Sampling(0)
        || (after.manager.Putting? && after.manager.after == AfterRequest);
  }

  lemma DeferredHelps(s: State, memory: bool, w: nat)
    requires s.manager.Fetching? && ServerWaits(s) && s.deferred != [] && s.responses.wait == Ready && Within(s, w)
    ensures Helps(s, ServeNext(s, memory), w)
  {
    var f := Fetched(s);
    OnePassLess(|s.deferred|, w);
    WholePass(w, |s.deferred| - 1);
    if NextRequest(s).Some? {
      var r := NextRequest(s).value;
      DispatchTouches(f, r, memory);
      DispatchLoad(f, r, memory);
      DispatchCost(f, r, memory, w);
    }
  }

  lemma FetchHelps(s: State, memory: bool, w: nat)
    requires s.manager.Fetching? && ServerWaits(s) && |s.requests.items| == SLOTS
    requires s.responses.wait == Ready && Within(s, w)
    ensures Helps(s, ServeNext(s, memory), w)
  {
    if s.deferred != [] {
      DeferredHelps(s, memory, w);
    } else if NextRequest(s).Some? {
      DispatchTouches(Fetched(s), NextRequest(s).value, memory);
    }
  }

  lemma RouteCost(sensors: Table, id: SensorId, x: Sensor, turn: nat, d: nat, w: nat)
    requires sensors[id] == x && Size(x) <= w
    ensures PcCost(Route(id, x, turn), Ready, sensors, d, w) < TurnCost(w) + SampleCost(turn + 1, d, w)
  {
  }

  lemma ReadingHelps(s: State, id: SensorId, w: nat)
    requires s.manager.Sampling? && s.manager.turn < TURNS_PER_PASS && ServerWaits(s) && s.responses.wait == Ready
    requires Within(s, w)
    ensures Helps(s, ReadSample(s, id), w)
  {
    var x, after := s.sensors[id], ReadSample(s, id);
    LoadAfter(s.sensors, id, after.sensors[id]);
    assert Size(after.sensors[id]) == Size(x) <= w;
    OneTurnLess(s.manager.turn, |s.deferred|, w);
    RouteCost(after.sensors, id, after.sensors[id], s.manager.turn, |s.deferred|, w);
  }

  lemma CachingKeeps(s: State, id: SensorId, w: nat)
    requires s.manager.Sampling? && ServerWaits(s) && Within(s, w)
    ensures Nearer(s, s.(sensors := s.sensors[id := Sampled(s.sensors[id])]), w)
  {
    LoadAfter(s.sensors, id, Sampled(s.sensors[id]));
  }

  lemma TurnHelps(cfg: Config, s: State, a: Action, w: nat)
    requires Enabled(cfg, s, a) && (a.NoReading? || a.NextPass?) && ServerWaits(s) && Within(s, w)
    ensures Helps(s, Apply(cfg, s, a), w)
  {
    if a.NoReading? {
      OneTurnLess(s.manager.turn, |s.deferred|, w);
    }
  }

  lemma StreamTurnHelps(s: State, packet: seq<Sample>, w: nat)
    requires s.manager.Delivering? && ServerWaits(s) && s.responses.wait == Ready && Within(s, w)
    ensures Helps(s, OfferToStream(s, packet), w)
  {
  }

  lemma ContinueCost(s: State, inserted: State, w: nat)
    requires s.manager.Putting? && ManagerOk(s.manager, s.sensors, s.live) && Within(s, w)
    requires inserted.sensors == s.sensors && inserted.deferred == s.deferred && inserted.responses.wait == Ready
    ensures var after := Continue(inserted, s.manager.after);
            Load(after.sensors) <= Load(s.sensors) && Cost(after, w) < Cost(s, w)
  {
    if s.manager.after.AfterOneshot? {
      AnsweredCost(s, inserted, s.manager.after.sensor, s.manager.after.turn, w);
    }
  }

  lemma AnsweredCost(s: State, inserted: State, id: SensorId, turn: nat, w: nat)
    requires s.manager.Putting? && s.manager.after == AfterOneshot(id, turn) && s.sensors[id].oneshots != []
    requires inserted.sensors == s.sensors && inserted.deferred == s.deferred && inserted.responses.wait == Ready
    ensures var after := Continue(inserted, AfterOneshot(id, turn));
            Load(after.sensors) <= Load(s.sensors) && Cost(after, w) < Cost(s, w)
  {
    LoadAfter(s.sensors, id, AnsweredOneshot(s.sensors[id]));
  }

  lemma PutHelps(s: State, w: nat)
    requires s.manager.Putting? && s.responses.wait != Waiting && ManagerOk(s.manager, s.sensors, s.live)
    requires ServerWaits(s) && Within(s, w)
    ensures Helps(s, PutResponse(s), w)
  {
    var r := s.manager.response;
    if s.responses.wait == Ready && |s.responses.items| < SLOTS {
      ContinueCost(s, s.(responses := EnterPut(s.responses, r), sent := s.sent + [r]), w);
    } else if s.responses.wait == Signalled {
      ContinueCost(s, s.(responses := LeavePut(s.responses, r), sent := s.sent + [r]), w);
    }
  }

  lemma DeferFrees(cfg: Config, s: State)
    requires s.manager.Deferring? && ServerWaits(s) && |s.requests.items| == SLOTS
    ensures Freed(s, SetAside(cfg, s))
  {
  }

  lemma ManagerHelpsServer(cfg: Config, s: State, a: Action, w: nat)
    requires Invariant(s) && ServerWaits(s) && Within(s, w) && Enabled(cfg, s, a) && !OfServer(a)
    ensures if a.RealReading? then Nearer(s, Apply(cfg, s, a), w) && Apply(cfg, s, a).manager == s.manager
            else Helps(s, Apply(cfg, s, a), w)
  {
    match a
    case FetchRequest(memory) => FetchHelps(s, memory, w);
    case RealReading(id) => CachingKeeps(s, id, w);
    case Reading(id, _) => ReadingHelps(s, id, w);
    case NoReading => TurnHelps(cfg, s, a, w);
    case NextPass => TurnHelps(cfg, s, a, w);
    case StreamTurn(packet) => StreamTurnHelps(s, packet, w);
    case ManagerPut => PutHelps(s, w);
    case WaitExpires =>
    case DeferRequest => DeferFrees(cfg, s);
  }

  // ---- runs ----

  /** A step of the manager other than caching one more reading of an event-based sensor. */
  predicate Moves(a: Action) {
    !OfServer(a) && !a.RealReading?
  }

  /** In every window of so many steps the manager moves: no flood of event-based readings holds it up. */
  predicate Brisk(run: seq<Action>, window: nat) {
    forall i: nat :: i + window <= |run| ==> MovesWithin(run, i, window)
  }

  predicate MovesWithin(run: seq<Action>, i: nat, window: nat)
    requires i + window <= |run|
  {
    exists j :: i <= j < i + window && Moves(run[j])
  }

  /** While the server waits only the manager can take a step. */
  lemma WaitingStep(cfg: Config, s: State, a: Action, w: nat)
    requires Reachable(cfg, s) && ServerWaits(s) && Within(s, w) && Enabled(cfg, s, a)
    ensures Reachable(cfg, Apply(cfg, s, a)) && !OfServer(a)
    ensures if Moves(a) then Helps(s, Apply(cfg, s, a), w) else Nearer(s, Apply(cfg, s, a), w)
  {
    ReachableKeepsAll(cfg, s);
    ReachNext(cfg, s, a);
    assert !OfServer(a);
    ManagerHelpsServer(cfg, s, a, w);
  }

  lemma {:induction false} MoveComes(cfg: Config, states: seq<State>, run: seq<Action>, i: nat, n: nat, w: nat)
    returns (j: nat)
    requires IsTrace(cfg, states, run) && i + n <= |run| && MovesWithin(run, i, n)
    requires Reachable(cfg, states[i]) && ServerWaits(states[i]) && Within(states[i], w)
    ensures i < j <= i + n && Reachable(cfg, states[j]) && Helps(states[i], states[j], w)
    decreases n
  {
    assert Follows(cfg, states[i], run[i], states[i + 1]);
    WaitingStep(cfg, states[i], run[i], w);
    if Moves(run[i]) {
      j := i + 1;
    } else {
      var k :| i <= k < i + n && Moves(run[k]);
      assert k != i && MovesWithin(run, i + 1, n - 1);
      j := MoveComes(cfg, states, run, i + 1, n - 1, w);
    }
  }

  /** A run that is long enough for a bound is long enough for a smaller one after a window of it. */
  lemma RoomAfter(window: nat, cost: nat, length: nat, j: nat)
    requires length >= window * (cost + 1) && j <= window
    ensures length >= window
    ensures cost > 0 ==> j + window <= length && length - j >= window * cost
  {
    AtLeastOnce(window, cost + 1);
    if cost > 0 {
      OneFewer(window, cost, cost + 1);
      AtLeastOnce(window, cost);
    }
  }

  lemma CostsOne(s: State, w: nat)
    requires !s.manager.Faulted?
    ensures Cost(s, w) > 0
  {
  }

  /** The server's part is over, one way or the other. */
  predicate Released(s: State, after: State) {
    Freed(s, after) || after.manager.Faulted?
  }

  lemma {:induction false} ReleaseComes(cfg: Config, states: seq<State>, run: seq<Action>, window: nat, w: nat,
                                        i: nat, cost: nat)
    returns (k: nat)
    requires IsTrace(cfg, states, run) && Brisk(run, window) && i <= |run|
    requires Reachable(cfg, states[i]) && ServerWaits(states[i]) && Within(states[i], w) && Cost(states[i], w) <= cost
    requires |run| - i >= window * (cost + 1)
    ensures i <= k && k + window <= |run| && Released(states[i], states[k])
    decreases cost
  {
    RoomAfter(window, cost, |run| - i, 0);
    if states[i].manager.Faulted? {
      k := i;
    } else {
      CostsOne(states[i], w);
      assert MovesWithin(run, i, window);
      var j := MoveComes(cfg, states, run, i, window, w);
      RoomAfter(window, cost, |run| - i, j - i);
      if Released(states[i], states[j]) {
        k := j;
      } else {
        k := ReleaseComes(cfg, states, run, window, w, j, cost - 1);
      }
    }
  }

  /** The request that the server had in hand is in the ring. */
  predicate RequestPut(s: State, after: State) {
    s.server.Handing? && after.issued == s.issued + [s.server.request]
  }

  /** A step after the wakeup either is the server's put or leaves it to be done. */
  lemma WokenStep(cfg: Config, s: State, now: State, a: Action)
    requires s.server.Handing? && Freed(s, now) && Enabled(cfg, now, a)
    ensures if OfServer(a) then RequestPut(s, Apply(cfg, now, a)) else Freed(s, Apply(cfg, now, a))
  {
    if a.FetchRequest? && NextRequest(now).Some? {
      DispatchTouches(Fetched(now), NextRequest(now).value, a.memory);
    }
  }

  lemma {:induction false} WokenPuts(cfg: Config, s: State, states: seq<State>, run: seq<Action>, i: nat, n: nat)
    returns (j: nat)
    requires IsTrace(cfg, states, run) && i + n <= |run| && s.server.Handing? && Freed(s, states[i])
    requires exists k :: i <= k < i + n && ServerActsOrWaits(states, run, k)
    ensures i <= j <= i + n && RequestPut(s, states[j])
    decreases n
  {
    assert Follows(cfg, states[i], run[i], states[i + 1]);
    WokenStep(cfg, s, states[i], run[i]);
    if OfServer(run[i]) {
      j := i + 1;
    } else {
      var k :| i <= k < i + n && ServerActsOrWaits(states, run, k);
      assert k != i;
      j := WokenPuts(cfg, s, states, run, i + 1, n - 1);
    }
  }

  predicate PutOrFaulted(s: State, after: State) {
    RequestPut(s, after) || after.manager.Faulted?
  }

  /** While the server waits on a full request ring, every fair run that is not flooded with event-based
      readings puts its request within a bound in the streams, the pending one-shots and the requests
      deferred, unless the manager faults on the way. */
  lemma ServerPutCompletes(cfg: Config, states: seq<State>, run: seq<Action>, window: nat)
    requires IsTrace(cfg, states, run) && Fair(states, run, window) && Brisk(run, window)
    requires Reachable(cfg, states[0]) && ServerWaits(states[0])
    requires |run| >= window * (Cost(states[0], Backlog(states[0])) + 1)
    ensures exists i: nat :: i <= |run| && PutOrFaulted(states[0], states[i])
  {
    var s := states[0];
    ReachableSides(cfg, s);
    var i := ReleaseComes(cfg, states, run, window, Backlog(s), 0, Cost(s, Backlog(s)));
    if Freed(s, states[i]) {
      assert FairAt(states, run, window, i);
      i := WokenPuts(cfg, s, states, run, i, window);
    }
    assert PutOrFaulted(s, states[i]);
  }
}
