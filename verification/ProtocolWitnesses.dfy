/** Runs that end where the code should not: the states the exact conditions of the other modules speak
    of are reachable, with no more than what one call of a handler puts in a round of the server. */
module ProtocolWitnesses {
  import opened Events
  import opened RingModel
  import opened SensorModel
  import opened Ledger
  import opened Protocol
  import opened ProtocolConditions
  import opened ProtocolRuns

  const ACCELEROMETER: SensorId := 1
  const SAMPLE: SensorEvent := SensorEvent(1, 0, [])

  lemma Take(cfg: Config, s: State, a: Action) returns (after: State)
    requires Reachable(cfg, s) && Enabled(cfg, s, a)
    ensures Reachable(cfg, after) && after == Apply(cfg, s, a)
  {
    after := Apply(cfg, s, a);
    ReachNext(cfg, s, a);
  }

  // ---- rounds and passes in which nothing happens ----

  lemma AtRest(cfg: Config) returns (s: State)
    ensures Reachable(cfg, s) && s == Initial()
  {
    s := Initial();
    assert Reaches(cfg, [], s);
  }

  /** The manager looks at its queues once more, finds nothing and comes back to its requests. */
  lemma IdlePass(cfg: Config, s: State) returns (after: State)
    requires Reachable(cfg, s) && s.manager == Sampling(0)
    ensures Reachable(cfg, after) && after == s.(manager := Fetching)
  {
    after := s;
    var turn := 0;
    while turn < TURNS_PER_PASS
      invariant turn <= TURNS_PER_PASS
      invariant Reachable(cfg, after) && after == s.(manager := Sampling(turn))
    {
      after := Take(cfg, after, NoReading);
      turn := turn + 1;
    }
    after := Take(cfg, after, NextPass);
  }

  predicate BetweenRounds(s: State) {
    s.server == Consuming(RESPONSES_PER_ROUND) && s.responses == Ring([], Ready)
  }

  /** The server is done with the network and finds no response. */
  lemma CloseRound(cfg: Config, s: State) returns (after: State)
    requires Reachable(cfg, s) && s.server == Net(0) && s.responses == Ring([], Ready)
    ensures Reachable(cfg, after) && after == s.(server := Consuming(RESPONSES_PER_ROUND))
  {
    after := Take(cfg, s, NetworkDone);
    var done := 0;
    while done < RESPONSES_PER_ROUND
      invariant done <= RESPONSES_PER_ROUND
      invariant Reachable(cfg, after) && after == s.(server := Consuming(done))
    {
      after := Take(cfg, after, ConsumeResponse(false));
      done := done + 1;
    }
  }

  // ---- one request in a round ----

  /** The ring after a put into a free slot. */
  function WithRequest(s: State, r: Request): State {
    s.(requests := Ring(s.requests.items + [r], Ready), issued := s.issued + [r])
  }

  predicate RoomFor(s: State) {
    BetweenRounds(s) && s.requests.wait == Ready && |s.requests.items| < SLOTS
  }

  /** A client asks for one sample. */
  lemma AskOnce(cfg: Config, s: State) returns (after: State)
    requires cfg.work >= 1 && Reachable(cfg, s) && RoomFor(s)
    ensures Reachable(cfg, after) && after == WithRequest(s, Oneshot(0, ACCELEROMETER))
  {
    after := Take(cfg, s, NextRound(1));
    after := Take(cfg, after, PlainGet(0, ACCELEROMETER));
    after := Take(cfg, after, ServerPut);
    after := CloseRound(cfg, after);
  }

  function StartOf(t: int, freq: int): Request {
    Request.Start(t, Life(0, ACCELEROMETER), freq)
  }

  /** A client of the accelerometer becomes an observer, or asks again; the server is still in the network
      phase of its round. */
  lemma ObserveOnce(cfg: Config, s: State, t: int, freq: int) returns (after: State)
    requires cfg.work >= 1 && Reachable(cfg, s) && RoomFor(s) && freq > 0 && s.inflight == multiset{}
    requires (s.lives == map[] && t !in s.owed) || (t in s.owed && s.lives == map[t := Life(0, ACCELEROMETER)])
    ensures Reachable(cfg, after)
    ensures after == WithRequest(s, StartOf(t, freq)).(server := Net(0), owed := s.owed + multiset{t},
                                                       lives := map[t := Life(0, ACCELEROMETER)])
  {
    after := Take(cfg, s, NextRound(1));
    assert after.lives[t := Life(0, ACCELEROMETER)] == map[t := Life(0, ACCELEROMETER)];
    assert Registered(View(after), t, ACCELEROMETER) == Life(0, ACCELEROMETER);
    after := Take(cfg, after, ObserveGet(t, ACCELEROMETER, freq));
    after := Take(cfg, after, ServerPut);
  }

  /** The registration is given up. */
  lemma UnregisterOnce(cfg: Config, s: State, t: int) returns (after: State)
    requires cfg.work >= 1 && Reachable(cfg, s) && RoomFor(s) && t in s.owed && t in s.lives
    ensures Reachable(cfg, after) && after == WithRequest(s, Stop(t, s.lives[t])).(server := Net(0))
  {
    after := Take(cfg, s, NextRound(1));
    after := Take(cfg, after, OnUnregister(t));
    after := Take(cfg, after, ServerPut);
  }

  // ---- single requests gone wrong ----

  predicate Streaming(s: State, t: int, freq: int) {
    s.sensors[ACCELEROMETER] == Sensor(true, false, freq, [StreamInfo(t, freq)], [])
  }

  /** Nothing is under way but one stream of the accelerometer. */
  predicate OneObserver(s: State, t: int, freq: int) {
    && BetweenRounds(s) && s.manager == Fetching && s.deferred == [] && s.lost == []
    && s.requests == Ring([], Ready) && Streaming(s, t, freq)
    && s.lives == map[t := Life(0, ACCELEROMETER)] && s.owed == multiset{t} && s.inflight == multiset{}
  }

  lemma StartObserving(cfg: Config, t: int, freq: int) returns (s: State)
    requires cfg.work >= 1 && freq > 0
    ensures Reachable(cfg, s) && OneObserver(s, t, freq)
  {
    s := AtRest(cfg);
    s := ObserveOnce(cfg, s, t, freq);
    assert s.requests.items == [StartOf(t, freq)];
    s := CloseRound(cfg, s);
    s := ServeStart(cfg, s, t, freq);
  }

  lemma ServeStart(cfg: Config, before: State, t: int, freq: int) returns (s: State)
    requires Reachable(cfg, before) && before.manager == Fetching && before.deferred == []
    requires before.requests == Ring([StartOf(t, freq)], Ready) && before.sensors == Initial().sensors
    ensures Reachable(cfg, s) && s.requests == Ring([], Ready) && Streaming(s, t, freq)
    ensures s == before.(requests := s.requests, sensors := s.sensors, live := s.live, served := s.served)
  {
    s := Take(cfg, before, FetchRequest(true));
    assert Streaming(s, t, freq);
    s := IdlePass(cfg, s);
  }

  /** One ticket asks for 20 and then for 10: the sensor goes on at 20. */
  lemma SlowerStartLeavesFrequency(cfg: Config)
    requires cfg.work >= 1
    ensures exists s, id: SensorId :: Reachable(cfg, s) && s.sensors[id].streams != [] && !Exact(s.sensors[id])
  {
    var s := StartObserving(cfg, 1, 20);
    s := ObserveOnce(cfg, s, 1, 10);
    assert s.requests.items == [StartOf(1, 10)];
    s := ServeSlower(cfg, s, 1);
  }

  lemma ServeSlower(cfg: Config, before: State, t: int) returns (s: State)
    requires Reachable(cfg, before) && before.manager == Fetching && before.deferred == []
    requires before.requests == Ring([StartOf(t, 10)], Ready) && Streaming(before, t, 20)
    ensures Reachable(cfg, s) && s.sensors[ACCELEROMETER] == Sensor(true, false, 20, [StreamInfo(t, 10)], [])
  {
    s := Take(cfg, before, FetchRequest(true));
    assert Others([StreamInfo(t, 20)], t) == [];
    assert s.sensors[ACCELEROMETER].streams == [StreamInfo(t, 10)];
  }

  /** Before its fault the manager is at the STOP of the only stream of a sensor with a pending one-shot. */
  predicate AboutToFault(s: State, t: int) {
    && s.manager.Fetching? && s.deferred == [] && s.requests.items != []
    && s.requests.items[0] == Stop(t, Life(0, ACCELEROMETER))
    && s.sensors[ACCELEROMETER].streams == [StreamInfo(t, 10)] && s.sensors[ACCELEROMETER].oneshots != []
  }

  predicate Doomed(s: State, t: int) {
    && s.responses.items == [] && t in s.owed
    && (s.manager.Faulted? || AboutToFault(s, t))
  }

  lemma DoomedStep(cfg: Config, s: State, t: int, a: Action)
    requires Doomed(s, t) && Enabled(cfg, s, a)
    ensures Doomed(Apply(cfg, s, a), t)
  {
    if a.FetchRequest? {
      StopFaultsIff(s.sensors[ACCELEROMETER], t);
    }
  }

  lemma {:induction false} DoomedForEver(cfg: Config, s: State, t: int, run: seq<Action>)
    requires Doomed(s, t) && IsRun(cfg, s, run)
    ensures t in EndOf(cfg, s, run).owed
    decreases run
  {
    if run == [] {
    } else {
      DoomedStep(cfg, s, t, run[0]);
      DoomedForEver(cfg, Apply(cfg, s, run[0]), t, run[1..]);
    }
  }

  lemma PlainGetOfOnlyObserver(cfg: Config, t: int, tid: int) returns (s: State)
    requires cfg.work >= 2
    ensures Reachable(cfg, s) && Doomed(s, t) && AboutToFault(s, t) && s.lost == []
  {
    s := StartObserving(cfg, t, 10);
    s := PlainGetOnce(cfg, s, t, tid);
    s := Take(cfg, s, FetchRequest(true));
    assert s.sensors[ACCELEROMETER] == Sensor(true, false, 10, [StreamInfo(t, 10)], [tid]);
    s := IdlePass(cfg, s);
  }

  /** The fault keeps a reference for ever although no request was lost, and there is no way round it once the
      one-shot is registered and the STOP is next. */
  lemma FaultKeepsItsReference(cfg: Config)
    requires cfg.work >= 2
    ensures exists s, t :: Reachable(cfg, s) && AboutToFault(s, t) && s.lost == [] && OwedForEver(cfg, s, t)
  {
    var t := 1;
    var s := PlainGetOfOnlyObserver(cfg, t, 2);
    forall run | IsRun(cfg, s, run)
      ensures t in EndOf(cfg, s, run).owed
    {
      DoomedForEver(cfg, s, t, run);
    }
    assert OwedForEver(cfg, s, t);
  }

  ghost predicate OwedForEver(cfg: Config, s: State, t: int) {
    forall run :: IsRun(cfg, s, run) ==> t in EndOf(cfg, s, run).owed
  }

  /** A plain GET from the only observer of a sensor that has not produced a sample yet makes the manager
      read a stream that is not there. */
  lemma PlainGetOfOnlyObserverFaults(cfg: Config)
    requires cfg.work >= 2
    ensures exists s :: Reachable(cfg, s) && s.manager.Faulted?
  {
    var s := PlainGetOfOnlyObserver(cfg, 1, 2);
    StopFaultsIff(s.sensors[ACCELEROMETER], 1);
    s := Take(cfg, s, FetchRequest(true));
  }

  /** The handler of a plain GET puts a one-shot, and the STOP of its client's registration. */
  lemma PlainGetOnce(cfg: Config, before: State, t: int, tid: int) returns (s: State)
    requires cfg.work >= 2 && Reachable(cfg, before) && OneObserver(before, t, 10)
    ensures Reachable(cfg, s) && s.manager == Fetching && s.deferred == [] && s.sensors == before.sensors
    ensures s.owed == before.owed && s.responses == before.responses && s.lost == before.lost
    ensures s.requests == Ring([Oneshot(tid, ACCELEROMETER), Stop(t, Life(0, ACCELEROMETER))], Ready)
  {
    s := Take(cfg, before, NextRound(2));
    s := Take(cfg, s, PlainGet(tid, ACCELEROMETER));
    s := Take(cfg, s, ServerPut);
    s := Take(cfg, s, OnUnregister(t));
    s := Take(cfg, s, ServerPut);
  }

  /** The only observer's stream is stopped, and the sensor off; STREAM_STOPPED is in hand. */
  lemma StopObserving(cfg: Config, t: int) returns (s: State)
    requires cfg.work >= 1
    ensures Reachable(cfg, s) && s.manager.Putting? && s.manager.after == AfterRequest
    ensures s.responses == Ring([], Ready) && s.sensors[ACCELEROMETER] == IDLE
  {
    s := StartObserving(cfg, t, 10);
    s := UnregisterOnce(cfg, s, t);
    assert s.requests.items == [Stop(t, Life(0, ACCELEROMETER))];
    s := ServeLastStop(cfg, s, t);
  }

  lemma ServeLastStop(cfg: Config, before: State, t: int) returns (s: State)
    requires Reachable(cfg, before) && before.manager == Fetching && before.deferred == [] && Streaming(before, t, 10)
    requires before.requests == Ring([Stop(t, Life(0, ACCELEROMETER))], Ready)
    ensures Reachable(cfg, s) && s.manager.Putting? && s.manager.after == AfterRequest
    ensures s.responses == before.responses && s.sensors[ACCELEROMETER] == IDLE
  {
    s := Take(cfg, before, FetchRequest(true));
    assert Others([StreamInfo(t, 10)], t) == [];
  }

  /** A sample that was still queued when its sensor was turned off makes the cache of an inactive sensor
      valid. */
  lemma LateSampleFillsInactiveCache(cfg: Config)
    requires cfg.work >= 1
    ensures exists s, id: SensorId :: Reachable(cfg, s) && !CacheOk(s.sensors[id])
  {
    var s := StopObserving(cfg, 1);
    s := Take(cfg, s, ManagerPut);
    s := Take(cfg, s, Reading(ACCELEROMETER, SAMPLE));
    assert s.sensors[ACCELEROMETER] == Sampled(IDLE);
  }

  // ---- both threads blocked ----

  predicate AllAnswers(responses: seq<Response>) {
    forall r <- responses :: r.Answer?
  }

  /** The same registrations, references and streams. */
  predicate SameHoldings(s: State, after: State) {
    && after.lives == s.lives && after.owed == s.owed && after.live == s.live && after.inflight == s.inflight
    && forall id: SensorId :: after.sensors[id].streams == s.sensors[id].streams
  }

  /** Nothing is under way but some one-shots, which wait for the accelerometer's first sample. */
  predicate OnlyOneshots(s: State, n: nat) {
    && BetweenRounds(s) && s.manager == Fetching && s.deferred == [] && s.lost == []
    && s.requests == Ring([], Ready)
    && !s.sensors[ACCELEROMETER].cacheValid && |s.sensors[ACCELEROMETER].oneshots| == n
  }

  lemma AskUncached(cfg: Config, before: State, n: nat) returns (s: State)
    requires cfg.work >= 1 && Reachable(cfg, before) && OnlyOneshots(before, n)
    ensures Reachable(cfg, s) && OnlyOneshots(s, n + 1) && SameHoldings(before, s)
  {
    s := AskOnce(cfg, before);
    assert s.requests.items == [Oneshot(0, ACCELEROMETER)];
    s := RegisterOne(cfg, s);
  }

  lemma RegisterOne(cfg: Config, before: State) returns (s: State)
    requires Reachable(cfg, before) && before.manager == Fetching && before.deferred == []
    requires before.requests == Ring([Oneshot(0, ACCELEROMETER)], Ready) && !before.sensors[ACCELEROMETER].cacheValid
    ensures Reachable(cfg, s)
    ensures var x := RegisterOneshot(before.sensors[ACCELEROMETER], 0);
            s == before.(requests := Ring([], Ready), sensors := before.sensors[ACCELEROMETER := x], served := s.served)
  {
    s := Take(cfg, before, FetchRequest(true));
    assert s.requests.items == [];
    s := IdlePass(cfg, s);
  }

  /** One one-shot more waits than the response ring has slots, and the manager is about to look for samples. */
  predicate Loaded(s: State) {
    && s.manager == Sampling(0) && s.deferred == [] && s.lost == [] && s.responses == Ring([], Ready)
    && |s.sensors[ACCELEROMETER].oneshots| == SLOTS + 1
  }

  lemma RegisterOneshots(cfg: Config, before: State) returns (s: State)
    requires cfg.work >= 1 && Reachable(cfg, before) && OnlyOneshots(before, 0)
    ensures Reachable(cfg, s) && Loaded(s) && SameHoldings(before, s)
    ensures BetweenRounds(s) && s.requests == Ring([], Ready)
  {
    s := before;
    var n := 0;
    while n < SLOTS + 1
      invariant n <= SLOTS + 1
      invariant Reachable(cfg, s) && OnlyOneshots(s, n) && SameHoldings(before, s)
    {
      s := AskUncached(cfg, s, n);
      n := n + 1;
    }
    s := Take(cfg, s, FetchRequest(true));
  }

  /** So many answers are in the ring and the next one is in hand. */
  predicate Answering(s: State, answers: nat) {
    && s.manager.Putting? && s.manager.after == AfterOneshot(ACCELEROMETER, 0) && s.manager.response.Answer?
    && s.deferred == [] && s.lost == []
    && |s.responses.items| == answers <= SLOTS && AllAnswers(s.responses.items)
    && |s.sensors[ACCELEROMETER].oneshots| == SLOTS + 1 - answers
  }

  lemma AnswerOne(cfg: Config, before: State, answers: nat) returns (s: State)
    requires Reachable(cfg, before) && Answering(before, answers) && answers < SLOTS && before.responses.wait == Ready
    ensures Reachable(cfg, s) && Answering(s, answers + 1) && s.responses.wait == Ready && SameHoldings(before, s)
    ensures s.requests == before.requests && s.server == before.server
  {
    s := Take(cfg, before, ManagerPut);
  }

  /** The first sample is answered to everyone, until the response ring is full. */
  lemma Jam(cfg: Config, before: State) returns (s: State)
    requires Reachable(cfg, before) && Loaded(before)
    ensures Reachable(cfg, s) && Answering(s, SLOTS) && s.responses.wait == Waiting && SameHoldings(before, s)
    ensures s.requests == before.requests && s.server == before.server
  {
    s := Take(cfg, before, Reading(ACCELEROMETER, SAMPLE));
    var n := 0;
    while n < SLOTS
      invariant n <= SLOTS
      invariant Reachable(cfg, s) && Answering(s, n) && s.responses.wait == Ready && SameHoldings(before, s)
      invariant s.requests == before.requests && s.server == before.server
    {
      s := AnswerOne(cfg, s, n);
      n := n + 1;
    }
    s := Take(cfg, s, ManagerPut);
  }

  predicate BothBlocked(s: State) {
    s.server.Handing? && s.requests.wait == Waiting && s.manager.Putting? && s.responses.wait == Waiting
  }

  /** Requests pile up while the manager is not scheduled. */
  lemma PileUp(cfg: Config, before: State) returns (s: State)
    requires cfg.work >= 1 && Reachable(cfg, before) && BetweenRounds(before) && before.requests == Ring([], Ready)
    ensures Reachable(cfg, s) && s.server.Handing? && s.requests.wait == Waiting
    ensures s == before.(server := s.server, requests := s.requests, issued := s.issued)
  {
    s := before;
    var n := 0;
    while n < SLOTS
      invariant n <= SLOTS
      invariant Reachable(cfg, s) && s.requests.wait == Ready && |s.requests.items| == n
      invariant s == before.(requests := s.requests, issued := s.issued)
    {
      s := AskOnce(cfg, s);
      n := n + 1;
    }
    s := Take(cfg, s, NextRound(1));
    s := Take(cfg, s, PlainGet(0, ACCELEROMETER));
    s := Take(cfg, s, ServerPut);
  }

  /** The circular wait that the timed put is there to break does occur. */
  lemma BothThreadsCanBlock(cfg: Config)
    requires cfg.work >= 1
    ensures exists s :: Reachable(cfg, s) && BothBlocked(s)
  {
    var s := AtRest(cfg);
    s := RegisterOneshots(cfg, s);
    s := PileUp(cfg, s);
    s := Jam(cfg, s);
  }

  // ---- what the by-value queue loses ----

  /** The wait expires, and the one request in the ring is lost. */
  lemma LoseOnly(cfg: Config, before: State, r: Request) returns (s: State)
    requires cfg.design.ByValue? && Reachable(cfg, before) && Answering(before, SLOTS)
    requires before.responses.wait == Waiting && before.requests == Ring([r], Ready)
    ensures Reachable(cfg, s) && Answering(s.(lost := []), SLOTS) && s.responses.wait == Ready
    ensures SameHoldings(before, s) && s.requests == Ring([], Ready) && s.lost == [r] && s.server == before.server
  {
    s := Take(cfg, before, WaitExpires);
    s := Take(cfg, s, ManagerPut);
    s := Take(cfg, s, DeferRequest);
    assert s.requests.items == [];
  }

  /** The server's loop up to its next look at the response ring. */
  lemma ServerComesRound(cfg: Config, before: State) returns (s: State)
    requires Reachable(cfg, before) && (before.server == Net(0) || before.server.Consuming?)
    ensures Reachable(cfg, s) && s.server.Consuming? && s.server.done < RESPONSES_PER_ROUND
    ensures s == before.(server := s.server)
  {
    s := before;
    if s.server.Consuming? && s.server.done >= RESPONSES_PER_ROUND {
      s := Take(cfg, s, NextRound(0));
    }
    if s.server.Net? {
      s := Take(cfg, s, NetworkDone);
    }
  }

  lemma TakeAnswer(cfg: Config, before: State) returns (s: State)
    requires Reachable(cfg, before) && before.server.Consuming? && before.server.done < RESPONSES_PER_ROUND
    requires before.responses.items != [] && AllAnswers(before.responses.items) && before.responses.wait == Ready
    ensures Reachable(cfg, s) && s.server.Consuming? && AllAnswers(s.responses.items)
    ensures s.responses == Ring(before.responses.items[1..], Ready)
    ensures s == before.(responses := s.responses, server := s.server, received := s.received)
  {
    assert before.responses.items[0] in before.responses.items;
    s := Take(cfg, before, ConsumeResponse(false));
  }

  /** The last one-shot is answered, and no stream has a packet ready. */
  lemma LastAnswer(cfg: Config, before: State) returns (s: State)
    requires Reachable(cfg, before) && before.manager.Putting? && before.manager.after == AfterOneshot(ACCELEROMETER, 0)
    requires before.manager.response.Answer? && |before.sensors[ACCELEROMETER].oneshots| == 1
    requires before.responses.wait == Ready && |before.responses.items| < SLOTS && AllAnswers(before.responses.items)
    ensures Reachable(cfg, s) && s.manager == Sampling(1) && s.responses.wait == Ready && AllAnswers(s.responses.items)
    ensures SameHoldings(before, s) && s.server == before.server && s.requests == before.requests
    ensures s.deferred == before.deferred && s.lost == before.lost
  {
    s := Take(cfg, before, ManagerPut);
    ghost var after := s;
    var k := 0;
    while k < |s.sensors[ACCELEROMETER].streams|
      invariant k <= |after.sensors[ACCELEROMETER].streams|
      invariant Reachable(cfg, s) && s == after.(manager := Delivering(ACCELEROMETER, k, 0))
    {
      s := Take(cfg, s, StreamTurn([]));
      k := k + 1;
    }
    s := Take(cfg, s, StreamTurn([]));
  }

  /** The server takes the answers, the manager puts its last one, and nothing is left to do. */
  lemma Drain(cfg: Config, before: State) returns (s: State)
    requires Reachable(cfg, before) && Answering(before.(lost := []), SLOTS) && before.responses.wait == Ready
    requires before.server == Net(0) && before.requests == Ring([], Ready)
    ensures Reachable(cfg, s) && Quiet(s) && SameHoldings(before, s) && s.lost == before.lost
  {
    s := ServerComesRound(cfg, before);
    s := TakeAnswer(cfg, s);
    s := LastAnswer(cfg, s);
    while s.responses.items != []
      invariant Reachable(cfg, s) && s.server.Consuming? && s.manager == Sampling(1) && s.deferred == []
      invariant s.responses.wait == Ready && AllAnswers(s.responses.items) && s.requests == Ring([], Ready)
      invariant SameHoldings(before, s) && s.lost == before.lost
      decreases |s.responses.items|
    {
      s := ServerComesRound(cfg, s);
      s := TakeAnswer(cfg, s);
    }
  }

  /** From here the last request in the ring is lost. */
  lemma LoseLast(cfg: Config, before: State, r: Request) returns (s: State)
    requires cfg.design.ByValue? && Reachable(cfg, before) && Loaded(before)
    requires before.server == Net(0) && before.requests == Ring([r], Ready)
    ensures Reachable(cfg, s) && Quiet(s) && SameHoldings(before, s) && s.lost == [r]
  {
    s := Jam(cfg, before);
    s := LoseOnly(cfg, s, r);
    s := Drain(cfg, s);
  }

  lemma LoseStart(cfg: Config, t: int) returns (s: State)
    requires cfg.design.ByValue? && cfg.work >= 1
    ensures Reachable(cfg, s) && Quiet(s) && s.lost == [StartOf(t, 10)]
    ensures forall id: SensorId :: s.sensors[id].streams == []
  {
    s := AtRest(cfg);
    s := RegisterOneshots(cfg, s);
    s := ObserveOnce(cfg, s, t, 10);
    assert s.requests.items == [StartOf(t, 10)];
    s := LoseLast(cfg, s, StartOf(t, 10));
  }

  /** As the code has it, breaking the circular wait can lose a request of the server. */
  lemma ByValueLosesARequest(cfg: Config)
    requires cfg.design.ByValue? && cfg.work >= 1
    ensures exists s :: Reachable(cfg, s) && s.lost != []
  {
    var s := LoseStart(cfg, 1);
  }

  /** Nothing runs and nothing is under way, yet the ticket's registration can never be destroyed. */
  ghost predicate Leaked(cfg: Config, s: State, t: int) {
    Quiet(s) && (forall u :: !Running(s, u)) && OwedForEver(cfg, s, t)
  }

  /** If it is a START, a reference is lost with it for ever. */
  lemma LostStartLeaksItsReference(cfg: Config)
    requires cfg.design.ByValue? && cfg.work >= 1
    ensures exists s, t :: Reachable(cfg, s) && Leaked(cfg, s, t)
  {
    var t := 1;
    var s := LoseStart(cfg, t);
    StartCounts(s.lost, 0);
    forall run | IsRun(cfg, s, run)
      ensures t in EndOf(cfg, s, run).owed
    {
      LostStartIsOwedForEver(cfg, s, run);
    }
    assert Leaked(cfg, s, t);
  }

  lemma LoseStop(cfg: Config, t: int) returns (s: State)
    requires cfg.design.ByValue? && cfg.work >= 1
    ensures Reachable(cfg, s) && Quiet(s) && s.owed == multiset{t} && s.lost == [Stop(t, Life(0, ACCELEROMETER))]
    ensures s.sensors[ACCELEROMETER].streams == [StreamInfo(t, 10)]
  {
    s := StartObserving(cfg, t, 10);
    s := RegisterOneshots(cfg, s);
    s := UnregisterOnce(cfg, s, t);
    var r := Stop(t, Life(0, ACCELEROMETER));
    assert s.requests.items == [r];
    s := LoseLast(cfg, s, r);
  }

  /** It can lose a STOP as well: the observer has unregistered and nothing is under way, yet the stream
      goes on and keeps the registration. */
  lemma LostStopLeavesTheStream(cfg: Config)
    requires cfg.design.ByValue? && cfg.work >= 1
    ensures exists s, t :: Reachable(cfg, s) && Quiet(s) && Running(s, t) && s.owed == multiset{t}
                           && s.lost == [Stop(t, Life(0, ACCELEROMETER))]
  {
    var t := 1;
    var s := LoseStop(cfg, t);
    assert StreamInfo(t, 10) in s.sensors[ACCELEROMETER].streams;
    assert Streams(s.sensors[ACCELEROMETER], t);
  }
}
