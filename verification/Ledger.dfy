/** Who holds references to registrations, without threads, rings or waits.

    A ticket is the address of a registration.  Addresses are reused, so every registration at an
    address gets a life number; the numbers are bookkeeping of the model and no step of the code
    depends on them. */
module Ledger {
  import opened Events
  import opened SensorModel

  datatype Life = Life(number: nat, sensor: SensorId)

  datatype Request =
    | Start(ticket: int, life: Life, freq: int)
    | Stop(ticket: int, life: Life)
    | Oneshot(ticket: int, sensor: SensorId)

  datatype Response =
    | Update(ticket: int, life: Life, packet: seq<Sample>)
    | Stopped(ticket: int, life: Life)
    | Answer(ticket: int)

  /** `lives` is the latest registration at each address.  `owed` counts the references the server
      checked out for the manager (one a START) and has not released (one a STREAM_STOPPED);
      `inflight` those of unsettled confirmable messages.  `live` maps the ticket of each running
      stream to the life it was started in.  `pending` are the requests not yet served, `responses`
      those not yet consumed, both oldest first; `lost` are requests that will never be served. */
  datatype Ledger = Ledger(
    lives: map<int, Life>, owed: multiset<int>, inflight: multiset<int>,
    live: map<int, Life>, pending: seq<Request>, lost: seq<Request>, responses: seq<Response>)

  /** A registration exists while its reference count is not zero. */
  predicate Alive(l: Ledger, ticket: int) {
    ticket in l.owed || ticket in l.inflight
  }

  function Starts(requests: seq<Request>): multiset<int> {
    if requests == [] then multiset{}
    else (if requests[0].Start? then multiset{requests[0].ticket} else multiset{}) + Starts(requests[1..])
  }

  function Stops(responses: seq<Response>): multiset<int> {
    if responses == [] then multiset{}
    else (if responses[0].Stopped? then multiset{responses[0].ticket} else multiset{}) + Stops(responses[1..])
  }

  // ---- events ----

  function Registered(l: Ledger, ticket: int, sensor: SensorId): Life {
    if Alive(l, ticket) && ticket in l.lives then l.lives[ticket]
    else Life(if ticket in l.lives then l.lives[ticket].number + 1 else 0, sensor)
  }

  /** GET with an observe option: look up or create the registration, check it out, request a START. */
  function Observe(l: Ledger, ticket: int, sensor: SensorId, freq: int): Ledger {
    var life := Registered(l, ticket, sensor);
    l.(lives := l.lives[ticket := life], owed := l.owed + multiset{ticket},
       pending := l.pending + [Start(ticket, life, freq)])
  }

  function Ask(l: Ledger, ticket: int, sensor: SensorId): Ledger {
    l.(pending := l.pending + [Oneshot(ticket, sensor)])
  }

  /** on_unregister of an existing registration: request a STOP, without a checkout. */
  function Unregister(l: Ledger, ticket: int): Ledger
    requires ticket in l.lives
  {
    l.(pending := l.pending + [Stop(ticket, l.lives[ticket])])
  }

  /** A confirmable message is acknowledged or given up. */
  function Settle(l: Ledger, ticket: int): Ledger {
    l.(inflight := l.inflight - multiset{ticket})
  }

  /** The manager serves the oldest request; `memory` and `cached` are what sm_new_stream and the
      sensor's cache answer. */
  function Serve(l: Ledger, memory: bool, cached: bool): Ledger
    requires l.pending != []
  {
    var r, rest := l.pending[0], l.(pending := l.pending[1..]);
    match r
    case Start(t, life, _) =>
      var live := if memory then l.live[t := life] else l.live;
      if memory && t !in l.live then rest.(live := live)
      else rest.(live := live, responses := l.responses + [Stopped(t, life)])
    case Stop(t, _) =>
      if t !in l.live then rest
      else rest.(live := l.live - {t}, responses := l.responses + [Stopped(t, l.live[t])])
    case Oneshot(t, _) =>
      if cached then rest.(responses := l.responses + [Answer(t)]) else rest
  }

  /** The oldest request goes, and nothing is done for it. */
  function Lose(l: Ledger): Ledger
    requires l.pending != []
  {
    l.(pending := l.pending[1..], lost := l.lost + [l.pending[0]])
  }

  /** The stop that reads past the end of the stream list: no later step is defined. */
  function Skip(l: Ledger): Ledger
    requires l.pending != []
  {
    l.(pending := l.pending[1..])
  }

  function SendUpdate(l: Ledger, ticket: int, packet: seq<Sample>): Ledger
    requires ticket in l.live
  {
    l.(responses := l.responses + [Update(ticket, l.live[ticket], packet)])
  }

  function Reply(l: Ledger, ticket: int): Ledger {
    l.(responses := l.responses + [Answer(ticket)])
  }

  /** The server consumes the oldest response: STREAM_STOPPED releases a reference of the manager's,
      and STREAM_UPDATE checks one out when the notification is sent as a confirmable message. */
  function Consume(l: Ledger, confirmable: bool): Ledger
    requires l.responses != []
  {
    var r, rest := l.responses[0], l.(responses := l.responses[1..]);
    match r
    case Stopped(t, _) => rest.(owed := l.owed - multiset{t})
    case Update(t, _, _) => if confirmable then rest.(inflight := l.inflight + multiset{t}) else rest
    case Answer(_) => rest
  }

  // ---- what every event keeps ----

  /** Each reference owed is accounted for once: by an unserved START, a lost one, a running stream or
      an unconsumed STREAM_STOPPED. */
  predicate Conserved(owed: multiset<int>, pending: seq<Request>, lost: seq<Request>, live: set<int>,
                      responses: seq<Response>)
  {
    owed == Starts(pending) + Starts(lost) + multiset(live) + Stops(responses)
  }

  predicate Known(tickets: multiset<int>, lives: map<int, Life>) {
    forall t :: t in tickets ==> t in lives
  }

  predicate LiveIsCurrent(live: map<int, Life>, lives: map<int, Life>) {
    forall t :: t in live ==> t in lives && live[t] == lives[t]
  }

  predicate OfLife(r: Request, lives: map<int, Life>) {
    r.Oneshot? || (r.ticket in lives && r.life == lives[r.ticket])
  }

  /** Behind a START of a ticket, and behind a running stream, only requests of that same life. */
  predicate Anchored(pending: seq<Request>, live: map<int, Life>, lives: map<int, Life>) {
    && (forall i, j :: (0 <= i <= j < |pending| && pending[i].Start? && pending[i].ticket == pending[j].ticket)
                       ==> OfLife(pending[j], lives))
    && (forall j :: (0 <= j < |pending| && pending[j].ticket in live) ==> OfLife(pending[j], lives))
  }

  predicate ResponseCurrent(r: Response, lives: map<int, Life>) {
    r.Answer? || (r.ticket in lives && r.life == lives[r.ticket])
  }

  predicate ResponsesCurrent(responses: seq<Response>, lives: map<int, Life>) {
    forall i :: 0 <= i < |responses| ==> ResponseCurrent(responses[i], lives)
  }

  predicate StopFollows(responses: seq<Response>, i: nat, ticket: int) {
    exists j :: i < j < |responses| && responses[j].Stopped? && responses[j].ticket == ticket
  }

  /** Every queued UPDATE still has a running stream, or a STREAM_STOPPED of its ticket behind it. */
  predicate UpdatesCovered(responses: seq<Response>, live: map<int, Life>) {
    forall i :: 0 <= i < |responses| && responses[i].Update? ==>
      responses[i].ticket in live || StopFollows(responses, i, responses[i].ticket)
  }

  predicate Sound(l: Ledger) {
    && Conserved(l.owed, l.pending, l.lost, l.live.Keys, l.responses)
    && Known(l.owed, l.lives)
    && Known(l.inflight, l.lives)
    && LiveIsCurrent(l.live, l.lives)
    && Anchored(l.pending, l.live, l.lives)
    && ResponsesCurrent(l.responses, l.lives)
    && UpdatesCovered(l.responses, l.live)
  }

  lemma {:induction false} StartsAppend(q: seq<Request>, r: Request)
    ensures Starts(q + [r]) == Starts(q) + if r.Start? then multiset{r.ticket} else multiset{}
  {
    if q == [] {
      assert q + [r] == [r];
    } else {
      assert (q + [r])[1..] == q[1..] + [r];
      StartsAppend(q[1..], r);
    }
  }

  lemma {:induction false} StopsAppend(q: seq<Response>, r: Response)
    ensures Stops(q + [r]) == Stops(q) + if r.Stopped? then multiset{r.ticket} else multiset{}
  {
    if q == [] {
      assert q + [r] == [r];
    } else {
      assert (q + [r])[1..] == q[1..] + [r];
      StopsAppend(q[1..], r);
    }
  }

  lemma {:induction false} StartCounts(q: seq<Request>, i: nat)
    requires i < |q| && q[i].Start?
    ensures q[i].ticket in Starts(q)
  {
    if i == 0 {
    } else {
      StartCounts(q[1..], i - 1);
    }
  }

  lemma {:induction false} StopCounts(q: seq<Response>, i: nat)
    requires i < |q| && q[i].Stopped?
    ensures q[i].ticket in Stops(q)
  {
    if i == 0 {
    } else {
      StopCounts(q[1..], i - 1);
    }
  }

  /** A ticket nobody owes has no START pending, no stream, no UPDATE and no STREAM_STOPPED queued. */
  lemma UnowedIsForgotten(l: Ledger, ticket: int)
    requires Sound(l) && ticket !in l.owed
    ensures ticket !in l.live
    ensures forall i :: 0 <= i < |l.pending| && l.pending[i].Start? ==> l.pending[i].ticket != ticket
    ensures forall i :: 0 <= i < |l.responses| && !l.responses[i].Answer? ==> l.responses[i].ticket != ticket
  {
    forall i | 0 <= i < |l.pending| && l.pending[i].Start?
      ensures l.pending[i].ticket != ticket
    {
      StartCounts(l.pending, i);
    }
    forall i | 0 <= i < |l.responses| && l.responses[i].Stopped?
      ensures l.responses[i].ticket != ticket
    {
      StopCounts(l.responses, i);
    }
  }

  lemma AnchoredAppend(pending: seq<Request>, r: Request, live: map<int, Life>, lives: map<int, Life>)
    requires Anchored(pending, live, lives) && OfLife(r, lives)
    ensures Anchored(pending + [r], live, lives)
  {
  }

  lemma AnchoredTail(pending: seq<Request>, live: map<int, Life>, lives: map<int, Life>)
    requires pending != [] && Anchored(pending, live, lives)
    ensures Anchored(pending[1..], live, lives)
  {
    assert forall j :: 0 <= j < |pending| - 1 ==> pending[1..][j] == pending[j + 1];
  }

  /** Serving the START at the head of the queue turns one anchor into the other. */
  lemma AnchoredServed(pending: seq<Request>, live: map<int, Life>, lives: map<int, Life>)
    requires pending != [] && pending[0].Start? && Anchored(pending, live, lives)
    ensures Anchored(pending[1..], live[pending[0].ticket := pending[0].life], lives)
  {
    assert forall j :: 0 <= j < |pending| - 1 ==> pending[1..][j] == pending[j + 1];
  }

  /** A new life changes nothing for the requests and responses of other tickets. */
  lemma NewLifeKeepsAnchored(l: Ledger, ticket: int, life: Life)
    requires Sound(l) && ticket !in l.owed
    ensures Anchored(l.pending, l.live, l.lives[ticket := life])
    ensures LiveIsCurrent(l.live, l.lives[ticket := life])
    ensures ResponsesCurrent(l.responses, l.lives[ticket := life])
  {
    UnowedIsForgotten(l, ticket);
    var lives := l.lives[ticket := life];
    forall i, j | 0 <= i <= j < |l.pending| && l.pending[i].Start? && l.pending[i].ticket == l.pending[j].ticket
      ensures OfLife(l.pending[j], lives)
    {
      assert OfLife(l.pending[j], l.lives);
    }
    forall i | 0 <= i < |l.responses|
      ensures ResponseCurrent(l.responses[i], lives)
    {
      assert ResponseCurrent(l.responses[i], l.lives);
    }
  }

  lemma RegisteredKeeps(l: Ledger, ticket: int, sensor: SensorId)
    requires Sound(l)
    ensures var lives := l.lives[ticket := Registered(l, ticket, sensor)];
            && Anchored(l.pending, l.live, lives) && LiveIsCurrent(l.live, lives)
            && ResponsesCurrent(l.responses, lives) && (Alive(l, ticket) ==> lives == l.lives)
  {
    var life := Registered(l, ticket, sensor);
    if Alive(l, ticket) {
      assert l.lives[ticket := life] == l.lives;
    } else {
      NewLifeKeepsAnchored(l, ticket, life);
    }
  }

  lemma ObserveKeepsSound(l: Ledger, ticket: int, sensor: SensorId, freq: int)
    requires Sound(l)
    ensures Sound(Observe(l, ticket, sensor, freq))
    ensures var lives := Observe(l, ticket, sensor, freq).lives;
            && (Alive(l, ticket) ==> lives == l.lives)
            && (!Alive(l, ticket) && ticket in l.lives ==> l.lives[ticket].number < lives[ticket].number)
  {
    var life := Registered(l, ticket, sensor);
    var start := Start(ticket, life, freq);
    StartsAppend(l.pending, start);
    RegisteredKeeps(l, ticket, sensor);
    AnchoredAppend(l.pending, start, l.live, l.lives[ticket := life]);
  }

  lemma UnregisterKeepsSound(l: Ledger, ticket: int)
    requires Sound(l) && ticket in l.lives
    ensures Sound(Unregister(l, ticket))
  {
    var stop := Stop(ticket, l.lives[ticket]);
    StartsAppend(l.pending, stop);
    AnchoredAppend(l.pending, stop, l.live, l.lives);
  }

  lemma AskKeepsSound(l: Ledger, ticket: int, sensor: SensorId)
    requires Sound(l)
    ensures Sound(Ask(l, ticket, sensor))
  {
    StartsAppend(l.pending, Oneshot(ticket, sensor));
    AnchoredAppend(l.pending, Oneshot(ticket, sensor), l.live, l.lives);
  }

  lemma SettleKeepsSound(l: Ledger, ticket: int)
    requires Sound(l)
    ensures Sound(Settle(l, ticket))
  {
  }

  lemma LoseKeepsSound(l: Ledger)
    requires Sound(l) && l.pending != []
    ensures Sound(Lose(l))
  {
    StartsAppend(l.lost, l.pending[0]);
    AnchoredTail(l.pending, l.live, l.lives);
  }

  lemma SkipKeepsSound(l: Ledger)
    requires Sound(l) && l.pending != [] && l.pending[0].Stop?
    ensures Sound(Skip(l))
  {
    AnchoredTail(l.pending, l.live, l.lives);
  }

  /** A response may join the queue if it is current, and if the only stream that ends with it is the
      one that its STREAM_STOPPED speaks for. */
  lemma RespondKeepsCovered(responses: seq<Response>, r: Response, live: map<int, Life>, live': map<int, Life>)
    requires UpdatesCovered(responses, live)
    requires r.Update? ==> r.ticket in live'
    requires forall t <- live :: t in live' || (r.Stopped? && r.ticket == t)
    ensures UpdatesCovered(responses + [r], live')
  {
    var after := responses + [r];
    forall i | 0 <= i < |after| && after[i].Update?
      ensures after[i].ticket in live' || StopFollows(after, i, after[i].ticket)
    {
      if i < |responses| {
        var t := responses[i].ticket;
        if StopFollows(responses, i, t) {
          var j :| i < j < |responses| && responses[j].Stopped? && responses[j].ticket == t;
          assert after[j] == responses[j];
        } else if t !in live' {
          assert after[|responses|] == r;
        }
      }
    }
  }

  lemma ReplyKeepsSound(l: Ledger, ticket: int)
    requires Sound(l)
    ensures Sound(Reply(l, ticket))
  {
    StopsAppend(l.responses, Answer(ticket));
    RespondKeepsCovered(l.responses, Answer(ticket), l.live, l.live);
  }

  lemma SendUpdateKeepsSound(l: Ledger, ticket: int, packet: seq<Sample>)
    requires Sound(l) && ticket in l.live
    ensures Sound(SendUpdate(l, ticket, packet))
  {
    var r := Update(ticket, l.live[ticket], packet);
    StopsAppend(l.responses, r);
    RespondKeepsCovered(l.responses, r, l.live, l.live);
  }

  /** A START that adds a stream turns its reference into the stream's. */
  lemma NewStreamConserves(owed: multiset<int>, pending: seq<Request>, lost: seq<Request>, live: set<int>,
                           responses: seq<Response>)
    requires Conserved(owed, pending, lost, live, responses)
    requires pending != [] && pending[0].Start? && pending[0].ticket !in live
    ensures Conserved(owed, pending[1..], lost, live + {pending[0].ticket}, responses)
  {
    var t := pending[0].ticket;
    assert Starts(pending) == multiset{t} + Starts(pending[1..]);
    assert multiset(live + {t}) == multiset(live) + multiset{t};
  }

  /** A START that adds none gives its reference back with a STREAM_STOPPED. */
  lemma ReturnedStartConserves(owed: multiset<int>, pending: seq<Request>, lost: seq<Request>, live: set<int>,
                               responses: seq<Response>, r: Response)
    requires Conserved(owed, pending, lost, live, responses)
    requires pending != [] && pending[0].Start? && r.Stopped? && r.ticket == pending[0].ticket
    ensures Conserved(owed, pending[1..], lost, live, responses + [r])
  {
    StopsAppend(responses, r);
    assert Starts(pending) == multiset{r.ticket} + Starts(pending[1..]);
  }

  /** A STOP that ends a stream passes the stream's reference on to a STREAM_STOPPED. */
  lemma EndedStreamConserves(owed: multiset<int>, pending: seq<Request>, lost: seq<Request>, live: set<int>,
                             responses: seq<Response>, r: Response)
    requires Conserved(owed, pending, lost, live, responses)
    requires pending != [] && pending[0].Stop? && r.Stopped? && r.ticket in live
    ensures Conserved(owed, pending[1..], lost, live - {r.ticket}, responses + [r])
  {
    StopsAppend(responses, r);
    assert live == (live - {r.ticket}) + {r.ticket};
  }

  lemma FailedStartKeepsSound(l: Ledger)
    requires Sound(l) && l.pending != [] && l.pending[0].Start?
    ensures Sound(Serve(l, false, false))
  {
    var r := l.pending[0];
    var answer := Stopped(r.ticket, r.life);
    ReturnedStartConserves(l.owed, l.pending, l.lost, l.live.Keys, l.responses, answer);
    assert OfLife(r, l.lives);
    AnchoredTail(l.pending, l.live, l.lives);
    RespondKeepsCovered(l.responses, answer, l.live, l.live);
  }

  lemma StartKeepsSound(l: Ledger)
    requires Sound(l) && l.pending != [] && l.pending[0].Start?
    ensures Sound(Serve(l, true, false))
  {
    var r := l.pending[0];
    var live := l.live[r.ticket := r.life];
    assert OfLife(r, l.lives);
    AnchoredServed(l.pending, l.live, l.lives);
    if r.ticket in l.live {
      var answer := Stopped(r.ticket, r.life);
      assert live.Keys == l.live.Keys;
      ReturnedStartConserves(l.owed, l.pending, l.lost, l.live.Keys, l.responses, answer);
      RespondKeepsCovered(l.responses, answer, l.live, live);
    } else {
      assert live.Keys == l.live.Keys + {r.ticket};
      NewStreamConserves(l.owed, l.pending, l.lost, l.live.Keys, l.responses);
    }
  }

  lemma ServeStopKeepsSound(l: Ledger)
    requires Sound(l) && l.pending != [] && l.pending[0].Stop?
    ensures Sound(Serve(l, false, false))
  {
    if l.pending[0].ticket in l.live {
      EndedStreamKeepsSound(l);
    } else {
      AnchoredTail(l.pending, l.live, l.lives);
    }
  }

  lemma EndedStreamKeepsSound(l: Ledger)
    requires Sound(l) && l.pending != [] && l.pending[0].Stop? && l.pending[0].ticket in l.live
    ensures Sound(Serve(l, false, false))
  {
    var r := l.pending[0];
    AnchoredTail(l.pending, l.live, l.lives);
    var live, answer := l.live - {r.ticket}, Stopped(r.ticket, l.live[r.ticket]);
    assert live.Keys == l.live.Keys - {r.ticket};
    EndedStreamConserves(l.owed, l.pending, l.lost, l.live.Keys, l.responses, answer);
    RespondKeepsCovered(l.responses, answer, l.live, live);
  }

  lemma ServeOneshotKeepsSound(l: Ledger, cached: bool)
    requires Sound(l) && l.pending != [] && l.pending[0].Oneshot?
    ensures Sound(Serve(l, false, cached))
  {
    AnchoredTail(l.pending, l.live, l.lives);
    ReplyKeepsSound(l.(pending := l.pending[1..]), l.pending[0].ticket);
  }

  lemma ServeKeepsSound(l: Ledger, memory: bool, cached: bool)
    requires Sound(l) && l.pending != []
    ensures Sound(Serve(l, memory, cached))
  {
    match l.pending[0]
    case Start(_, _, _) => if memory { StartKeepsSound(l); } else { FailedStartKeepsSound(l); }
    case Stop(_, _) => ServeStopKeepsSound(l);
    case Oneshot(_, _) => ServeOneshotKeepsSound(l, cached);
  }

  /** The manager still holds a reference to the registration that the oldest response names, and it is
      the registration the response was made for. */
  lemma OldestResponseIsHeld(l: Ledger)
    requires Sound(l) && l.responses != [] && !l.responses[0].Answer?
    ensures var r := l.responses[0];
            r.ticket in l.owed && r.ticket in l.lives && r.life == l.lives[r.ticket]
  {
    var r := l.responses[0];
    assert ResponseCurrent(r, l.lives);
    if r.Stopped? {
      StopCounts(l.responses, 0);
    } else if StopFollows(l.responses, 0, r.ticket) {
      var j :| 0 < j < |l.responses| && l.responses[j].Stopped? && l.responses[j].ticket == r.ticket;
      StopCounts(l.responses, j);
    }
  }

  lemma CoveredTail(responses: seq<Response>, live: map<int, Life>)
    requires responses != [] && UpdatesCovered(responses, live)
    ensures UpdatesCovered(responses[1..], live)
  {
    var after := responses[1..];
    forall i | 0 <= i < |after| && after[i].Update?
      ensures after[i].ticket in live || StopFollows(after, i, after[i].ticket)
    {
      var t := after[i].ticket;
      assert responses[i + 1] == after[i];
      if StopFollows(responses, i + 1, t) {
        var j :| i + 1 < j < |responses| && responses[j].Stopped? && responses[j].ticket == t;
        assert after[j - 1] == responses[j];
      }
    }
  }

  lemma ConsumeConserves(l: Ledger)
    requires Conserved(l.owed, l.pending, l.lost, l.live.Keys, l.responses) && l.responses != []
    ensures var owed := l.owed - if l.responses[0].Stopped? then multiset{l.responses[0].ticket} else multiset{};
            Conserved(owed, l.pending, l.lost, l.live.Keys, l.responses[1..])
  {
    var held := Starts(l.pending) + Starts(l.lost) + multiset(l.live.Keys);
    var mine := if l.responses[0].Stopped? then multiset{l.responses[0].ticket} else multiset{};
    assert Stops(l.responses) == mine + Stops(l.responses[1..]);
    assert held + (mine + Stops(l.responses[1..])) - mine == held + Stops(l.responses[1..]);
  }

  lemma ConsumeKeepsSound(l: Ledger, confirmable: bool)
    requires Sound(l) && l.responses != []
    ensures Sound(Consume(l, confirmable))
  {
    if !l.responses[0].Answer? {
      OldestResponseIsHeld(l);
    }
    CoveredTail(l.responses, l.live);
    ConsumeConserves(l);
    assert l.owed - multiset{} == l.owed;
  }

  /** A STOP removes only a stream of the registration it was requested for: the address may have been
      reused since, but then a later stream at that address cannot be running yet. */
  lemma StopIsOfStreamsLife(l: Ledger)
    requires Sound(l) && l.pending != [] && l.pending[0].Stop? && l.pending[0].ticket in l.live
    ensures l.pending[0].life == l.live[l.pending[0].ticket] == l.lives[l.pending[0].ticket]
  {
    assert OfLife(l.pending[0], l.lives);
  }

  /** With everything served and consumed, the manager owes exactly the references of the running streams
      and of the STARTs that were lost. */
  lemma QuiescentDebt(l: Ledger)
    requires Sound(l) && l.pending == [] && l.responses == []
    ensures l.owed == Starts(l.lost) + multiset(l.live.Keys)
    ensures l.owed == multiset{} <==> (forall r <- l.lost :: !r.Start?) && l.live == map[]
  {
    forall i | 0 <= i < |l.lost| && l.lost[i].Start?
      ensures l.lost[i].ticket in Starts(l.lost)
    {
      StartCounts(l.lost, i);
    }
    if forall r <- l.lost :: !r.Start? {
      NoStarts(l.lost);
    }
    forall t <- l.live
      ensures t in multiset(l.live.Keys)
    {
    }
    assert l.live == map[] ==> multiset(l.live.Keys) == multiset{};
  }

  /** The references of some requests are among those of any longer list. */
  lemma {:induction false} StartsOfPrefix(q: seq<Request>, n: nat)
    requires n <= |q|
    ensures Starts(q[..n]) <= Starts(q)
    decreases |q| - n
  {
    if n == |q| {
      assert q[..n] == q;
    } else {
      assert q[..n + 1] == q[..n] + [q[n]];
      StartsAppend(q[..n], q[n]);
      StartsOfPrefix(q, n + 1);
    }
  }

  lemma {:induction false} NoStarts(q: seq<Request>)
    requires forall r <- q :: !r.Start?
    ensures Starts(q) == multiset{}
  {
    if q == [] {
    } else {
      assert q[0] in q;
      assert forall r <- q[1..] :: r in q;
      NoStarts(q[1..]);
    }
  }
}
