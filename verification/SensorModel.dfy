/** What starting, stopping and answering do to one sensor of the Streaming Manager, on values. */
module SensorModel {
  /** A running stream: the ticket it answers to and the frequency its client asked for. */
  datatype StreamInfo = StreamInfo(ticket: int, freq: int)

  datatype Sensor = Sensor(active: bool, cacheValid: bool, freq: int, streams: seq<StreamInfo>, oneshots: seq<int>)

  /** ZE_NUMSENSORS, so that Android's sensor types index the table. */
  const SENSORS: nat := 15

  type SensorId = n: nat | n < SENSORS

  const IDLE: Sensor := Sensor(false, false, 0, [], [])

  predicate Streams(s: Sensor, ticket: int) {
    exists x <- s.streams :: x.ticket == ticket
  }

  /** sm_find_stream: the first stream with the ticket, or the length of the list. */
  function Find(streams: seq<StreamInfo>, ticket: int): (k: nat)
    ensures k <= |streams|
    ensures k < |streams| ==> streams[k].ticket == ticket
    ensures forall j :: 0 <= j < k ==> streams[j].ticket != ticket
  {
    if streams == [] || streams[0].ticket == ticket then 0 else 1 + Find(streams[1..], ticket)
  }

  /** The list after LL_DELETE of the stream that sm_find_stream finds, if it finds one. */
  function Others(streams: seq<StreamInfo>, ticket: int): seq<StreamInfo> {
    if streams == [] then []
    else if streams[0].ticket == ticket then streams[1..]
    else [streams[0]] + Others(streams[1..], ticket)
  }

  predicate DistinctTickets(streams: seq<StreamInfo>) {
    forall i, j :: 0 <= i < j < |streams| ==> streams[i].ticket != streams[j].ticket
  }

  lemma {:induction false} OthersIsDeletion(streams: seq<StreamInfo>, ticket: int)
    ensures var k := Find(streams, ticket);
            Others(streams, ticket) == if k < |streams| then streams[..k] + streams[k + 1..] else streams
  {
    if streams == [] || streams[0].ticket == ticket {
    } else {
      var rest := streams[1..];
      OthersIsDeletion(rest, ticket);
      var k := Find(rest, ticket);
      if k < |rest| {
        assert streams[..k + 1] == [streams[0]] + rest[..k] && streams[k + 2..] == rest[k + 1..];
      } else {
        assert streams == [streams[0]] + rest;
      }
    }
  }

  lemma {:induction false} OthersKeepsTheRest(streams: seq<StreamInfo>, ticket: int)
    requires DistinctTickets(streams)
    ensures forall x :: x in Others(streams, ticket) <==> x in streams && x.ticket != ticket
    ensures DistinctTickets(Others(streams, ticket))
  {
    if streams == [] {
    } else {
      assert streams == [streams[0]] + streams[1..];
      OthersKeepsTheRest(streams[1..], ticket);
    }
  }

  function MaxFreq(streams: seq<StreamInfo>): (m: int)
    requires streams != []
    ensures forall x <- streams :: x.freq <= m
    ensures exists x <- streams :: x.freq == m
  {
    var last := streams[|streams| - 1];
    assert streams == streams[..|streams| - 1] + [last];
    if |streams| == 1 then last.freq
    else
      var m := MaxFreq(streams[..|streams| - 1]);
      if last.freq > m then last.freq else m
  }

  /** sm_start_stream.  `added` is whether it returns the new stream: it returns NULL both when it
      replaces a stream and when it could not allocate one. */
  datatype StartResult = Started(sensor: Sensor, added: bool)

  function Activated(s: Sensor, freq: int): Sensor {
    if !s.active then s.(freq := freq, active := true)
    else if freq > s.freq then s.(freq := freq)
    else s
  }

  function StartStream(s: Sensor, ticket: int, freq: int, memory: bool): StartResult {
    if !memory then Started(s, false)
    else
      Started(Activated(s, freq).(streams := Others(s.streams, ticket) + [StreamInfo(ticket, freq)]),
              !Streams(s, ticket))
  }

  /** sm_stop_stream.  `NullStream` is the branch that reads the frequency of the first remaining
      stream when none remains. */
  datatype StopResult = NotFound | NullStream | Removed(sensor: Sensor)

  function TurnedOff(s: Sensor): Sensor {
    s.(active := false, cacheValid := false)
  }

  function StopStream(s: Sensor, ticket: int): StopResult {
    var rest := Others(s.streams, ticket);
    if !Streams(s, ticket) then NotFound
    else if rest == [] && s.oneshots == [] then Removed(TurnedOff(s).(streams := [], freq := 0))
    else if rest == [] then NullStream
    else Removed(s.(streams := rest, freq := MaxFreq(rest)))
  }

  /** A one-shot request that the cache cannot answer. */
  function RegisterOneshot(s: Sensor, ticket: int): Sensor {
    s.(active := true, oneshots := s.oneshots + [ticket])
  }

  /** The oldest pending one-shot has been answered; with nothing left to serve the sensor goes off. */
  function AnsweredOneshot(s: Sensor): Sensor
    requires s.oneshots != []
  {
    var rest := s.(oneshots := s.oneshots[1..]);
    if rest.oneshots == [] && rest.streams == [] then TurnedOff(rest) else rest
  }

  /** Answering the pending one-shots one after the other. */
  function AnsweredAll(s: Sensor): Sensor
    decreases |s.oneshots|
  {
    if s.oneshots == [] then s else AnsweredAll(AnsweredOneshot(s))
  }

  lemma {:induction false} AnsweredAllIs(s: Sensor)
    ensures AnsweredAll(s) == if s.oneshots == [] then s
                              else if s.streams == [] then TurnedOff(s.(oneshots := []))
                              else s.(oneshots := [])
    decreases |s.oneshots|
  {
    if s.oneshots == [] {
    } else {
      AnsweredAllIs(AnsweredOneshot(s));
    }
  }

  function Sampled(s: Sensor): Sensor {
    s.(cacheValid := true)
  }

  // ---- what every operation keeps ----

  /** On exactly when something is to be served, one stream to a ticket, and a frequency that is zero
      without streams and never below what a stream asked for. */
  predicate Consistent(s: Sensor) {
    && (s.active <==> s.streams != [] || s.oneshots != [])
    && DistinctTickets(s.streams)
    && (s.streams == [] ==> s.freq == 0)
    && (forall x <- s.streams :: 0 < x.freq <= s.freq)
  }

  /** The frequency is the header's promise: the maximum of the registered streams. */
  predicate Exact(s: Sensor) {
    s.streams != [] ==> s.freq == MaxFreq(s.streams)
  }

  lemma StartKeepsConsistent(s: Sensor, ticket: int, freq: int, memory: bool)
    requires Consistent(s) && freq > 0
    ensures Consistent(StartStream(s, ticket, freq, memory).sensor)
  {
    OthersKeepsTheRest(s.streams, ticket);
  }

  /** Every stop that leaves the sensor defined keeps it consistent and restores the exact maximum. */
  lemma StopKeepsConsistent(s: Sensor, ticket: int)
    requires Consistent(s) && StopStream(s, ticket).Removed?
    ensures Consistent(StopStream(s, ticket).sensor) && Exact(StopStream(s, ticket).sensor)
  {
    OthersKeepsTheRest(s.streams, ticket);
  }

  lemma OneshotsKeepConsistent(s: Sensor, ticket: int)
    requires Consistent(s)
    ensures Consistent(RegisterOneshot(s, ticket)) && Consistent(Sampled(s))
    ensures s.oneshots != [] ==> Consistent(AnsweredOneshot(s))
  {
  }

  /** A stop reads past the list exactly when its ticket holds the only stream while one-shots wait. */
  lemma StopFaultsIff(s: Sensor, ticket: int)
    ensures StopStream(s, ticket).NullStream? <==>
            |s.streams| == 1 && s.streams[0].ticket == ticket && s.oneshots != []
  {
    OthersIsDeletion(s.streams, ticket);
  }

  /** Starting touches one ticket: it streams afterwards, and every other ticket exactly as before. */
  lemma StartStreamsTicket(s: Sensor, ticket: int, freq: int)
    requires DistinctTickets(s.streams)
    ensures forall t :: Streams(StartStream(s, ticket, freq, true).sensor, t) <==> t == ticket || Streams(s, t)
    ensures StartStream(s, ticket, freq, true).added <==> !Streams(s, ticket)
  {
    OthersKeepsTheRest(s.streams, ticket);
    var after := StartStream(s, ticket, freq, true).sensor;
    assert forall x :: x in after.streams <==>
                       x == StreamInfo(ticket, freq) || (x in s.streams && x.ticket != ticket);
    assert StreamInfo(ticket, freq) in after.streams;
  }

  /** Stopping touches one ticket: it streams no longer, and every other ticket exactly as before. */
  lemma StopForgetsTicket(s: Sensor, ticket: int)
    requires DistinctTickets(s.streams)
    ensures StopStream(s, ticket).NotFound? <==> !Streams(s, ticket)
    ensures StopStream(s, ticket).Removed? ==>
              forall t :: Streams(StopStream(s, ticket).sensor, t) <==> t != ticket && Streams(s, t)
  {
    OthersKeepsTheRest(s.streams, ticket);
  }

  /** Whether a stream other than the ticket's own asks for the frequency the sensor runs at. */
  predicate AnotherAtTop(s: Sensor, ticket: int) {
    exists x <- s.streams :: x.ticket != ticket && x.freq == s.freq
  }

  /** From an exact sensor, a start leaves the frequency exact unless it replaces the only stream that
      asked for the maximum by a slower one: sm_start_stream never lowers the sensor's frequency. */
  lemma StartExactIff(s: Sensor, ticket: int, freq: int)
    requires Consistent(s) && Exact(s) && freq > 0
    ensures Exact(StartStream(s, ticket, freq, true).sensor) <==> freq >= s.freq || AnotherAtTop(s, ticket)
  {
    OthersKeepsTheRest(s.streams, ticket);
    var after := StartStream(s, ticket, freq, true).sensor;
    assert forall x :: x in after.streams <==>
                       x == StreamInfo(ticket, freq) || (x in s.streams && x.ticket != ticket);
    assert StreamInfo(ticket, freq) in after.streams;
  }
}
