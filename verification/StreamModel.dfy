/** Sensor events, their RTP timestamps, and what leaves a stream: bundles, or repeated pairs. */
module Events {
  newtype byte = x: int | 0 <= x < 256

  /** A printed reading: at most 19 characters, so that a NUL fits in its 20-byte field. */
  type Text = t: seq<byte> | |t| <= 19 && 0 !in t

  datatype SensorEvent = SensorEvent(kind: byte, timestamp: int, readings: seq<Text>)

  datatype Sample = Sample(event: SensorEvent, rtpts: int)

  /** The delivery a packet asks for. `Unknown` is any other message type. */
  datatype Reliability = Confirmable | NonConfirmable | Unknown
}

module StreamModel {
  import opened Events

  /** RTP_TSCLOCK_FREQ. */
  const CLOCK: int := 1000

  function Period(freq: int): int
    requires freq > 0
  {
    CLOCK / freq
  }

  /** The n-th event of a stream gets the start timestamp advanced by n periods. */
  function Stamped(events: seq<SensorEvent>, start: int, freq: int): (samples: seq<Sample>)
    requires freq > 0
    ensures |samples| == |events|
  {
    if events == [] then []
    else
      var last := |events| - 1;
      Stamped(events[..last], start, freq) + [Sample(events[last], start + |events| * Period(freq))]
  }

  lemma {:induction false} StampedAt(events: seq<SensorEvent>, start: int, freq: int, i: nat)
    requires freq > 0 && i < |events|
    ensures Stamped(events, start, freq)[i] == Sample(events[i], start + (i + 1) * Period(freq))
  {
    var last := |events| - 1;
    if i == last {
    } else {
      StampedAt(events[..last], start, freq, i);
    }
  }

  lemma StampNext(events: seq<SensorEvent>, event: SensorEvent, start: int, freq: int)
    requires freq > 0
    ensures Stamped(events + [event], start, freq)
         == Stamped(events, start, freq) + [Sample(event, start + |events| * Period(freq) + Period(freq))]
    ensures (|events| + 1) * Period(freq) == |events| * Period(freq) + Period(freq)
  {
    assert (events + [event])[..|events|] == events;
  }

  /** How far the timestamps fall behind a clock of 1000 ticks a second: the division's remainder, once
      for every sample. */
  lemma TimestampDrift(events: seq<SensorEvent>, start: int, freq: int, i: nat)
    requires freq > 0 && i < |events|
    ensures var elapsed := Stamped(events, start, freq)[i].rtpts - start;
            var drift := CLOCK * (i + 1) - freq * elapsed;
            drift == (i + 1) * (CLOCK % freq) && 0 <= drift <= (i + 1) * (freq - 1)
  {
    StampedAt(events, start, freq, i);
    DriftOfProduct(i + 1, freq);
  }

  lemma DriftOfProduct(n: nat, freq: int)
    requires freq > 0
    ensures CLOCK * n - freq * (n * Period(freq)) == n * (CLOCK % freq)
    ensures 0 <= n * (CLOCK % freq) <= n * (freq - 1)
  {
    var p, r := Period(freq), CLOCK % freq;
    assert CLOCK == freq * p + r;
    assert n * (freq * p + r) == n * (freq * p) + n * r;
    assert n * (freq * p) == freq * (n * p) by { Commute(n, freq, p); }
    MulOrder(n, r, freq - 1);
  }

  lemma Commute(a: int, b: int, c: int)
    ensures a * (b * c) == b * (a * c)
  {
  }

  lemma MulOrder(n: nat, a: nat, b: nat)
    requires a <= b
    ensures 0 <= n * a <= n * b
  {
  }

  ghost predicate DriftFree(freq: int)
    requires freq > 0
  {
    forall events: seq<SensorEvent>, start: int, i: nat | i < |events| ::
      freq * (Stamped(events, start, freq)[i].rtpts - start) == CLOCK * (i + 1)
  }

  /** The timestamps follow the clock for ever exactly when the frequency divides it. */
  lemma DriftFreeIff(freq: int)
    requires freq > 0
    ensures DriftFree(freq) <==> CLOCK % freq == 0
  {
    if CLOCK % freq == 0 {
      forall events: seq<SensorEvent>, start: int, i: nat | i < |events|
        ensures freq * (Stamped(events, start, freq)[i].rtpts - start) == CLOCK * (i + 1)
      {
        TimestampDrift(events, start, freq, i);
      }
    }
    if DriftFree(freq) {
      var events := [SensorEvent(1, 0, [])];
      TimestampDrift(events, 0, freq, 0);
      assert freq * (Stamped(events, 0, freq)[0].rtpts - 0) == CLOCK * (0 + 1);
    }
  }

  predicate Increasing(samples: seq<Sample>) {
    forall i, j :: 0 <= i < j < |samples| ==> samples[i].rtpts < samples[j].rtpts
  }

  /** The timestamps tell samples apart exactly up to one sample a tick. */
  lemma IncreasingIff(events: seq<SensorEvent>, start: int, freq: int)
    requires freq > 0 && |events| >= 2
    ensures Increasing(Stamped(events, start, freq)) <==> freq <= CLOCK
  {
    var samples := Stamped(events, start, freq);
    StampedAt(events, start, freq, 0);
    StampedAt(events, start, freq, 1);
    if freq <= CLOCK {
      assert Period(freq) >= 1;
      forall i, j | 0 <= i < j < |samples|
        ensures samples[i].rtpts < samples[j].rtpts
      {
        StampedAt(events, start, freq, i);
        StampedAt(events, start, freq, j);
        MulOrder(j - i, 1, Period(freq));
        assert (j + 1) * Period(freq) == (i + 1) * Period(freq) + (j - i) * Period(freq);
      }
    } else {
      assert Period(freq) == 0;
    }
  }

  // ---- bundles ----

  function Flatten(bundles: seq<seq<Sample>>): seq<Sample> {
    if bundles == [] then [] else Flatten(bundles[..|bundles| - 1]) + bundles[|bundles| - 1]
  }

  lemma FlattenAppend(bundles: seq<seq<Sample>>, last: seq<Sample>)
    ensures Flatten(bundles + [last]) == Flatten(bundles) + last
  {
    assert (bundles + [last])[..|bundles|] == bundles;
  }

  predicate AllOfSize(bundles: seq<seq<Sample>>, size: nat) {
    forall b <- bundles :: |b| == size
  }

  lemma {:induction false} FlattenLength(bundles: seq<seq<Sample>>, size: nat)
    requires AllOfSize(bundles, size)
    ensures |Flatten(bundles)| == size * |bundles|
  {
    if bundles == [] {
    } else {
      var front := bundles[..|bundles| - 1];
      assert bundles[|bundles| - 1] in bundles;
      assert forall b <- front :: b in bundles;
      FlattenLength(front, size);
      MulSucc(size, |front|);
    }
  }

  lemma MulSucc(a: int, n: int)
    ensures a * (n + 1) == a * n + a
  {
  }

  /** The i-th of the consecutive slices of a size. */
  predicate IsSlice(bundle: seq<Sample>, whole: seq<Sample>, size: nat, i: nat) {
    0 <= size * i && size * i + size <= |whole| && bundle == whole[size * i..size * i + size]
  }

  /** Equal bundles of a sequence are its consecutive slices. */
  lemma {:induction false} BundleIsSlice(bundles: seq<seq<Sample>>, rest: seq<Sample>, size: nat, i: nat)
    requires AllOfSize(bundles, size) && i < |bundles|
    ensures IsSlice(bundles[i], Flatten(bundles) + rest, size, i)
  {
    var last := |bundles| - 1;
    var front := bundles[..last];
    assert bundles[last] in bundles;
    FlattenLength(front, size);
    if i < last {
      BundleIsSlice(front, bundles[last] + rest, size, i);
      assert Flatten(front) + (bundles[last] + rest) == Flatten(bundles) + rest;
    } else {
      assert Flatten(bundles) + rest == Flatten(front) + (bundles[last] + rest);
    }
  }

  /** How full a send buffer of that size is after so many samples: it is emptied when it is full. */
  function Level(n: nat, size: nat): (level: nat)
    requires size > 0
    ensures level < size && level <= n
  {
    if n == 0 || Level(n - 1, size) + 1 == size then 0 else Level(n - 1, size) + 1
  }

  lemma {:induction false} LevelOf(bundles: nat, level: nat, size: nat)
    requires size > 0 && level < size
    ensures Level(size * bundles + level, size) == level
    decreases bundles, level
  {
    if level == 0 && bundles == 0 {
    } else if level > 0 {
      LevelOf(bundles, level - 1, size);
    } else {
      LevelOf(bundles - 1, size - 1, size);
      MulSucc(size, bundles - 1);
    }
  }

  lemma LastBundle(bundles: seq<seq<Sample>>, rest: seq<Sample>)
    requires bundles != [] && rest == []
    ensures var whole, last := Flatten(bundles) + rest, bundles[|bundles| - 1];
            |last| <= |whole| && whole[|whole| - |last|..] == last
  {
  }

  /** What a stream with such a buffer sends when it has been given these events: the last bufferful, if that
      is full, and otherwise nothing. */
  function Due(events: seq<SensorEvent>, start: int, freq: int, size: nat): (packet: seq<Sample>)
    requires freq > 0 && size > 0
    ensures packet != [] ==> |packet| == size
  {
    if events == [] || Level(|events|, size) > 0 then []
    else
      assert Level(|events| - 1, size) + 1 == size;
      Stamped(events, start, freq)[|events| - size..]
  }

  /** Everything it has sent by then. */
  function Bundles(events: seq<SensorEvent>, start: int, freq: int, size: nat): seq<seq<Sample>>
    requires freq > 0 && size > 0
  {
    if events == [] then []
    else Bundles(events[..|events| - 1], start, freq, size) + IfAny(Due(events, start, freq, size))
  }

  function IfAny(packet: seq<Sample>): seq<seq<Sample>> {
    if packet == [] then [] else [packet]
  }

  lemma BundlesNext(events: seq<SensorEvent>, event: SensorEvent, start: int, freq: int, size: nat)
    requires freq > 0 && size > 0
    ensures Bundles(events + [event], start, freq, size)
         == Bundles(events, start, freq, size) + IfAny(Due(events + [event], start, freq, size))
  {
    assert (events + [event])[..|events|] == events;
  }

  /** The bundles and the buffer's contents are the stamped events. */
  lemma {:induction false} BundlesAreStamped(events: seq<SensorEvent>, start: int, freq: int, size: nat)
    requires freq > 0 && size > 0
    ensures AllOfSize(Bundles(events, start, freq, size), size)
    ensures Flatten(Bundles(events, start, freq, size))
         == Stamped(events, start, freq)[..|events| - Level(|events|, size)]
  {
    if events == [] {
    } else {
      var last := |events| - 1;
      BundlesAreStamped(events[..last], start, freq, size);
      BundleJoins(events, Bundles(events[..last], start, freq, size), start, freq, size);
    }
  }

  lemma BundleJoins(events: seq<SensorEvent>, bundles: seq<seq<Sample>>, start: int, freq: int, size: nat)
    requires freq > 0 && size > 0 && events != [] && AllOfSize(bundles, size)
    requires var last := |events| - 1;
             Flatten(bundles) == Stamped(events[..last], start, freq)[..last - Level(last, size)]
    ensures var after := bundles + IfAny(Due(events, start, freq, size));
            && AllOfSize(after, size)
            && Flatten(after) == Stamped(events, start, freq)[..|events| - Level(|events|, size)]
  {
    var last := |events| - 1;
    var samples, due := Stamped(events, start, freq), Due(events, start, freq, size);
    assert samples[..last] == Stamped(events[..last], start, freq);
    assert Flatten(bundles) == samples[..last - Level(last, size)];
    if Level(|events|, size) > 0 {
      assert bundles + [] == bundles;
    } else {
      DueCompletes(samples, due, last - Level(last, size));
      FlattenAppend(bundles, due);
      assert samples[..|events|] == samples;
    }
  }

  lemma DueCompletes(samples: seq<Sample>, due: seq<Sample>, n: nat)
    requires n <= |samples| && due == samples[n..]
    ensures samples == samples[..n] + due
  {
  }

  /** The bundles of a stream are the consecutive slices of its stamped events. */
  lemma BundlesAreSlices(events: seq<SensorEvent>, start: int, freq: int, size: nat, i: nat)
    requires freq > 0 && size > 0 && i < |Bundles(events, start, freq, size)|
    ensures IsSlice(Bundles(events, start, freq, size)[i], Stamped(events, start, freq), size, i)
  {
    var samples, bundled := Stamped(events, start, freq), |events| - Level(|events|, size);
    BundlesAreStamped(events, start, freq, size);
    BundleIsSlice(Bundles(events, start, freq, size), samples[bundled..], size, i);
    assert samples == samples[..bundled] + samples[bundled..];
  }

  // ---- repetition ----

  /** Packet i carries the previous sample and the current one; the first carries its own twice. */
  function Repeated(samples: seq<Sample>): seq<seq<Sample>> {
    seq(|samples|, i requires 0 <= i < |samples| => [samples[if i == 0 then 0 else i - 1], samples[i]])
  }

  /** The packets that arrive, when packet i arrives exactly if got[i]. */
  function Arrived(packets: seq<seq<Sample>>, got: seq<bool>): seq<seq<Sample>>
    requires |packets| == |got|
  {
    if packets == [] then []
    else
      var last := |packets| - 1;
      Arrived(packets[..last], got[..last]) + if got[last] then [packets[last]] else []
  }

  /** A receiver keeps a sample when its timestamp is later than all it has kept. */
  function Keep(kept: seq<Sample>, x: Sample): seq<Sample> {
    if kept == [] || kept[|kept| - 1].rtpts < x.rtpts then kept + [x] else kept
  }

  function Playout(packets: seq<seq<Sample>>): seq<Sample>
    requires AllOfSize(packets, 2)
  {
    if packets == [] then []
    else
      var last := packets[|packets| - 1];
      assert last in packets;
      Keep(Keep(Playout(packets[..|packets| - 1]), last[0]), last[1])
  }

  /** Of n packets, one that carries sample i arrives. */
  predicate Covered(got: seq<bool>, n: nat, i: nat)
    requires n <= |got|
  {
    (i < n && got[i]) || (i + 1 < n && got[i + 1])
  }

  function CoveredSamples(samples: seq<Sample>, got: seq<bool>, n: nat, m: nat): (kept: seq<Sample>)
    requires m <= |samples| && n <= |got|
    ensures |kept| <= m
  {
    if m == 0 then []
    else CoveredSamples(samples, got, n, m - 1) + if Covered(got, n, m - 1) then [samples[m - 1]] else []
  }

  lemma {:induction false} CoveredIsEarlier(samples: seq<Sample>, got: seq<bool>, n: nat, m: nat)
    requires m < |samples| && n <= |got| && Increasing(samples)
    ensures var kept := CoveredSamples(samples, got, n, m);
            kept == [] || kept[|kept| - 1].rtpts < samples[m].rtpts
    decreases m
  {
    if m == 0 {
    } else {
      CoveredIsEarlier(samples, got, n, m - 1);
    }
  }

  lemma {:induction false} CoveredAgree(samples: seq<Sample>, got: seq<bool>, n: nat, n': nat, m: nat)
    requires m <= |samples| && n <= |got| && n' <= |got|
    requires forall i: nat :: i < m ==> (Covered(got, n, i) <==> Covered(got, n', i))
    ensures CoveredSamples(samples, got, n, m) == CoveredSamples(samples, got, n', m)
  {
    if m == 0 {
    } else {
      CoveredAgree(samples, got, n, n', m - 1);
    }
  }

  /** Those of the first n packets that arrive. */
  function FirstOf(samples: seq<Sample>, got: seq<bool>, n: nat): seq<seq<Sample>>
    requires |samples| == |got| && n <= |samples|
  {
    if n == 0 then [] else Joined(samples, got, n, FirstOf(samples, got, n - 1))
  }

  function Joined(samples: seq<Sample>, got: seq<bool>, n: nat, earlier: seq<seq<Sample>>): seq<seq<Sample>>
    requires |samples| == |got| && 0 < n <= |samples|
  {
    if got[n - 1] then earlier + [Repeated(samples)[n - 1]] else earlier
  }

  lemma {:induction false} FirstOfAreArrived(samples: seq<Sample>, got: seq<bool>, n: nat)
    requires |samples| == |got| && n <= |samples|
    ensures FirstOf(samples, got, n) == Arrived(Repeated(samples)[..n], got[..n])
  {
    if n == 0 {
    } else {
      var packets := Repeated(samples);
      FirstOfAreArrived(samples, got, n - 1);
      assert packets[..n][..n - 1] == packets[..n - 1] && got[..n][..n - 1] == got[..n - 1];
    }
  }

  lemma AllArrived(samples: seq<Sample>, got: seq<bool>)
    requires |samples| == |got|
    ensures FirstOf(samples, got, |samples|) == Arrived(Repeated(samples), got)
  {
    var packets := Repeated(samples);
    FirstOfAreArrived(samples, got, |samples|);
    assert packets[..|samples|] == packets && got[..|samples|] == got;
  }

  lemma {:induction false} PlayoutIsCovered(samples: seq<Sample>, got: seq<bool>, n: nat)
    requires |samples| == |got| && n <= |samples| && Increasing(samples)
    ensures AllOfSize(FirstOf(samples, got, n), 2)
    ensures Playout(FirstOf(samples, got, n)) == CoveredSamples(samples, got, n, n)
  {
    if n == 0 {
    } else {
      PlayoutIsCovered(samples, got, n - 1);
      PlayoutStep(samples, got, n, FirstOf(samples, got, n - 1));
    }
  }

  lemma PlayoutStep(samples: seq<Sample>, got: seq<bool>, n: nat, earlier: seq<seq<Sample>>)
    requires |samples| == |got| && 0 < n <= |samples| && Increasing(samples) && AllOfSize(earlier, 2)
    requires Playout(earlier) == CoveredSamples(samples, got, n - 1, n - 1)
    ensures AllOfSize(Joined(samples, got, n, earlier), 2)
    ensures Playout(Joined(samples, got, n, earlier)) == CoveredSamples(samples, got, n, n)
  {
    if got[n - 1] {
      PlayoutNext(earlier, Repeated(samples)[n - 1]);
      PairExtends(samples, got, n);
    } else {
      LostCoversNothing(samples, got, n);
    }
  }

  lemma LostCoversNothing(samples: seq<Sample>, got: seq<bool>, n: nat)
    requires |samples| == |got| && 0 < n <= |samples| && !got[n - 1]
    ensures CoveredSamples(samples, got, n, n) == CoveredSamples(samples, got, n - 1, n - 1)
  {
    CoveredAgree(samples, got, n - 1, n, n - 1);
  }

  lemma PlayoutNext(packets: seq<seq<Sample>>, pair: seq<Sample>)
    requires AllOfSize(packets, 2) && |pair| == 2
    ensures AllOfSize(packets + [pair], 2)
    ensures Playout(packets + [pair]) == Keep(Keep(Playout(packets), pair[0]), pair[1])
  {
    assert (packets + [pair])[..|packets|] == packets;
  }

  /** An arriving packet contributes its first sample exactly when the packet before it was lost. */
  lemma PairExtends(samples: seq<Sample>, got: seq<bool>, n: nat)
    requires |samples| == |got| && 0 < n <= |samples| && Increasing(samples) && got[n - 1]
    ensures var before := CoveredSamples(samples, got, n - 1, n - 1);
            var pair := Repeated(samples)[n - 1];
            Keep(Keep(before, pair[0]), pair[1]) == CoveredSamples(samples, got, n, n)
  {
    var before := CoveredSamples(samples, got, n - 1, n - 1);
    if n >= 2 {
      CoveredAgree(samples, got, n - 1, n, n - 2);
      CoveredIsEarlier(samples, got, n - 1, n - 2);
      var older := CoveredSamples(samples, got, n, n - 2);
      assert before == older + if got[n - 2] then [samples[n - 2]] else [];
      assert CoveredSamples(samples, got, n, n - 1) == older + [samples[n - 2]];
      assert CoveredSamples(samples, got, n, n) == older + [samples[n - 2]] + [samples[n - 1]];
      assert Keep(before, samples[n - 2]) == older + [samples[n - 2]];
    }
  }

  lemma {:induction false} AllCoveredIff(samples: seq<Sample>, got: seq<bool>, n: nat, m: nat)
    requires m <= |samples| && n <= |got|
    ensures |CoveredSamples(samples, got, n, m)| == m <==> forall i: nat :: i < m ==> Covered(got, n, i)
    ensures |CoveredSamples(samples, got, n, m)| == m ==> CoveredSamples(samples, got, n, m) == samples[..m]
  {
    if m == 0 {
    } else {
      AllCoveredIff(samples, got, n, m - 1);
      assert samples[..m] == samples[..m - 1] + [samples[m - 1]];
    }
  }

  /** No two packets in a row are lost, and the last one arrives. */
  predicate LossesAreIsolated(got: seq<bool>) {
    && (forall i :: 0 <= i < |got| - 1 ==> got[i] || got[i + 1])
    && (got != [] ==> got[|got| - 1])
  }

  lemma IsolatedIffCovered(got: seq<bool>)
    ensures LossesAreIsolated(got) <==> forall i: nat :: i < |got| ==> Covered(got, |got|, i)
  {
    var n := |got|;
    if forall i: nat :: i < n ==> Covered(got, n, i) {
      assert got != [] ==> Covered(got, n, n - 1);
      forall i | 0 <= i < n - 1
        ensures got[i] || got[i + 1]
      {
        assert Covered(got, n, i);
      }
      assert LossesAreIsolated(got);
    }
    if LossesAreIsolated(got) {
      forall i: nat | i < n
        ensures Covered(got, n, i)
      {
        if i < n - 1 {
          assert got[i] || got[i + 1];
        }
      }
    }
  }

  lemma StampedIncreases(events: seq<SensorEvent>, start: int, freq: int)
    requires 0 < freq <= CLOCK
    ensures Increasing(Stamped(events, start, freq))
  {
    if |events| >= 2 {
      IncreasingIff(events, start, freq);
    }
  }

  lemma PlayoutRecoversIff(samples: seq<Sample>, got: seq<bool>)
    requires |got| == |samples| && Increasing(samples)
    ensures var arrived := Arrived(Repeated(samples), got);
            AllOfSize(arrived, 2) && (Playout(arrived) == samples <==> LossesAreIsolated(got))
  {
    var n := |samples|;
    PlayoutIsCovered(samples, got, n);
    AllArrived(samples, got);
    assert samples[..n] == samples;
    AllCoveredIff(samples, got, n, n);
    IsolatedIffCovered(got);
  }

  /** Repetition of one sample recovers the whole stream, samples and timestamps in order, exactly from
      the loss patterns without two consecutive losses that spare the last packet. */
  lemma RecoveryIff(events: seq<SensorEvent>, start: int, freq: int, got: seq<bool>)
    requires 0 < freq <= CLOCK && |got| == |events|
    ensures var samples := Stamped(events, start, freq);
            var arrived := Arrived(Repeated(samples), got);
            && AllOfSize(arrived, 2)
            && (Playout(arrived) == samples <==> LossesAreIsolated(got))
  {
    StampedIncreases(events, start, freq);
    PlayoutRecoversIff(Stamped(events, start, freq), got);
  }
}
