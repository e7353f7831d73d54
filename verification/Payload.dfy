/** The bytes of a data packet and of a sender report, and what a receiver reads out of them. */
module PayloadModel {
  import opened Options
  import opened Events

  const CHARLEN: nat := 20
  const HEADER: nat := 4
  const DATAPOINT: byte := 1
  const SENDREPORT: byte := 2

  /** How many values a reading of the sensor has; 0 for the kinds that are not encoded. */
  function Axes(kind: byte): (k: nat)
    ensures k <= 3
  {
    if kind == 1 || kind == 3 || kind == 4 then 3     // accelerometer, orientation, gyroscope
    else if kind == 5 || kind == 8 then 1             // light, proximity
    else 0
  }

  function RecordSize(axes: nat): nat {
    4 + CHARLEN * axes
  }

  function TotalLength(axes: nat, num: nat): nat {
    HEADER + num * RecordSize(axes)
  }

  // ---- numbers in network order ----

  function Power(n: nat): (p: nat)
    ensures p > 0
  {
    if n == 0 then 1 else 256 * Power(n - 1)
  }

  function BigEndian(v: nat, n: nat): (bytes: seq<byte>)
    ensures |bytes| == n
  {
    if n == 0 then [] else BigEndian(v / 256, n - 1) + [(v % 256) as byte]
  }

  function Number(bytes: seq<byte>): nat {
    if bytes == [] then 0 else 256 * Number(bytes[..|bytes| - 1]) + bytes[|bytes| - 1] as nat
  }

  lemma {:induction false} NumberOfBigEndian(v: nat, n: nat)
    requires v < Power(n)
    ensures Number(BigEndian(v, n)) == v
  {
    if n == 0 {
    } else {
      NumberOfBigEndian(v / 256, n - 1);
      assert BigEndian(v, n)[..n - 1] == BigEndian(v / 256, n - 1);
    }
  }

  /** How a host keeps an n-byte number in memory. */
  function InMemory(v: nat, n: nat, little: bool): (bytes: seq<byte>)
    ensures |bytes| == n
  {
    if !little then BigEndian(v, n)
    else if n == 0 then []
    else [(v % 256) as byte] + InMemory(v / 256, n - 1, true)
  }

  /** The memory of a little-endian host read backwards is network order. */
  lemma {:induction false} LittleIsReversed(v: nat, n: nat, i: nat)
    requires i < n
    ensures InMemory(v, n, true)[n - 1 - i] == BigEndian(v, n)[i]
  {
    if i == n - 1 {
    } else {
      LittleIsReversed(v / 256, n - 1, i);
    }
  }

  /** Two's complement of an n-byte integer, as htons and htonl pass it through. */
  function Unsigned(v: int, n: nat): (u: nat)
    ensures u < Power(n)
  {
    v % Power(n)
  }

  function Signed(u: nat, n: nat): int
  {
    if 2 * u < Power(n) then u else u - Power(n)
  }

  predicate Fits(v: int, n: nat) {
    var p: int := Power(n);
    -p <= 2 * v < p
  }

  /** An n-byte integer comes back from the wire exactly when it fits its type. */
  lemma WireNumberIff(v: int, n: nat)
    requires n > 0
    ensures Signed(Number(BigEndian(Unsigned(v, n), n)), n) == v <==> Fits(v, n)
  {
    NumberOfBigEndian(Unsigned(v, n), n);
    var p := Power(n);
    if Fits(v, n) {
      if v >= 0 {
        Remainder(v, p, 0);
      } else {
        Remainder(v, p, -1);
      }
    }
  }

  lemma Remainder(v: int, p: nat, q: int)
    requires p > 0 && q * p <= v < q * p + p
    ensures v % p == v - q * p
  {
    var d := v / p;
    assert v == d * p + v % p;
    assert (d - q) * p == d * p - q * p;
    assert d - q == 0 by {
      SmallMultiple(d - q, p);
    }
  }

  lemma SmallMultiple(d: int, p: nat)
    requires p > 0 && 0 - p < d * p < p
    ensures d == 0
  {
  }

  // ---- the layout ----

  function Zeros(n: nat): (z: seq<byte>)
    ensures |z| == n && forall i :: 0 <= i < n ==> z[i] == 0
  {
    seq(n, _ => 0)
  }

  /** A printed value in its NUL-padded field. */
  function Field(text: Text): (field: seq<byte>)
    ensures |field| == CHARLEN
  {
    text + Zeros(CHARLEN - |text|)
  }

  function Fields(texts: seq<Text>): (fields: seq<byte>)
    ensures |fields| == CHARLEN * |texts|
  {
    if texts == [] then [] else Fields(texts[..|texts| - 1]) + Field(texts[|texts| - 1])
  }

  function Record(s: Sample): (record: seq<byte>)
    ensures |record| == RecordSize(|s.event.readings|)
  {
    BigEndian(Unsigned(s.rtpts, 4), 4) + Fields(s.event.readings)
  }

  predicate SameShape(samples: seq<Sample>, axes: nat) {
    forall s <- samples :: |s.event.readings| == axes
  }

  function Records(samples: seq<Sample>): seq<byte> {
    if samples == [] then [] else Records(samples[..|samples| - 1]) + Record(samples[|samples| - 1])
  }

  function Header(kind: byte, total: nat): (header: seq<byte>)
    ensures |header| == HEADER
  {
    [DATAPOINT, kind] + BigEndian(Unsigned(total, 2), 2)
  }

  function Layout(samples: seq<Sample>): seq<byte>
    requires samples != []
  {
    var kind := samples[0].event.kind;
    Header(kind, TotalLength(Axes(kind), |samples|)) + Records(samples)
  }

  lemma OneMore(n: nat, size: nat)
    ensures (n + 1) * size == n * size + size
  {
  }

  lemma {:induction false} RecordsLength(samples: seq<Sample>, axes: nat)
    requires SameShape(samples, axes)
    ensures |Records(samples)| == |samples| * RecordSize(axes)
  {
    if samples == [] {
    } else {
      var last := |samples| - 1;
      assert samples[last] in samples;
      assert forall s <- samples[..last] :: s in samples;
      RecordsLength(samples[..last], axes);
      OneMore(last, RecordSize(axes));
    }
  }

  // ---- the receiver ----

  datatype Reading = Reading(rtpts: int, readings: seq<seq<byte>>)

  datatype Received = Received(kind: byte, length: int, readings: seq<Reading>)

  /** The characters of a field up to its first NUL. */
  function FieldText(field: seq<byte>): seq<byte> {
    if field == [] || field[0] == 0 then [] else [field[0]] + FieldText(field[1..])
  }

  function ReadFields(bytes: seq<byte>, axes: nat): seq<seq<byte>>
    requires |bytes| == CHARLEN * axes
  {
    if axes == 0 then []
    else ReadFields(bytes[..|bytes| - CHARLEN], axes - 1) + [FieldText(bytes[|bytes| - CHARLEN..])]
  }

  function ReadRecord(bytes: seq<byte>, axes: nat): Reading
    requires |bytes| == RecordSize(axes)
  {
    Reading(Signed(Number(bytes[..4]), 4), ReadFields(bytes[4..], axes))
  }

  function ReadRecords(bytes: seq<byte>, axes: nat): seq<Reading>
    decreases |bytes|
  {
    if |bytes| < RecordSize(axes) then []
    else
      var cut := |bytes| - RecordSize(axes);
      ReadRecords(bytes[..cut], axes) + [ReadRecord(bytes[cut..], axes)]
  }

  /** The header declares the length that the packet has. */
  predicate LengthDeclared(bytes: seq<byte>) {
    |bytes| >= HEADER && Signed(Number(bytes[2..4]), 2) == |bytes|
  }

  /** Follows the header: it must be a data packet whose declared length is its length. */
  function Receive(bytes: seq<byte>): Option<Received> {
    if !LengthDeclared(bytes) || bytes[0] != DATAPOINT then None
    else Some(Received(bytes[1], |bytes|, ReadRecords(bytes[HEADER..], Axes(bytes[1]))))
  }

  function ReadingOf(s: Sample): Reading {
    Reading(s.rtpts, s.event.readings)
  }

  function ReadingsOf(samples: seq<Sample>): seq<Reading> {
    if samples == [] then [] else ReadingsOf(samples[..|samples| - 1]) + [ReadingOf(samples[|samples| - 1])]
  }

  lemma {:induction false} FieldTextOfField(text: seq<byte>, padding: seq<byte>)
    requires 0 !in text && padding != [] && padding[0] == 0
    ensures FieldText(text + padding) == text
  {
    if text == [] {
      assert text + padding == padding;
    } else {
      assert (text + padding)[1..] == text[1..] + padding;
      FieldTextOfField(text[1..], padding);
    }
  }

  lemma {:induction false} ReadFieldsOfFields(texts: seq<Text>)
    ensures ReadFields(Fields(texts), |texts|) == texts
  {
    if texts == [] {
    } else {
      var last := |texts| - 1;
      var bytes := Fields(texts);
      assert bytes[..|bytes| - CHARLEN] == Fields(texts[..last]);
      assert bytes[|bytes| - CHARLEN..] == Field(texts[last]);
      ReadFieldsOfFields(texts[..last]);
      FieldTextOfField(texts[last], Zeros(CHARLEN - |texts[last]|));
    }
  }

  lemma ReadRecordOfRecord(s: Sample)
    requires Fits(s.rtpts, 4)
    ensures ReadRecord(Record(s), |s.event.readings|) == ReadingOf(s)
  {
    WireNumberIff(s.rtpts, 4);
    ReadFieldsOfFields(s.event.readings);
    var record := Record(s);
    assert record[..4] == BigEndian(Unsigned(s.rtpts, 4), 4) && record[4..] == Fields(s.event.readings);
  }

  lemma {:induction false} ReadRecordsOfRecords(samples: seq<Sample>, axes: nat)
    requires SameShape(samples, axes) && forall s <- samples :: Fits(s.rtpts, 4)
    ensures ReadRecords(Records(samples), axes) == ReadingsOf(samples)
  {
    if samples == [] {
    } else {
      var last := |samples| - 1;
      var front, bytes := samples[..last], Records(samples);
      assert samples[last] in samples;
      assert forall s <- front :: s in samples;
      var cut := |bytes| - RecordSize(axes);
      assert bytes[..cut] == Records(front) && bytes[cut..] == Record(samples[last]);
      ReadRecordsOfRecords(front, axes);
      ReadRecordOfRecord(samples[last]);
    }
  }

  lemma LengthFits(total: nat)
    ensures Fits(total, 2) <==> total <= 32767
  {
    assert Power(1) == 256 && Power(2) == 256 * 256;
  }

  /** A receiver that follows the header gets the sensor's kind, the number of samples, each timestamp and
      each value back exactly when the packet is short enough for its 16-bit length: the encoder does not
      test it. */
  lemma ReceiveOfLayoutIff(samples: seq<Sample>)
    requires samples != [] && SameShape(samples, Axes(samples[0].event.kind))
    requires forall s <- samples :: Fits(s.rtpts, 4)
    ensures var kind := samples[0].event.kind;
            var total := TotalLength(Axes(kind), |samples|);
            && |Layout(samples)| == total
            && (Receive(Layout(samples)) == Some(Received(kind, total, ReadingsOf(samples))) <==> total <= 32767)
  {
    var kind, bytes := samples[0].event.kind, Layout(samples);
    var total := TotalLength(Axes(kind), |samples|);
    RecordsLength(samples, Axes(kind));
    WireNumberIff(total, 2);
    LengthFits(total);
    assert bytes[2..4] == BigEndian(Unsigned(total, 2), 2);
    assert bytes[HEADER..] == Records(samples);
    ReadRecordsOfRecords(samples, Axes(kind));
  }

  // ---- sender reports ----

  datatype Report = Report(ntp: int, rtpts: int, packets: int, octets: int, cname: seq<byte>)

  const CNAME_LENGTH: nat := 15
  /** The length a report's header declares, which is the length of the name alone. */
  const REPORT_LENGTH: nat := 15

  function ReportLayout(r: Report): seq<byte> {
    [SENDREPORT, 0] + BigEndian(REPORT_LENGTH, 2) + BigEndian(Unsigned(r.ntp, 8), 8)
    + BigEndian(Unsigned(r.rtpts, 4), 4) + BigEndian(Unsigned(r.packets, 4), 4)
    + BigEndian(Unsigned(r.octets, 4), 4) + r.cname
  }

  function ReceiveReport(bytes: seq<byte>): Option<Report> {
    if |bytes| < 24 || bytes[0] != SENDREPORT then None
    else Some(Report(Signed(Number(bytes[4..12]), 8), Signed(Number(bytes[12..16]), 4),
                     Signed(Number(bytes[16..20]), 4), Signed(Number(bytes[20..24]), 4), bytes[24..]))
  }

  /** The length that a report declares is that of the name alone, so a receiver that checks it, as it can
      for data packets, refuses every report. */
  lemma ReportLengthIsWrong(r: Report)
    requires |r.cname| == CNAME_LENGTH
    ensures |ReportLayout(r)| == 39 && Number(ReportLayout(r)[2..4]) == 15
    ensures !LengthDeclared(ReportLayout(r))
  {
    assert ReportLayout(r)[2..4] == BigEndian(REPORT_LENGTH, 2);
    assert Power(1) == 256 && Power(2) == 256 * 256;
    NumberOfBigEndian(REPORT_LENGTH, 2);
  }

  /** A receiver that goes by the fixed layout instead gets every field back. */
  lemma ReceiveReportOfLayout(r: Report)
    requires Fits(r.ntp, 8) && Fits(r.rtpts, 4) && Fits(r.packets, 4) && Fits(r.octets, 4)
    ensures ReceiveReport(ReportLayout(r)) == Some(r)
  {
    WireNumberIff(r.ntp, 8);
    WireNumberIff(r.rtpts, 4);
    WireNumberIff(r.packets, 4);
    WireNumberIff(r.octets, 4);
    ReportFields(r);
  }

  lemma ReportFields(r: Report)
    ensures var bytes := ReportLayout(r);
            && |bytes| == 24 + |r.cname| && bytes[0] == SENDREPORT
            && bytes[4..12] == BigEndian(Unsigned(r.ntp, 8), 8) && bytes[12..16] == BigEndian(Unsigned(r.rtpts, 4), 4)
            && bytes[16..20] == BigEndian(Unsigned(r.packets, 4), 4)
            && bytes[20..24] == BigEndian(Unsigned(r.octets, 4), 4) && bytes[24..] == r.cname
  {
  }
}

/** encode and form_sr_payload, which fill a zeroed buffer at a moving offset. */
module Encoders {
  import opened Events
  import opened PayloadModel

  function SampleSeq(events: seq<SensorEvent>, rtpts: seq<int>, n: nat): (samples: seq<Sample>)
    requires n <= |events| && n <= |rtpts|
    ensures |samples| == n
  {
    seq(n, i requires 0 <= i < n => Sample(events[i], rtpts[i]))
  }

  predicate ZeroFrom(bytes: seq<byte>, offset: nat) {
    forall j :: offset <= j < |bytes| ==> bytes[j] == 0
  }

  method CopyBytes(data: array<byte>, offset: nat, bytes: seq<byte>)
    requires offset + |bytes| <= data.Length
    modifies data
    ensures data[..offset + |bytes|] == old(data[..offset]) + bytes
    ensures ZeroFrom(old(data[..]), offset) ==> ZeroFrom(data[..], offset + |bytes|)
  {
    forall i | 0 <= i < |bytes| {
      data[offset + i] := bytes[i];
    }
  }

  /** The value's characters and a NUL; the rest of the field is still zero. */
  method PrintText(data: array<byte>, offset: nat, text: Text)
    requires offset + CHARLEN <= data.Length && ZeroFrom(data[..], offset)
    modifies data
    ensures data[..offset + CHARLEN] == old(data[..offset]) + Field(text)
    ensures ZeroFrom(data[..], offset + CHARLEN)
  {
    CopyBytes(data, offset, text + [0]);
    assert data[..offset + |text| + 1] == old(data[..offset]) + (text + [0]);
    ghost var end := offset + CHARLEN;
    assert forall j :: 0 <= j < offset ==> data[..end][j] == data[..offset + |text| + 1][j];
    assert forall j :: offset <= j < offset + |text| ==> data[..end][j] == data[..offset + |text| + 1][j];
    assert forall j :: offset + |text| < j < end ==> data[..end][j] == data[..][j];
  }

  /** One timestamp and the values of one event. */
  method EncodeRecord(data: array<byte>, start: nat, s: Sample) returns (offset: nat)
    requires start + RecordSize(|s.event.readings|) <= data.Length && ZeroFrom(data[..], start)
    modifies data
    ensures offset == start + RecordSize(|s.event.readings|)
    ensures data[..offset] == old(data[..start]) + Record(s)
    ensures ZeroFrom(data[..], offset)
  {
    var readings := s.event.readings;
    CopyBytes(data, start, BigEndian(Unsigned(s.rtpts, 4), 4));
    offset := start + 4;
    ghost var front := data[..offset];
    var axis := 0;
    assert front + Fields(readings[..0]) == front;
    while axis < |readings|
      invariant axis <= |readings| && offset == start + 4 + CHARLEN * axis
      invariant data[..offset] == front + Fields(readings[..axis])
      invariant ZeroFrom(data[..], offset)
    {
      PrintText(data, offset, readings[axis]);
      offset := offset + CHARLEN;
      assert readings[..axis + 1][..axis] == readings[..axis];
      assert front + Fields(readings[..axis]) + Field(readings[axis]) == front + Fields(readings[..axis + 1]);
      axis := axis + 1;
    }
    assert readings[..axis] == readings;
  }

  /** Fills exactly the declared length, with three values to a reading of the accelerometer, the orientation
      sensor and the gyroscope, and one to a reading of light or proximity; other kinds get no data. */
  method Encode(events: array<SensorEvent>, rtpts: array<int>, num: nat)
    returns (data: array?<byte>, length: nat, firstRtpts: int, firstNtpts: int)
    requires 1 <= num <= events.Length && num <= rtpts.Length
    requires SameShape(SampleSeq(events[..], rtpts[..], num), Axes(events[0].kind))
    ensures firstRtpts == rtpts[0] && firstNtpts == events[0].timestamp
    ensures Axes(events[0].kind) == 0 ==> data == null && length == 0
    ensures events[0].kind in {1, 3, 4} ==> length == 4 + num * 64
    ensures events[0].kind in {5, 8} ==> length == 4 + num * 24
    ensures events[0].kind !in {1, 3, 4, 5, 8} ==> length == 0
    ensures Axes(events[0].kind) > 0 ==>
              && data != null && fresh(data) && length == data.Length
              && data[..] == Layout(SampleSeq(events[..], rtpts[..], num))
  {
    firstRtpts, firstNtpts := rtpts[0], events[0].timestamp;
    data, length := null, 0;
    var kind := events[0].kind;
    var axes := Axes(kind);
    if axes > 0 {
      var totlength := TotalLength(axes, num);
      var temp := new byte[totlength](_ => 0);
      CopyBytes(temp, 0, Header(kind, totlength));
      var offset := HEADER;
      ghost var samples := SampleSeq(events[..], rtpts[..], num);
      var k := 0;
      assert Header(kind, totlength) + Records(samples[..0]) == Header(kind, totlength);
      while k < num
        invariant k <= num && offset == HEADER + k * RecordSize(axes) <= totlength
        invariant temp[..offset] == Header(kind, totlength) + Records(samples[..k])
        invariant ZeroFrom(temp[..], offset)
      {
        OneMore(k, RecordSize(axes));
        RoomForOne(k, num, RecordSize(axes));
        assert samples[k] in samples && samples[k] == Sample(events[k], rtpts[k]);
        offset := EncodeRecord(temp, offset, Sample(events[k], rtpts[k]));
        RecordsNext(Header(kind, totlength), samples, k);
        k := k + 1;
      }
      assert samples[..k] == samples && temp[..] == temp[..offset];
      data, length := temp, totlength;
    }
  }

  lemma {:induction false} RoomForOne(k: nat, num: nat, size: nat)
    requires k < num
    ensures k * size + size <= num * size
    decreases num
  {
    OneMore(k, size);
    if k + 1 == num {
    } else {
      RoomForOne(k, num - 1, size);
      OneMore(num - 1, size);
    }
  }

  lemma RecordsNext(header: seq<byte>, samples: seq<Sample>, k: nat)
    requires k < |samples|
    ensures (header + Records(samples[..k])) + Record(samples[k]) == header + Records(samples[..k + 1])
  {
    assert samples[..k + 1][..k] == samples[..k];
  }

  /** htonll: the bytes to put on the wire, from the host's memory.  The test for a little-endian host is
      right, although its comments call such a host big-endian. */
  method HostToNetwork(s: seq<byte>, little: bool, ghost v: nat) returns (d: seq<byte>)
    requires s == InMemory(v, 8, little)
    ensures d == BigEndian(v, 8)
  {
    if !little {
      return s;
    }
    d := [s[7], s[6], s[5], s[4], s[3], s[2], s[1], s[0]];
    forall i: nat | i < 8
      ensures d[i] == BigEndian(v, 8)[i]
    {
      LittleIsReversed(v, 8, i);
    }
  }

  /** The sender report of the counters, the clock reading and the extrapolated timestamp. */
  method FormReport(r: Report, little: bool) returns (data: array<byte>)
    requires |r.cname| == CNAME_LENGTH
    ensures fresh(data) && data[..] == ReportLayout(r)
  {
    data := new byte[HEADER + 20 + CNAME_LENGTH](_ => 0);
    CopyBytes(data, 0, [SENDREPORT, 0] + BigEndian(REPORT_LENGTH, 2));
    var ntp := HostToNetwork(InMemory(Unsigned(r.ntp, 8), 8, little), little, Unsigned(r.ntp, 8));
    CopyBytes(data, 4, ntp);
    CopyBytes(data, 12, BigEndian(Unsigned(r.rtpts, 4), 4));
    CopyBytes(data, 16, BigEndian(Unsigned(r.packets, 4), 4));
    CopyBytes(data, 20, BigEndian(Unsigned(r.octets, 4), 4));
    CopyBytes(data, 24, r.cname);
    assert data[..] == data[..39];
  }
}
