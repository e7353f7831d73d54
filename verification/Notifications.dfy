/** What the server sends to one observer: data notifications and, among them, sender reports. */
module NotificationModel {
  import opened Events

  datatype Packet = Packet(conf: Reliability, bytes: seq<byte>)

  datatype Message =
    | Data(observe: nat, confirmable: bool, bytes: seq<byte>)
    | Report(observe: nat, packets: nat, octets: nat)

  /** The counters of a registration that the branch reads and writes. */
  datatype Counters = Counters(notcnt: nat, nonCnt: nat, packets: nat, octets: nat, reported: nat)

  /** RTCP_SR_BANDWIDTH_THRESHOLD. */
  const THRESHOLD: nat := 1000

  /** The option carries the counter as a 16-bit number. */
  function ObserveNumber(notcnt: nat): nat {
    notcnt % 0x1_0000
  }

  predicate ReportDue(c: Counters) {
    c.octets > c.reported + THRESHOLD || c.packets == 1
  }

  function Counted(c: Counters, length: nat, nonCnt: nat): Counters {
    c.(notcnt := c.notcnt + 1, nonCnt := nonCnt, packets := c.packets + 1, octets := c.octets + length)
  }

  datatype Session = Session(counters: Counters, messages: seq<Message>)

  /** One STREAM_UPDATE: the new counters and what is sent, where maxNon is the most unconfirmed
      notifications sent in a row. */
  function Notify(c: Counters, maxNon: nat, p: Packet): Session {
    if c.nonCnt < maxNon && p.conf.Unknown? then Session(c, [])
    else
      var confirmable := c.nonCnt >= maxNon || p.conf.Confirmable?;
      var counted := Counted(c, |p.bytes|, if confirmable then 0 else c.nonCnt + 1);
      var data := Data(ObserveNumber(c.notcnt), confirmable, p.bytes);
      if ReportDue(counted)
      then Session(counted.(reported := counted.octets),
                   [data, Report(ObserveNumber(counted.notcnt), counted.packets, counted.octets)])
      else Session(counted, [data])
  }

  function AfterPacket(before: Session, maxNon: nat, p: Packet): Session {
    var notified := Notify(before.counters, maxNon, p);
    Session(notified.counters, before.messages + notified.messages)
  }

  /** Everything sent to an observer whose counter started at `start`. */
  function Sent(start: nat, maxNon: nat, packets: seq<Packet>): Session {
    if packets == [] then Session(Counters(start, 0, 0, 0, 0), [])
    else
      var last := |packets| - 1;
      var before := Sent(start, maxNon, packets[..last]);
      AfterPacket(before, maxNon, packets[last])
  }

  /** One packet more: its notification follows what was sent before it. */
  lemma SentNext(start: nat, maxNon: nat, packets: seq<Packet>, p: Packet)
    ensures Sent(start, maxNon, packets + [p]) == AfterPacket(Sent(start, maxNon, packets), maxNon, p)
  {
    assert (packets + [p])[..|packets|] == packets;
  }

  // ---- what the messages say about each other ----

  function DataCount(messages: seq<Message>): nat {
    if messages == [] then 0
    else DataCount(messages[..|messages| - 1]) + if messages[|messages| - 1].Data? then 1 else 0
  }

  function DataOctets(messages: seq<Message>): nat {
    if messages == [] then 0
    else
      var last := messages[|messages| - 1];
      DataOctets(messages[..|messages| - 1]) + if last.Data? then |last.bytes| else 0
  }

  function ReportCount(messages: seq<Message>): nat {
    if messages == [] then 0
    else ReportCount(messages[..|messages| - 1]) + if messages[|messages| - 1].Report? then 1 else 0
  }

  /** How many data notifications since the last confirmable one. */
  function Unconfirmed(messages: seq<Message>): nat {
    if messages == [] then 0
    else
      var last, before := messages[|messages| - 1], messages[..|messages| - 1];
      if last.Report? then Unconfirmed(before) else if last.confirmable then 0 else Unconfirmed(before) + 1
  }

  /** The octets that the last report stated, or 0 if there was none. */
  function LastReported(messages: seq<Message>): nat {
    if messages == [] then 0
    else
      var last := messages[|messages| - 1];
      if last.Report? then last.octets else LastReported(messages[..|messages| - 1])
  }

  lemma Append(messages: seq<Message>, m: Message)
    ensures DataCount(messages + [m]) == DataCount(messages) + if m.Data? then 1 else 0
    ensures DataOctets(messages + [m]) == DataOctets(messages) + if m.Data? then |m.bytes| else 0
    ensures ReportCount(messages + [m]) == ReportCount(messages) + if m.Report? then 1 else 0
    ensures Unconfirmed(messages + [m]) == if m.Report? then Unconfirmed(messages)
                                           else if m.confirmable then 0 else Unconfirmed(messages) + 1
    ensures LastReported(messages + [m]) == if m.Report? then m.octets else LastReported(messages)
  {
    assert (messages + [m])[..|messages|] == messages;
  }

  predicate CountersAgree(start: nat, s: Session) {
    && s.counters.packets == DataCount(s.messages)
    && s.counters.octets == DataOctets(s.messages)
    && s.counters.notcnt == start + DataCount(s.messages)
    && s.counters.nonCnt == Unconfirmed(s.messages)
    && s.counters.reported == LastReported(s.messages)
  }

  /** A message right for the place it stands in: its number counts the data notifications before it, and
      a report states how many those were and how many octets they had. */
  predicate RightAt(start: nat, messages: seq<Message>, i: nat)
    requires i < |messages|
  {
    var before := messages[..i];
    && messages[i].observe == ObserveNumber(start + DataCount(before))
    && (messages[i].Report? ==>
          messages[i].packets == DataCount(before) && messages[i].octets == DataOctets(before))
  }

  predicate Truthful(start: nat, messages: seq<Message>) {
    forall i: nat :: i < |messages| ==> RightAt(start, messages, i)
  }

  /** The first notification is reported at once, reports follow data, and between two reports lie more
      octets than the threshold. */
  predicate Paced(s: Session) {
    var c, messages := s.counters, s.messages;
    && (messages != [] ==> |messages| >= 2 && messages[0].Data? && messages[1].Report?)
    && (forall i :: 0 < i < |messages| && messages[i].Report? ==> messages[i - 1].Data?)
    && c.octets <= c.reported + THRESHOLD
    && (messages != [] ==> (THRESHOLD + 1) * (ReportCount(messages) - 1) <= c.reported - |messages[0].bytes|)
    && c.reported <= c.octets
  }

  lemma TruthfulAppend(start: nat, messages: seq<Message>, m: Message)
    requires Truthful(start, messages) && RightAt(start, messages + [m], |messages|)
    ensures Truthful(start, messages + [m])
  {
    forall i: nat | i < |messages| + 1
      ensures RightAt(start, messages + [m], i)
    {
      if i < |messages| {
        assert RightAt(start, messages, i);
        assert (messages + [m])[..i] == messages[..i];
      }
    }
  }

  lemma DataKeepsTruth(start: nat, s: Session, data: Message)
    requires CountersAgree(start, s) && Truthful(start, s.messages)
    requires data.Data? && data.observe == ObserveNumber(s.counters.notcnt)
    ensures var counted := Counted(s.counters, |data.bytes|, if data.confirmable then 0 else s.counters.nonCnt + 1);
            CountersAgree(start, Session(counted, s.messages + [data])) && Truthful(start, s.messages + [data])
  {
    Append(s.messages, data);
    assert (s.messages + [data])[..|s.messages|] == s.messages;
    TruthfulAppend(start, s.messages, data);
  }

  lemma ReportKeepsTruth(start: nat, s: Session, report: Message)
    requires CountersAgree(start, s) && Truthful(start, s.messages)
    requires report == Report(ObserveNumber(s.counters.notcnt), s.counters.packets, s.counters.octets)
    ensures var reported := s.counters.(reported := s.counters.octets);
            CountersAgree(start, Session(reported, s.messages + [report])) && Truthful(start, s.messages + [report])
  {
    Append(s.messages, report);
    assert (s.messages + [report])[..|s.messages|] == s.messages;
    TruthfulAppend(start, s.messages, report);
  }

  lemma NotifyKeepsTruth(start: nat, maxNon: nat, s: Session, p: Packet)
    requires CountersAgree(start, s) && Truthful(start, s.messages)
    ensures CountersAgree(start, AfterPacket(s, maxNon, p)) && Truthful(start, AfterPacket(s, maxNon, p).messages)
  {
    var messages := Notify(s.counters, maxNon, p).messages;
    if messages == [] {
      assert s.messages + [] == s.messages;
    } else {
      var data := messages[0];
      var counted := Counted(s.counters, |data.bytes|, if data.confirmable then 0 else s.counters.nonCnt + 1);
      DataKeepsTruth(start, s, data);
      if |messages| == 2 {
        ReportKeepsTruth(start, Session(counted, s.messages + [data]), messages[1]);
        assert s.messages + messages == (s.messages + [data]) + [messages[1]];
      } else {
        assert s.messages + messages == s.messages + [data];
      }
    }
  }

  lemma NotifyKeepsPace(start: nat, maxNon: nat, s: Session, p: Packet)
    requires CountersAgree(start, s) && Paced(s) && (s.messages == [] ==> s.counters.reported == 0)
    ensures var after := AfterPacket(s, maxNon, p);
            Paced(after) && (after.messages == [] ==> after.counters.reported == 0)
  {
    var messages := Notify(s.counters, maxNon, p).messages;
    if messages == [] {
      assert s.messages + [] == s.messages;
    } else {
      var withData := s.messages + [messages[0]];
      Append(s.messages, messages[0]);
      FirstNotification(s.messages);
      if |messages| == 2 {
        Append(withData, messages[1]);
        assert s.messages + messages == withData + [messages[1]];
      } else {
        assert s.messages + messages == withData;
      }
    }
  }

  /** No data sent means nothing sent, once the first message is data. */
  lemma {:induction false} FirstNotification(messages: seq<Message>)
    ensures messages != [] && messages[0].Data? ==> DataCount(messages) > 0
  {
    if |messages| <= 1 {
    } else {
      FirstNotification(messages[..|messages| - 1]);
    }
  }

  lemma {:induction false} EverySession(start: nat, maxNon: nat, packets: seq<Packet>)
    ensures var s := Sent(start, maxNon, packets);
            && CountersAgree(start, s) && Truthful(start, s.messages) && Paced(s)
            && (s.messages == [] ==> s.counters.reported == 0)
  {
    if packets == [] {
    } else {
      var last := |packets| - 1;
      EverySession(start, maxNon, packets[..last]);
      var before := Sent(start, maxNon, packets[..last]);
      NotifyKeepsTruth(start, maxNon, before, packets[last]);
      NotifyKeepsPace(start, maxNon, before, packets[last]);
    }
  }

  /** Section 6.4.1 of RFC 3550: whatever the packets, each report states the number and the octets of the
      data notifications sent so far. */
  lemma ReportsAreAccurate(start: nat, maxNon: nat, packets: seq<Packet>, i: nat)
    requires i < |Sent(start, maxNon, packets).messages| && Sent(start, maxNon, packets).messages[i].Report?
    ensures var messages := Sent(start, maxNon, packets).messages;
            messages[i].packets == DataCount(messages[..i]) && messages[i].octets == DataOctets(messages[..i])
  {
    EverySession(start, maxNon, packets);
    assert RightAt(start, Sent(start, maxNon, packets).messages, i);
  }

  /** Never are more than 1000 octets of data sent after those that the last report states, and reports are
      rarer than one to every 1001 octets after the first notification. */
  lemma ReportsArePaced(start: nat, maxNon: nat, packets: seq<Packet>)
    ensures var messages := Sent(start, maxNon, packets).messages;
            && DataOctets(messages) - LastReported(messages) <= 1000
            && (messages != [] ==>
                  && messages[0].Data? && |messages| >= 2 && messages[1].Report?
                  && 1001 * (ReportCount(messages) - 1) <= DataOctets(messages) - |messages[0].bytes|)
  {
    EverySession(start, maxNon, packets);
  }

  /** With the data notification at i, more than 1000 octets are unreported, or it is the first. */
  predicate ReportMissing(messages: seq<Message>, i: nat)
    requires i < |messages|
  {
    var sent := messages[..i + 1];
    DataCount(sent) == 1 || DataOctets(sent) - LastReported(sent) > 1000
  }

  predicate ReportedAt(messages: seq<Message>, i: nat) {
    i < |messages| && messages[i].Report?
  }

  /** A report follows the data notification at i exactly if one is missing then. */
  predicate ReportedRight(messages: seq<Message>, i: nat)
    requires i < |messages|
  {
    messages[i].Data? ==> (ReportedAt(messages, i + 1) <==> ReportMissing(messages, i))
  }

  predicate AllReportedRight(messages: seq<Message>) {
    forall i: nat :: i < |messages| ==> ReportedRight(messages, i)
  }

  lemma ReportedRightBefore(messages: seq<Message>, m: Message)
    requires AllReportedRight(messages) && m.Data?
    ensures forall i: nat :: i < |messages| ==> ReportedRight(messages + [m], i)
  {
    var after := messages + [m];
    forall i: nat | i < |messages|
      ensures ReportedRight(after, i)
    {
      assert ReportedRight(messages, i);
      assert after[..i + 1] == messages[..i + 1];
    }
  }

  /** A data notification that needs no report. */
  lemma ReportedRightData(messages: seq<Message>, data: Message)
    requires AllReportedRight(messages) && data.Data?
    requires !ReportMissing(messages + [data], |messages|)
    ensures AllReportedRight(messages + [data])
  {
    ReportedRightBefore(messages, data);
  }

  /** A data notification that needs a report, and the report. */
  lemma ReportedRightBoth(messages: seq<Message>, data: Message, report: Message)
    requires AllReportedRight(messages) && data.Data? && report.Report?
    requires ReportMissing(messages + [data], |messages|)
    ensures AllReportedRight(messages + [data] + [report])
  {
    ReportedRightBefore(messages, data);
    var sent := messages + [data];
    var after := sent + [report];
    forall i: nat | i < |after|
      ensures ReportedRight(after, i)
    {
      if i < |sent| {
        assert after[..i + 1] == sent[..i + 1];
        assert i < |messages| ==> ReportedRight(sent, i);
      }
    }
  }

  lemma NotifyReportsRight(start: nat, maxNon: nat, s: Session, p: Packet)
    requires CountersAgree(start, s) && AllReportedRight(s.messages)
    ensures AllReportedRight(AfterPacket(s, maxNon, p).messages)
  {
    var messages := Notify(s.counters, maxNon, p).messages;
    if messages == [] {
      assert s.messages + [] == s.messages;
    } else {
      var sent := s.messages + [messages[0]];
      Append(s.messages, messages[0]);
      assert sent[..|s.messages| + 1] == sent;
      if |messages| == 2 {
        ReportedRightBoth(s.messages, messages[0], messages[1]);
        assert s.messages + messages == sent + [messages[1]];
      } else {
        ReportedRightData(s.messages, messages[0]);
        assert s.messages + messages == sent;
      }
    }
  }

  /** Whatever the packets, a report follows a data notification exactly if that is the first one, or more
      than 1000 octets have been sent with it since those the last report states. */
  lemma {:induction false} ReportsAreDue(start: nat, maxNon: nat, packets: seq<Packet>)
    ensures AllReportedRight(Sent(start, maxNon, packets).messages)
  {
    if packets == [] {
    } else {
      var last := |packets| - 1;
      EverySession(start, maxNon, packets[..last]);
      ReportsAreDue(start, maxNon, packets[..last]);
      NotifyReportsRight(start, maxNon, Sent(start, maxNon, packets[..last]), packets[last]);
    }
  }

  lemma NextObserve(n: nat)
    ensures ObserveNumber(n + 1) == (ObserveNumber(n) + 1) % 0x1_0000
  {
  }

  lemma CountNext(messages: seq<Message>, i: nat)
    requires i < |messages|
    ensures DataCount(messages[..i + 1]) == DataCount(messages[..i]) + if messages[i].Data? then 1 else 0
  {
    assert messages[..i + 1] == messages[..i] + [messages[i]];
    Append(messages[..i], messages[i]);
  }

  lemma NumberNext(start: nat, messages: seq<Message>, i: nat)
    requires Truthful(start, messages) && i + 1 < |messages|
    ensures messages[i + 1].observe == (messages[i].observe + if messages[i].Data? then 1 else 0) % 0x1_0000
  {
    assert RightAt(start, messages, i) && RightAt(start, messages, i + 1);
    CountNext(messages, i);
    NextObserve(start + DataCount(messages[..i]));
  }

  /** Sections 3.4 and 4.4 of RFC 7641: data notifications carry consecutive numbers modulo 2^16, and a
      report carries the number of the data notification that follows it. */
  lemma NumbersAreConsecutive(start: nat, maxNon: nat, packets: seq<Packet>, i: nat)
    requires i + 1 < |Sent(start, maxNon, packets).messages|
    ensures var messages := Sent(start, maxNon, packets).messages;
            && messages[0].observe == ObserveNumber(start)
            && messages[i + 1].observe == (messages[i].observe + if messages[i].Data? then 1 else 0) % 0x1_0000
            && (messages[i].Report? ==> messages[i + 1].Data?)
  {
    EverySession(start, maxNon, packets);
    ConsecutiveIn(start, Sent(start, maxNon, packets), i);
  }

  lemma ConsecutiveIn(start: nat, s: Session, i: nat)
    requires Truthful(start, s.messages) && Paced(s) && i + 1 < |s.messages|
    ensures var messages := s.messages;
            && messages[0].observe == ObserveNumber(start)
            && messages[i + 1].observe == (messages[i].observe + if messages[i].Data? then 1 else 0) % 0x1_0000
            && (messages[i].Report? ==> messages[i + 1].Data?)
  {
    assert RightAt(start, s.messages, 0);
    NumberNext(start, s.messages, i);
    assert s.messages[i + 1].Report? ==> s.messages[i].Data?;
  }

  lemma {:induction false} DataCountGrows(messages: seq<Message>, i: nat, j: nat)
    requires i <= j <= |messages|
    ensures DataCount(messages[..i]) <= DataCount(messages[..j])
    decreases j
  {
    if i == j {
    } else {
      DataCountGrows(messages, i, j - 1);
      CountNext(messages, j - 1);
    }
  }

  lemma NumberBeforeWrap(start: nat, messages: seq<Message>, i: nat)
    requires Truthful(start, messages) && i < |messages| && start + DataCount(messages) < 0x1_0000
    ensures messages[i].observe == start + DataCount(messages[..i])
  {
    assert RightAt(start, messages, i);
    assert messages[..|messages|] == messages;
    DataCountGrows(messages, i, |messages|);
  }

  lemma GrowUntilWrap(start: nat, messages: seq<Message>, i: nat, j: nat)
    requires Truthful(start, messages) && i < j < |messages| && start + DataCount(messages) < 0x1_0000
    requires messages[i].Report? ==> messages[i + 1].Data?
    ensures messages[i].observe <= messages[j].observe
    ensures messages[i].observe == messages[j].observe <==> messages[i].Report? && j == i + 1
  {
    NumberBeforeWrap(start, messages, i);
    NumberBeforeWrap(start, messages, j);
    CountNext(messages, i);
    DataCountGrows(messages, i + 1, j);
    if messages[i].Report? && j > i + 1 {
      CountNext(messages, i + 1);
      DataCountGrows(messages, i + 2, j);
    }
  }

  /** Until the counter wraps the numbers never decrease, and two are equal exactly for a report and the
      data notification right after it. */
  lemma NumbersGrowUntilWrap(start: nat, maxNon: nat, packets: seq<Packet>, i: nat, j: nat)
    requires i < j < |Sent(start, maxNon, packets).messages|
    requires start + DataCount(Sent(start, maxNon, packets).messages) < 0x1_0000
    ensures var messages := Sent(start, maxNon, packets).messages;
            && messages[i].observe <= messages[j].observe
            && (messages[i].observe == messages[j].observe <==> messages[i].Report? && j == i + 1)
  {
    EverySession(start, maxNon, packets);
    NumbersAreConsecutive(start, maxNon, packets, i);
    GrowUntilWrap(start, Sent(start, maxNon, packets).messages, i, j);
  }

  /** The data notifications, without the reports. */
  function Datas(messages: seq<Message>): seq<Message> {
    if messages == [] then []
    else
      var last := messages[|messages| - 1];
      Datas(messages[..|messages| - 1]) + if last.Data? then [last] else []
  }

  lemma DatasAppend(messages: seq<Message>, m: Message)
    ensures Datas(messages + [m]) == Datas(messages) + if m.Data? then [m] else []
  {
    assert (messages + [m])[..|messages|] == messages;
  }

  /** The packets that are sent: all but those of an unknown type while the limit is not reached. */
  function Understood(start: nat, maxNon: nat, packets: seq<Packet>): seq<Packet> {
    if packets == [] then []
    else
      var last := |packets| - 1;
      var before := Sent(start, maxNon, packets[..last]);
      Understood(start, maxNon, packets[..last])
      + if before.counters.nonCnt < maxNon && packets[last].conf.Unknown? then [] else [packets[last]]
  }

  /** Whether the last so many data notifications went unconfirmed. */
  predicate AllUnconfirmed(datas: seq<Message>, count: nat) {
    count <= |datas| && forall j :: |datas| - count <= j < |datas| ==> datas[j].Data? && !datas[j].confirmable
  }

  lemma TrailingAppend(datas: seq<Message>, m: Message, count: nat)
    requires m.Data? && count > 0
    ensures AllUnconfirmed(datas + [m], count) <==> !m.confirmable && AllUnconfirmed(datas, count - 1)
  {
    var after := datas + [m];
    assert after[|datas|] == m && forall j :: 0 <= j < |datas| ==> after[j] == datas[j];
  }

  lemma {:induction false} UnconfirmedIsTrailing(messages: seq<Message>, count: nat)
    ensures Unconfirmed(messages) <= |Datas(messages)|
    ensures count <= Unconfirmed(messages) <==> AllUnconfirmed(Datas(messages), count)
    decreases messages
  {
    if messages == [] {
    } else {
      var before, last := messages[..|messages| - 1], messages[|messages| - 1];
      if last.Report? {
        UnconfirmedIsTrailing(before, count);
        assert Datas(messages) == Datas(before);
      } else if count > 0 {
        UnconfirmedIsTrailing(before, count - 1);
        TrailingAppend(Datas(before), last, count);
      } else {
        UnconfirmedIsTrailing(before, 0);
      }
    }
  }

  /** A data notification is right for its packet: it carries its bytes, and it asks for an
      acknowledgement exactly if the packet does or the limit of unconfirmed ones is reached. */
  predicate DataFor(datas: seq<Message>, understood: seq<Packet>, maxNon: nat, i: nat)
    requires i < |datas| && i < |understood|
  {
    && datas[i].Data? && datas[i].bytes == understood[i].bytes
    && (datas[i].confirmable <==> understood[i].conf.Confirmable? || AllUnconfirmed(datas[..i], maxNon))
  }

  /** Every packet understood is sent once, in order, with its bytes and the reliability it asked for or
      the protocol requires. */
  lemma {:induction false} EveryPacketIsSent(start: nat, maxNon: nat, packets: seq<Packet>)
    ensures var datas, understood := Datas(Sent(start, maxNon, packets).messages), Understood(start, maxNon, packets);
            |datas| == |understood| && forall i: nat :: i < |datas| ==> DataFor(datas, understood, maxNon, i)
    decreases packets
  {
    if packets == [] {
    } else {
      var last := |packets| - 1;
      var before := Sent(start, maxNon, packets[..last]);
      var datas, understood := Datas(before.messages), Understood(start, maxNon, packets[..last]);
      EveryPacketIsSent(start, maxNon, packets[..last]);
      EverySession(start, maxNon, packets[..last]);
      PacketIsSent(start, maxNon, before, packets[last]);
      var sent := Notify(before.counters, maxNon, packets[last]).messages;
      if sent == [] {
        assert before.messages + sent == before.messages && understood + [] == understood;
      } else {
        DataForAppend(datas, understood, maxNon, sent[0], packets[last]);
      }
    }
  }

  lemma PacketIsSent(start: nat, maxNon: nat, before: Session, p: Packet)
    requires CountersAgree(start, before)
    ensures var sent, datas := Notify(before.counters, maxNon, p).messages, Datas(before.messages);
            if before.counters.nonCnt < maxNon && p.conf.Unknown? then sent == []
            else && sent != [] && sent[0].Data? && sent[0].bytes == p.bytes
                 && Datas(before.messages + sent) == datas + [sent[0]]
                 && (sent[0].confirmable <==> p.conf.Confirmable? || AllUnconfirmed(datas, maxNon))
  {
    UnconfirmedIsTrailing(before.messages, maxNon);
    var sent := Notify(before.counters, maxNon, p).messages;
    if sent != [] {
      OneDatum(before.messages, sent);
    }
  }

  lemma OneDatum(messages: seq<Message>, sent: seq<Message>)
    requires 1 <= |sent| <= 2 && sent[0].Data? && (|sent| == 2 ==> sent[1].Report?)
    ensures Datas(messages + sent) == Datas(messages) + [sent[0]]
  {
    var withData := messages + [sent[0]];
    DatasAppend(messages, sent[0]);
    if |sent| == 2 {
      DatasAppend(withData, sent[1]);
      assert messages + sent == withData + [sent[1]];
    } else {
      assert messages + sent == withData;
    }
  }

  lemma DataForAppend(datas: seq<Message>, understood: seq<Packet>, maxNon: nat, m: Message, p: Packet)
    requires |datas| == |understood| && forall i: nat :: i < |datas| ==> DataFor(datas, understood, maxNon, i)
    requires m.Data? && m.bytes == p.bytes
    requires m.confirmable <==> p.conf.Confirmable? || AllUnconfirmed(datas, maxNon)
    ensures forall i: nat :: i < |datas| + 1 ==> DataFor(datas + [m], understood + [p], maxNon, i)
  {
    forall i: nat | i < |datas| + 1
      ensures DataFor(datas + [m], understood + [p], maxNon, i)
    {
      if i < |datas| {
        assert DataFor(datas, understood, maxNon, i);
        assert (datas + [m])[..i] == datas[..i];
      } else {
        assert (datas + [m])[..i] == datas;
      }
    }
  }

  predicate UnconfirmedBounded(messages: seq<Message>, maxNon: nat) {
    forall i: nat :: i <= |messages| ==> Unconfirmed(messages[..i]) <= maxNon
  }

  lemma BoundedAppend(messages: seq<Message>, m: Message, maxNon: nat)
    requires UnconfirmedBounded(messages, maxNon) && Unconfirmed(messages + [m]) <= maxNon
    ensures UnconfirmedBounded(messages + [m], maxNon)
  {
    forall i: nat | i <= |messages| + 1
      ensures Unconfirmed((messages + [m])[..i]) <= maxNon
    {
      if i <= |messages| {
        assert (messages + [m])[..i] == messages[..i];
      } else {
        assert (messages + [m])[..i] == messages + [m];
      }
    }
  }

  lemma NotifyKeepsBounded(start: nat, maxNon: nat, s: Session, p: Packet)
    requires CountersAgree(start, s) && UnconfirmedBounded(s.messages, maxNon)
    ensures UnconfirmedBounded(s.messages + Notify(s.counters, maxNon, p).messages, maxNon)
  {
    var sent := Notify(s.counters, maxNon, p).messages;
    if sent == [] {
      assert s.messages + [] == s.messages;
    } else {
      Append(s.messages, sent[0]);
      BoundedAppend(s.messages, sent[0], maxNon);
      var withData := s.messages + [sent[0]];
      if |sent| == 2 {
        Append(withData, sent[1]);
        BoundedAppend(withData, sent[1], maxNon);
        assert s.messages + sent == withData + [sent[1]];
      } else {
        assert s.messages + sent == withData;
      }
    }
  }

  /** A client is asked for an acknowledgement at least once in maxNon + 1 data notifications. */
  lemma {:induction false} UnconfirmedAreBounded(start: nat, maxNon: nat, packets: seq<Packet>)
    ensures UnconfirmedBounded(Sent(start, maxNon, packets).messages, maxNon)
  {
    if packets == [] {
      assert Sent(start, maxNon, packets).messages[..0] == [];
    } else {
      var last := |packets| - 1;
      EverySession(start, maxNon, packets[..last]);
      UnconfirmedAreBounded(start, maxNon, packets[..last]);
      NotifyKeepsBounded(start, maxNon, Sent(start, maxNon, packets[..last]), packets[last]);
    }
  }
}

/** The branch as the server runs it, on the registration's own fields. */
module Registrations {
  import opened NotificationModel

  class Registration {
    /** COAP_OBS_MAX_FAIL and COAP_OBS_MAX_NON of the CoAP library. */
    const maxFail: nat
    const maxNon: nat
    var failCnt: nat
    var nonCnt: nat
    var notcnt: nat
    var datapackcount: nat
    var octcount: nat
    var lastSrOctcount: nat
    var lastSrPackcount: nat
    var ntptwin: int
    var rtptwin: int

    ghost const start: nat
    /** Every packet the branch let through, and every message sent. */
    ghost var packets: seq<Packet>
    ghost var messages: seq<Message>

    constructor (maxFail: nat, maxNon: nat, start: nat)
      ensures Valid() && packets == [] && messages == []
      ensures this.maxFail == maxFail && this.maxNon == maxNon && this.start == start && failCnt == 0
    {
      this.maxFail, this.maxNon, this.start := maxFail, maxNon, start;
      failCnt, nonCnt, notcnt := 0, 0, start;
      datapackcount, octcount, lastSrOctcount, lastSrPackcount := 0, 0, 0, 0;
      ntptwin, rtptwin := 0, 0;
      packets, messages := [], [];
    }

    ghost function Abstract(): Session
      reads this
    {
      Session(Counters(notcnt, nonCnt, datapackcount, octcount, lastSrOctcount), messages)
    }

    ghost predicate Valid()
      reads this
    {
      Abstract() == Sent(start, maxNon, packets)
    }

    /** One STREAM_UPDATE.  A registration that failed too often gets nothing. */
    method NotifyUpdate(packet: Packet, ntpts: int, rtpts: int) returns (sent: seq<Message>)
      requires Valid()
      modifies this
      ensures Valid()
      ensures failCnt == old(failCnt)
      ensures packets == old(packets) + if failCnt <= maxFail then [packet] else []
      ensures messages == old(messages) + sent
      ensures if failCnt <= maxFail then ntptwin == ntpts && rtptwin == rtpts
              else sent == [] && ntptwin == old(ntptwin) && rtptwin == old(rtptwin)
    {
      if failCnt <= maxFail {
        ntptwin, rtptwin := ntpts, rtpts;
        sent := LetThrough(packet);
      } else {
        sent := [];
        assert packets + [] == packets && messages + [] == messages;
      }
    }

    method LetThrough(packet: Packet) returns (sent: seq<Message>)
      requires Valid()
      modifies this`nonCnt, this`notcnt, this`datapackcount, this`octcount, this`lastSrOctcount, this`lastSrPackcount,
               this`packets, this`messages
      ensures Valid() && packets == old(packets) + [packet] && messages == old(messages) + sent
    {
      ghost var before := Abstract();
      SentNext(start, maxNon, packets, packet);
      sent := Send(packet);
      packets, messages := packets + [packet], messages + sent;
      assert Abstract() == AfterPacket(before, maxNon, packet);
    }

    /** The notification, if its type is understood, and the report that may be due with it. */
    method Send(packet: Packet) returns (sent: seq<Message>)
      modifies this`nonCnt, this`notcnt, this`datapackcount, this`octcount, this`lastSrOctcount, this`lastSrPackcount
      ensures Session(Abstract().counters, sent) == Notify(old(Abstract()).counters, maxNon, packet)
      ensures lastSrPackcount == if |sent| == 2 then datapackcount else old(lastSrPackcount)
    {
      var st := notcnt % 0x1_0000;
      if nonCnt >= maxNon || packet.conf.Confirmable? {
        sent := [Data(st, true, packet.bytes)];
        nonCnt := 0;
      } else if packet.conf.NonConfirmable? {
        sent := [Data(st, false, packet.bytes)];
        nonCnt := nonCnt + 1;
      } else {
        return [];
      }
      notcnt := notcnt + 1;
      datapackcount := datapackcount + 1;
      octcount := octcount + |packet.bytes|;
      if octcount > lastSrOctcount + THRESHOLD || datapackcount == 1 {
        sent := [sent[0], Report(notcnt % 0x1_0000, datapackcount, octcount)];
        lastSrOctcount := octcount;
        lastSrPackcount := datapackcount;
      }
    }
  }
}
