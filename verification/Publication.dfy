/** Which prefix of a growing snapshot becomes durable, and what a cold instance rebuilds from it. */
module Publication {
  import opened Basics
  import opened Studio
  import opened CloudModel

  // ---- Cutting a snapshot into records ----

  function ConversationsAt(cs: seq<Conversation>, ordinal: nat): (r: seq<Conversation>)
    ensures forall i :: 0 <= i < |r| ==> r[i].eventOrdinal == ordinal
  {
    if cs == [] then []
    else
      var last := cs[|cs| - 1];
      ConversationsAt(cs[..|cs| - 1], ordinal) + (if last.eventOrdinal == ordinal then [last] else [])
  }

  /** The record published for the event at one ordinal. */
  function CutRecord(c: Snapshot, ordinal: nat): (r: TimelineRecord)
    requires ValidSnapshot(c) && 1 <= ordinal <= |c.events|
    ensures r.ordinal == ordinal
  {
    var e := c.events[ordinal - 1];
    Record(e.ordinal, e, ConversationsAt(c.conversations, e.ordinal), c.dataPoints[ordinal - 1], e.stage)
  }

  /** The timeline that is exactly the snapshot up to one ordinal. */
  function Cut(c: Snapshot, k: nat): (rs: seq<TimelineRecord>)
    requires ValidSnapshot(c) && k <= |c.events|
    ensures |rs| == k && ConsecutiveRecords(rs) && forall i :: 0 <= i < k ==> rs[i] == CutRecord(c, i + 1)
  {
    seq(k, i requires 0 <= i < k => CutRecord(c, i + 1))
  }

  /** The newest ordinal that carries a conversation, 0 if there is none. */
  function Watermark(cs: seq<Conversation>): nat {
    if cs == [] then 0
    else
      var rest, last := Watermark(cs[..|cs| - 1]), cs[|cs| - 1].eventOrdinal;
      if rest <= last then last else rest
  }

  /** The last ordinal a publication makes durable: everything at the end, else all but the newest conversation
      ordinal. */
  function Durable(c: Snapshot, current: nat): nat {
    if c.Terminal() then |c.events|
    else
      var watermark := Watermark(c.conversations);
      if watermark > current then watermark - 1 else current
  }

  datatype Plan =
    | Refused(error: StoreError)
    | AlreadyBound
    | AppendRange(first: nat, last: nat)

  /** The decision of one publication, from the metadata and the snapshot it has read. */
  function PlanPublish(a: Alias, m: Metadata, existing: Result<Snapshot, StoreError>, c: Snapshot): Plan {
    if !ValidSnapshot(c) then Refused(InvalidDocument)
    else if c.alias != a then Refused(RunAliasMismatch)
    else
      match existing
      case Err(e) => Refused(e)
      case Ok(x) =>
        if m.Terminal() then
          if x == c then AlreadyBound else Refused(TerminalDivergence)
        else if !ValidCopy(x) || !ValidCopy(c) || !CanFollow(x, c) then Refused(InvalidDocument)
        else if m.timelineCount != |x.events| then Refused(TimelinePrefixInvalid)
        else if exists i ::
            |x.conversations| <= i < |c.conversations| && c.conversations[i].eventOrdinal <= m.timelineCount
        then Refused(PublishedRecordIsImmutable)
        else if Durable(c, m.timelineCount) < m.timelineCount then Refused(WatermarkRegressed)
        else AppendRange(m.timelineCount + 1, Durable(c, m.timelineCount))
  }

  /** What a completion binds; None when the snapshot is not complete and bound. */
  function CompletionBinding(c: Snapshot): Option<TerminalBinding> {
    if c.state != SnapshotState.Complete || !c.downloadsReady || c.finalTrace.None? || c.transcript.None? then None
    else
      var exports := Exports(c);
      Some(Binding(RunState.Complete, c.outcome,
                   Evidence(c.finalTrace, c.finalTrace, c.transcript, Some(exports.json), Some(exports.csv))))
  }

  /** What is asked of a failed snapshot before it is published for the last time. */
  predicate FailureReady(c: Snapshot) { c.state == SnapshotState.Failed && !c.downloadsReady }

  /** What a failure binds; None when the binding itself is not valid. */
  function FailureBinding(c: Snapshot): Option<TerminalBinding> {
    if !FailureReady(c) || c.outcome.state != "failed" then None
    else Some(Binding(RunState.Failed, c.outcome, NO_EVIDENCE))
  }

  datatype ProductExports = ProductExports(json: Sha, csv: Sha)

  /** Export digests are functions of the whole snapshot. */
  function Exports(c: Snapshot): ProductExports {
    ProductExports(ExportSha(JsonExport, c), ExportSha(CsvExport, c))
  }

  // ---- Conversations of a cut ----

  lemma {:induction false} AtSplits(xs: seq<Conversation>, ys: seq<Conversation>, ordinal: nat)
    ensures ConversationsAt(xs + ys, ordinal) == ConversationsAt(xs, ordinal) + ConversationsAt(ys, ordinal)
  {
    if ys == [] {
      assert xs + ys == xs;
    } else {
      assert (xs + ys)[..|xs + ys| - 1] == xs + ys[..|ys| - 1];
      AtSplits(xs, ys[..|ys| - 1], ordinal);
    }
  }

  lemma {:induction false} AtAllOrNone(xs: seq<Conversation>, ordinal: nat)
    ensures (forall i :: 0 <= i < |xs| ==> xs[i].eventOrdinal != ordinal) ==> ConversationsAt(xs, ordinal) == []
    ensures (forall i :: 0 <= i < |xs| ==> xs[i].eventOrdinal == ordinal) ==> ConversationsAt(xs, ordinal) == xs
  {
    if xs != [] {
      AtAllOrNone(xs[..|xs| - 1], ordinal);
    }
  }

  /** Filtering what was flattened gives back each record's own conversations. */
  lemma {:induction false} AtOfFlattened(records: seq<TimelineRecord>, ordinal: nat)
    requires ConsecutiveRecords(records)
    ensures ConversationsAt(ConversationsOf(records), ordinal) ==
            if 1 <= ordinal <= |records| then records[ordinal - 1].conversations else []
  {
    if records != [] {
      var n := |records| - 1;
      AtOfFlattened(records[..n], ordinal);
      AtSplits(ConversationsOf(records[..n]), records[n].conversations, ordinal);
      AtAllOrNone(records[n].conversations, ordinal);
    }
  }

  /** The conversations of the ordinals up to k. */
  function Early(cs: seq<Conversation>, k: nat): seq<Conversation> {
    if cs == [] then []
    else
      var last := cs[|cs| - 1];
      Early(cs[..|cs| - 1], k) + (if last.eventOrdinal <= k then [last] else [])
  }

  lemma {:induction false} AllEarly(cs: seq<Conversation>, k: nat)
    requires forall i :: 0 <= i < |cs| ==> cs[i].eventOrdinal <= k
    ensures Early(cs, k) == cs
  {
    if cs != [] {
      AllEarly(cs[..|cs| - 1], k);
    }
  }

  /** Ordered conversations: the early ones are a prefix, and everything after it is later. */
  lemma {:induction false} EarlyIsPrefix(cs: seq<Conversation>, count: nat, k: nat)
    requires ConversationsFollow(cs, count)
    ensures Early(cs, k) <= cs && ConversationsFollow(Early(cs, k), k)
    ensures forall i :: |Early(cs, k)| <= i < |cs| ==> cs[i].eventOrdinal > k
    ensures k >= count ==> Early(cs, k) == cs
  {
    if cs != [] {
      var n := |cs| - 1;
      if cs[n].eventOrdinal <= k {
        assert forall i :: 0 <= i < |cs| ==> cs[i].eventOrdinal <= cs[n].eventOrdinal;
        AllEarly(cs, k);
      } else {
        EarlyIsPrefix(cs[..n], count, k);
      }
    }
  }

  lemma CutSnoc(c: Snapshot, k: nat)
    requires ValidSnapshot(c) && k < |c.events|
    ensures Cut(c, k + 1) == Cut(c, k) + [CutRecord(c, k + 1)]
  {
  }

  lemma {:induction false} NoneEarly(cs: seq<Conversation>)
    requires forall i :: 0 <= i < |cs| ==> 1 <= cs[i].eventOrdinal
    ensures Early(cs, 0) == []
  {
    if cs != [] {
      NoneEarly(cs[..|cs| - 1]);
    }
  }

  lemma LastConversation(cs: seq<Conversation>, k: nat)
    requires cs != []
    ensures var rest, last := cs[..|cs| - 1], cs[|cs| - 1];
            && Early(cs, k) == Early(rest, k) + (if last.eventOrdinal <= k then [last] else [])
            && ConversationsAt(cs, k) == ConversationsAt(rest, k) + (if last.eventOrdinal == k then [last] else [])
  {
  }

  lemma FollowShorter(cs: seq<Conversation>, count: nat)
    requires ConversationsFollow(cs, count) && cs != []
    ensures ConversationsFollow(cs[..|cs| - 1], count)
    ensures forall i :: 0 <= i < |cs| ==> cs[i].eventOrdinal <= cs[|cs| - 1].eventOrdinal
  {
  }

  lemma {:induction false} EarlyNext(cs: seq<Conversation>, count: nat, k: nat)
    requires ConversationsFollow(cs, count) && 1 <= k
    ensures Early(cs, k - 1) + ConversationsAt(cs, k) == Early(cs, k)
  {
    hide Early, ConversationsAt, ConversationsFollow;
    if cs == [] {
      NoConversation(k);
    } else {
      var rest, last := cs[..|cs| - 1], cs[|cs| - 1];
      FollowShorter(cs, count);
      if last.eventOrdinal < k {
        AllEarly(cs, k - 1);
        AllEarly(cs, k);
        AtAllOrNone(cs, k);
      } else {
        EarlyNext(rest, count, k);
        LastConversation(cs, k);
        LastConversation(cs, k - 1);
        assert Early(rest, k - 1) + (ConversationsAt(rest, k) + [last])
               == Early(rest, k - 1) + ConversationsAt(rest, k) + [last];
      }
    }
  }

  lemma NoConversation(k: nat)
    requires 1 <= k
    ensures Early([], k - 1) == [] && Early([], k) == [] && ConversationsAt([], k) == []
  {
  }

  lemma FollowAreLater(cs: seq<Conversation>, count: nat)
    requires ConversationsFollow(cs, count)
    ensures forall i :: 0 <= i < |cs| ==> 1 <= cs[i].eventOrdinal
  {
  }

  /** A cut stores every conversation up to its ordinal, in order, and no other. */
  lemma {:induction false} CutConversations(c: Snapshot, k: nat)
    requires ValidSnapshot(c) && k <= |c.events|
    ensures ConversationsOf(Cut(c, k)) == Early(c.conversations, k)
  {
    hide ValidRecord, PersistedOrdinals, LifecycleAfter, DataFollowsEvents, ConversationsFollow, Early, ConversationsAt;
    if k == 0 {
      FollowAreLater(c.conversations, |c.events|);
      NoneEarly(c.conversations);
    } else {
      EarlyNext(c.conversations, |c.events|, k);
      CutConversations(c, k - 1);
      CutSnoc(c, k - 1);
      HistorySnoc(Cut(c, k - 1), CutRecord(c, k));
    }
  }

  // ---- A cut is a sound history ----

  lemma {:induction false} PrefixOfHistory(events: seq<Event>, k: nat)
    requires k <= |events|
    ensures PersistedOrdinals(events[..k]) <= PersistedOrdinals(events)
    ensures LifecycleAfter(events).Some? ==>
              LifecycleAfter(events[..k]) == Some(if k == 0 then Brief else events[k - 1].stage)
  {
    if k < |events| {
      var shorter := events[..|events| - 1];
      PrefixOfHistory(shorter, k);
      assert shorter[..k] == events[..k];
    } else {
      assert events[..k] == events;
      if k > 0 {
        PrefixOfHistory(events[..k - 1], k - 1);
        assert events[..k - 1][..k - 1] == events[..k - 1];
      }
    }
  }

  lemma CutColumns(c: Snapshot, k: nat)
    requires ValidSnapshot(c) && k <= |c.events|
    ensures EventsOf(Cut(c, k)) == c.events[..k] && DataPointsOf(Cut(c, k)) == c.dataPoints[..k]
    ensures |c.dataPoints| == |c.events|
    ensures StageOf(Cut(c, k)) == if k == 0 then Brief else c.events[k - 1].stage
  {
    hide ValidRecord, PersistedOrdinals, LifecycleAfter, ConversationsFollow, ConversationsAt;
  }

  lemma CutIsSound(c: Snapshot, k: nat)
    requires ValidSnapshot(c) && k <= |c.events|
    ensures SoundRecords(Cut(c, k))
  {
    hide ValidRecord, PersistedOrdinals, LifecycleAfter, ConversationsFollow, ConversationsAt, Cut,
         EventsOf, DataPointsOf, ConversationsOf, StageOf, Early;
    CutColumns(c, k);
    CutConversations(c, k);
    EarlyIsPrefix(c.conversations, |c.events|, k);
    PrefixOfHistory(c.events, k);
  }

  /** The whole snapshot, once durable, is rebuilt event for event, conversation for conversation. */
  lemma FullCutRebuilds(c: Snapshot)
    requires ValidSnapshot(c)
    ensures var rs := Cut(c, |c.events|);
            && EventsOf(rs) == c.events && ConversationsOf(rs) == c.conversations
            && DataPointsOf(rs) == c.dataPoints && StageOf(rs) == c.lifecycle
  {
    hide ValidRecord, PersistedOrdinals, Cut, EventsOf, DataPointsOf, ConversationsOf, StageOf, ConversationsAt;
    CutColumns(c, |c.events|);
    CutConversations(c, |c.events|);
    PrefixOfHistory(c.events, |c.events|);
    assert c.events[..|c.events|] == c.events && c.dataPoints[..|c.events|] == c.dataPoints;
    EarlyIsPrefix(c.conversations, |c.events|, |c.events|);
  }

  // ---- What the checks of a publication establish ----

  /** A stored history that a candidate extends only past its end is the candidate cut there. */
  lemma ChecksGiveCut(records: seq<TimelineRecord>, c: Snapshot)
    requires ConsecutiveRecords(records) && ValidSnapshot(c)
    requires EventsOf(records) <= c.events && DataPointsOf(records) <= c.dataPoints
    requires ConversationsOf(records) <= c.conversations
    requires forall i :: |ConversationsOf(records)| <= i < |c.conversations| ==>
               c.conversations[i].eventOrdinal > |records|
    ensures |records| <= |c.events| && records == Cut(c, |records|)
  {
    hide PersistedOrdinals, LifecycleAfter, ConversationsOf, ConversationsAt, DataFollowsEvents, ConversationsFollow;
    var flat := ConversationsOf(records);
    var rest := c.conversations[|flat|..];
    assert c.conversations == flat + rest;
    forall i | 0 <= i < |records| ensures records[i] == CutRecord(c, i + 1) {
      AtSplits(flat, rest, i + 1);
      AtAllOrNone(rest, i + 1);
      AtOfFlattened(records, i + 1);
      assert EventsOf(records)[i] == c.events[i] && DataPointsOf(records)[i] == c.dataPoints[i];
      assert records[i].ordinal == i + 1 && records[i].lifecycle == c.events[i].stage;
    }
  }

  lemma {:induction false} WatermarkOfOrdered(cs: seq<Conversation>, count: nat)
    requires ConversationsFollow(cs, count)
    ensures Watermark(cs) == if cs == [] then 0 else cs[|cs| - 1].eventOrdinal
    ensures Watermark(cs) <= count
  {
    if cs != [] {
      WatermarkOfOrdered(cs[..|cs| - 1], count);
    }
  }

  /** Every accepted publication extends exactly the candidate's own cut, inside the candidate. */
  lemma AcceptedPlanIsCut(a: Alias, m: Metadata, records: seq<TimelineRecord>, read: Metadata, c: Snapshot)
    requires var plan := PlanPublish(a, read, Reconstruct(m, records), c); plan.AppendRange?
    ensures var plan := PlanPublish(a, read, Reconstruct(m, records), c);
            && plan.first == |records| + 1 && |records| <= plan.last <= |c.events|
            && ValidSnapshot(c) && records == Cut(c, |records|)
            && plan.last == Durable(c, |records|)
  {
    hide ValidRecord, PersistedOrdinals, LifecycleAfter, ValidEvents, DataFollowsEvents, ConversationsOf,
         ConversationsFollow, ConsecutiveRecords;
    var x := Rebuilt(m, records);
    assert !x.Terminal() ==> Extends(x, c);
    WatermarkOfOrdered(c.conversations, |c.events|);
    if x.Terminal() {
      assert c == x;
    }
    ChecksGiveCut(records, c);
  }

  // ---- The hold-back ----

  /** No ordinal up to k can gain a conversation in any later candidate. */
  predicate HeldBack(c: Snapshot, k: nat) {
    c.Terminal() || k == 0 || k < Watermark(c.conversations)
  }

  lemma HeldBackGrows(c: Snapshot, d: Snapshot, k: nat)
    requires ValidSnapshot(c) && ValidSnapshot(d) && CanFollow(c, d) && HeldBack(c, k)
    ensures HeldBack(d, k)
  {
    WatermarkOfOrdered(c.conversations, |c.events|);
    WatermarkOfOrdered(d.conversations, |d.events|);
  }

  lemma HeldBackWhilePublishing(c: Snapshot, k: nat, j: nat)
    requires HeldBack(c, k) && k <= j <= Durable(c, k)
    ensures HeldBack(c, j)
  {
  }

  /** A growing candidate adds conversations only past what is held back. */
  lemma NewConversationsArePast(c: Snapshot, d: Snapshot, k: nat)
    requires ValidSnapshot(c) && ValidSnapshot(d) && CanFollow(c, d) && HeldBack(c, k)
    ensures forall i :: |Early(c.conversations, k)| <= i < |d.conversations| ==> d.conversations[i].eventOrdinal > k
  {
    hide PersistedOrdinals, LifecycleAfter, ValidEvents, DataFollowsEvents;
    WatermarkOfOrdered(c.conversations, |c.events|);
    EarlyIsPrefix(c.conversations, |c.events|, k);
    forall i | |Early(c.conversations, k)| <= i < |d.conversations| ensures d.conversations[i].eventOrdinal > k {
      if i < |c.conversations| {
        assert d.conversations[i] == c.conversations[i];
      } else if k > 0 && !c.Terminal() {
        assert c.conversations[|c.conversations| - 1] == d.conversations[|c.conversations| - 1];
      }
    }
  }

  /** So the stored cut of one candidate is the cut of the next. */
  lemma HeldBackCutIsShared(c: Snapshot, d: Snapshot, k: nat)
    requires ValidSnapshot(c) && ValidSnapshot(d) && CanFollow(c, d) && k <= |c.events| && HeldBack(c, k)
    ensures k <= |d.events| && Cut(c, k) == Cut(d, k)
    ensures ConversationsOf(Cut(c, k)) <= d.conversations
    ensures forall i :: |ConversationsOf(Cut(c, k))| <= i < |d.conversations| ==> d.conversations[i].eventOrdinal > k
  {
    hide ValidRecord, ValidEvents, DataFollowsEvents, LifecycleAfter, ConversationsFollow, Cut, EventsOf, DataPointsOf,
         ConversationsOf, ConsecutiveRecords, HeldBack, Watermark;
    CutColumns(c, k);
    CutConversations(c, k);
    NewConversationsArePast(c, d, k);
    assert c.events[..k] <= d.events && c.dataPoints[..k] <= d.dataPoints;
    EarlyIsPrefix(c.conversations, |c.events|, k);
    assert Early(c.conversations, k) <= d.conversations;
    ChecksGiveCut(Cut(c, k), d);
  }

  /** For a growing sequence of candidates the immutability and watermark refusals never fire. */
  lemma GrowingIsNeverRefusedAsImmutable(a: Alias, m: Metadata, read: Metadata, c: Snapshot, d: Snapshot, k: nat)
    requires ValidSnapshot(c) && k <= |c.events| && HeldBack(c, k)
    requires ValidSnapshot(d) ==> CanFollow(c, d)
    ensures var plan := PlanPublish(a, read, Reconstruct(m, Cut(c, k)), d);
            plan != Refused(PublishedRecordIsImmutable) && plan != Refused(WatermarkRegressed)
  {
    hide ValidRecord, Cut, EventsOf, DataPointsOf, ConversationsOf, ConsecutiveRecords, HeldBack, ValidSnapshot,
         ValidCopy;
    if ValidSnapshot(d) {
      HeldBackCutIsShared(c, d, k);
    }
    DurableWithin(d, read.timelineCount);
  }

  lemma DurableWithin(c: Snapshot, k: nat)
    ensures ValidSnapshot(c) && k <= |c.events| ==> k <= Durable(c, k) <= |c.events|
  {
    hide PersistedOrdinals, LifecycleAfter, ValidEvents, DataFollowsEvents;
    if ValidSnapshot(c) {
      WatermarkOfOrdered(c.conversations, |c.events|);
    }
  }

  // ---- When a published record is called immutable ----

  /** A candidate that may follow the rebuilt history is refused as immutable exactly when the stored records are not
      its own cut: it says something else than was published at one of the published ordinals. */
  lemma ImmutableExactly(a: Alias, m: Metadata, records: seq<TimelineRecord>, d: Snapshot)
    requires ConsecutiveRecords(records) && |records| == m.timelineCount && !m.Terminal() && SoundRecords(records)
    requires ValidCopy(d) && d.alias == a && ValidCopy(Rebuilt(m, records)) && CanFollow(Rebuilt(m, records), d)
    ensures |records| <= |d.events|
    ensures PlanPublish(a, m, Reconstruct(m, records), d) == Refused(PublishedRecordIsImmutable) <==>
              records != Cut(d, |records|)
  {
    hide PersistedOrdinals, LifecycleAfter, ValidEvents, DataFollowsEvents, ConversationsFollow, ConversationsOf, Cut,
         EventsOf, DataPointsOf, StageOf, ConsecutiveRecords;
    var k := |records|;
    assert |EventsOf(records)| == k;
    if records == Cut(d, k) {
      CutConversations(d, k);
      EarlyIsPrefix(d.conversations, |d.events|, k);
    } else if forall i :: |ConversationsOf(records)| <= i < |d.conversations| ==> d.conversations[i].eventOrdinal > k {
      ChecksGiveCut(records, d);
    }
    DurableWithin(d, k);
  }

  /** Two saved events, and what is told about them: ordinals of the conversations. */
  function Told(first: nat, second: nat): Snapshot {
    var e1, e2 := Event(1, Some(1), 0, Brief, Persisted, "", ""), Event(2, Some(2), 0, Brief, Persisted, "", "");
    InitialSnapshot(Request(""), "r").(
      state := SnapshotState.Running, events := [e1, e2],
      conversations := [Conversation(1, first, "a"), Conversation(2, second, "b")],
      dataPoints := [DataPoint(1, "", "", Persisted), DataPoint(2, "", "", Persisted)])
  }

  lemma TwoEvents(e1: Event, e2: Event)
    requires e1.persistedOrdinal == Some(1) && e2.persistedOrdinal == Some(2)
    requires e1.effect == e2.effect == Persisted && e1.stage == e2.stage == Brief
    ensures PersistedOrdinals([e1, e2]) == [1, 2] && LifecycleAfter([e1, e2]) == Some(Brief)
  {
    assert [] + [e1] == [e1] && [e1] + [e2] == [e1, e2];
    PersistedSnoc([], e1);
    PersistedSnoc([e1], e2);
    LifecycleSnoc([], e1);
    LifecycleSnoc([e1], e2);
  }

  lemma TwoConversations(c1: Conversation, c2: Conversation)
    requires c1.eventOrdinal <= c2.eventOrdinal
    ensures Watermark([c1, c2]) == c2.eventOrdinal
  {
    var cs := [c1, c2];
    assert cs[..|cs| - 1] == [c1] && [c1][..0] == [];
    assert Watermark([c1]) == c1.eventOrdinal;
  }

  lemma ToldIsValid(second: nat)
    requires 1 <= second <= 2
    ensures ValidCopy(Told(1, second)) && Watermark(Told(1, second).conversations) == second
  {
    hide PersistedOrdinals, LifecycleAfter, Watermark;
    var c := Told(1, second);
    TwoEvents(c.events[0], c.events[1]);
    assert c.events == [c.events[0], c.events[1]];
    TwoConversations(c.conversations[0], c.conversations[1]);
    assert c.conversations == [c.conversations[0], c.conversations[1]];
    assert UpTo(2) == [1, 2];
  }

  /** What a running run has made durable of the first telling. */
  lemma ToldIsDurable(m: Metadata)
    requires m.state == RunState.Running && m.evidence.Empty() && m.alias == "r" && m.request == Request("")
             && m.timelineCount == 0
    ensures PlanPublish("r", m, Reconstruct(m, []), Told(1, 2)) == AppendRange(1, 1)
  {
    hide PersistedOrdinals, LifecycleAfter, Watermark;
    ToldIsValid(2);
    CutIsSound(Told(1, 2), 0);
    assert Cut(Told(1, 2), 0) == [];
  }

  /** One publication stores the first event with its conversation; a candidate that tells the second conversation about
      the first event too is refused for ever. */
  lemma RetoldCandidateIsImmutable(m: Metadata)
    requires m.state == RunState.Running && m.evidence.Empty() && m.alias == "r" && m.request == Request("")
             && m.timelineCount == 0
    ensures PlanPublish("r", m, Reconstruct(m, []), Told(1, 2)) == AppendRange(1, 1)
    ensures ValidSnapshot(Told(1, 2))
    ensures var stored := m.(timelineCount := 1);
            PlanPublish("r", stored, Reconstruct(stored, Cut(Told(1, 2), 1)), Told(1, 1))
              == Refused(PublishedRecordIsImmutable)
  {
    hide PersistedOrdinals, LifecycleAfter, Watermark, ValidEvents, DataFollowsEvents, ConversationsFollow, Cut,
         PlanPublish, ConversationsOf, EventsOf, DataPointsOf, StageOf, LifecycleAfter, ConversationsAt;
    var first, second, stored := Told(1, 2), Told(1, 1), m.(timelineCount := 1);
    ToldIsValid(1);
    ToldIsValid(2);
    ToldIsDurable(m);
    CutIsSound(first, 1);
    CutColumns(first, 1);
    CutConversations(first, 1);
    EarlyOfTold();
    ImmutableExactly("r", stored, Cut(first, 1), second);
    CutConversations(second, 1);
  }

  lemma EarlyOfTold()
    ensures Early(Told(1, 2).conversations, 1) == [Conversation(1, 1, "a")]
    ensures Early(Told(1, 1).conversations, 1) == Told(1, 1).conversations
  {
    var a, b := Conversation(1, 1, "a"), Conversation(2, 2, "b");
    assert Told(1, 2).conversations == [a, b] && [a, b][..1] == [a] && [a][..0] == [];
    AllEarly(Told(1, 1).conversations, 1);
  }
}
