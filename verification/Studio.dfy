/** The public workspace snapshot, its validator and the transition check of its store. */
module Studio {
  import opened Basics

  datatype Stage = Brief | Outreach | Resolve | Approve | Schedule

  function Rank(s: Stage): nat {
    match s
    case Brief => 0
    case Outreach => 1
    case Resolve => 2
    case Approve => 3
    case Schedule => 4
  }

  datatype Effect = Persisted | Inert

  datatype Event = Event(
    ordinal: nat,
    persistedOrdinal: Option<nat>,
    createdAt: Time,
    stage: Stage,
    effect: Effect,
    caption: string,
    liveCopy: string)

  datatype Conversation = Conversation(ordinal: nat, eventOrdinal: nat, text: string)

  datatype DataPoint = DataPoint(eventOrdinal: nat, caption: string, summary: string, effect: Effect)

  datatype Outcome = Outcome(state: string, headline: string)

  /** The coordination request; it fixes every immutable header field of a snapshot. */
  datatype Request = Request(objective: string)

  datatype SnapshotState = Starting | Running | Complete | Failed

  datatype ExportKind = JsonExport | CsvExport

  /** Digests of run evidence (opaque) and of the exports generated from a snapshot. */
  datatype Sha = TraceSha(id: int) | ExportSha(kind: ExportKind, source: Snapshot)

  datatype Snapshot = Snapshot(
    alias: string,
    request: Request,
    state: SnapshotState,
    lifecycle: Stage,
    events: seq<Event>,
    conversations: seq<Conversation>,
    dataPoints: seq<DataPoint>,
    outcome: Outcome,
    downloadsReady: bool,
    finalTrace: Option<Sha>,
    transcript: Option<Sha>)
  {
    predicate Terminal() {
      state == SnapshotState.Complete || state == SnapshotState.Failed
    }
  }

  /** The persisted ordinals of a history, read in order. */
  function PersistedOrdinals(events: seq<Event>): seq<nat> {
    if events == [] then []
    else
      var last := events[|events| - 1];
      PersistedOrdinals(events[..|events| - 1]) +
      (match last.persistedOrdinal case None => [] case Some(p) => [p])
  }

  /** The stage reached by replaying a history; None if the lifecycle is broken. */
  function LifecycleAfter(events: seq<Event>): Option<Stage> {
    if events == [] then Some(Brief)
    else
      var last := events[|events| - 1];
      match LifecycleAfter(events[..|events| - 1])
      case None => None
      case Some(current) =>
        if last.effect.Inert? then (if last.stage == current then Some(current) else None)
        else if Rank(current) <= Rank(last.stage) then Some(last.stage) else None
  }

  predicate ValidEvents(events: seq<Event>) {
    && (forall i :: 0 <= i < |events| ==>
          && events[i].ordinal == i + 1
          && (events[i].persistedOrdinal.Some? <==> events[i].effect.Persisted?))
    && PersistedOrdinals(events) == UpTo(|PersistedOrdinals(events)|)
  }

  predicate DataFollowsEvents(events: seq<Event>, dataPoints: seq<DataPoint>) {
    && |dataPoints| == |events|
    && forall i :: 0 <= i < |events| ==>
         && dataPoints[i].eventOrdinal == i + 1
         && dataPoints[i].effect == events[i].effect
         && dataPoints[i].caption == events[i].caption
  }

  predicate ConversationsFollow(conversations: seq<Conversation>, count: nat) {
    && (forall i :: 0 <= i < |conversations| ==>
          && conversations[i].ordinal == i + 1
          && 1 <= conversations[i].eventOrdinal <= count)
    && (forall i, j :: 0 <= i <= j < |conversations| ==>
          conversations[i].eventOrdinal <= conversations[j].eventOrdinal)
  }

  /** The history part of the snapshot validator. */
  predicate SoundHistory(events: seq<Event>, conversations: seq<Conversation>,
                         dataPoints: seq<DataPoint>, lifecycle: Stage)
  {
    && ValidEvents(events)
    && DataFollowsEvents(events, dataPoints)
    && ConversationsFollow(conversations, |events|)
    && LifecycleAfter(events) == Some(lifecycle)
  }

  predicate ValidSnapshot(s: Snapshot) {
    && SoundHistory(s.events, s.conversations, s.dataPoints, s.lifecycle)
    && (s.downloadsReady ==> s.state == SnapshotState.Complete)
  }

  /** What the progress store demands of a snapshot before it considers it at all. */
  predicate ValidCopy(s: Snapshot) {
    && ValidSnapshot(s)
    && (s.finalTrace.Some? || s.transcript.Some? ==> s.state == SnapshotState.Complete)
    && (s.downloadsReady ==> s.finalTrace.Some? && s.transcript.Some?)
  }

  predicate AllowedState(before: SnapshotState, after: SnapshotState) {
    match before
    case Starting => after != SnapshotState.Complete
    case Running => after != SnapshotState.Starting
    case Complete => after == SnapshotState.Complete
    case Failed => after == SnapshotState.Failed
  }

  /** Events, conversations and data points only grow. */
  predicate Extends(previous: Snapshot, candidate: Snapshot) {
    && previous.events <= candidate.events
    && previous.conversations <= candidate.conversations
    && previous.dataPoints <= candidate.dataPoints
  }

  /** The progress store's transition check. */
  predicate CanFollow(previous: Snapshot, candidate: Snapshot) {
    if previous.Terminal() then candidate == previous
    else
      && AllowedState(previous.state, candidate.state)
      && previous.alias == candidate.alias
      && previous.request == candidate.request
      && Extends(previous, candidate)
      && (previous.finalTrace.Some? ==> candidate.finalTrace == previous.finalTrace)
      && (previous.transcript.Some? ==> candidate.transcript == previous.transcript)
  }

  function InitialSnapshot(request: Request, alias: string): Snapshot {
    Snapshot(alias, request, SnapshotState.Starting, Brief, [], [], [],
             Outcome("coordinating", "Coordination is ready to start"), false, None, None)
  }

  const STOPPED := Outcome("failed", "Coordination stopped")

  /** The fixed safe failure: the saved history with a failed outcome. */
  function FailedSnapshot(s: Snapshot): Snapshot {
    s.(state := SnapshotState.Failed, downloadsReady := false, outcome := STOPPED,
       finalTrace := None, transcript := None)
  }

  // Adding one event at the end of a history.

  lemma PersistedSnoc(events: seq<Event>, e: Event)
    ensures PersistedOrdinals(events + [e]) ==
            PersistedOrdinals(events) + (match e.persistedOrdinal case None => [] case Some(p) => [p])
  {
    assert (events + [e])[..|events|] == events;
  }

  lemma LifecycleSnoc(events: seq<Event>, e: Event)
    ensures LifecycleAfter(events + [e]) ==
            match LifecycleAfter(events)
            case None => None
            case Some(current) =>
              if e.effect.Inert? then (if e.stage == current then Some(current) else None)
              else if Rank(current) <= Rank(e.stage) then Some(e.stage) else None
  {
    assert (events + [e])[..|events|] == events;
  }
}
