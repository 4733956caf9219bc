/** Records, bindings and metadata of one durable cloud run, with their validators. */
module CloudModel {
  import opened Basics
  import opened Studio

  type Owner = string
  type Alias = string

  datatype RunState = Queued | Running | Complete | Failed

  datatype StoreError =
    | ActiveRun
    | UnknownRun
    | RunAliasConflict
    | IdempotencyMismatch
    | DispatchStateConflict
    | ActiveOwnerLost
    | LeaseOutOfRange
    | ExpiredClaim
    | ClaimLost
    | ClaimExpired
    | TimelineGap
    | PersistedOrdinalGap
    | RecoveryNotInert
    | TimelineDivergence
    | TerminalDivergence
    | TimelinePrefixInvalid
    | InvalidDocument
    | RunAliasMismatch
    | PublishedRecordIsImmutable
    | WatermarkRegressed
    | CompletionNotBound
    | FailureNotBound
    | ExportsNotBound
    | ExportDigestMismatch

  // ---- Timeline records ----

  datatype RawRecord = Record(
    ordinal: nat,
    event: Event,
    conversations: seq<Conversation>,
    dataPoint: DataPoint,
    lifecycle: Stage)

  predicate ValidRecord(r: RawRecord) {
    && 1 <= r.ordinal
    && r.event.ordinal == r.ordinal
    && r.dataPoint.eventOrdinal == r.ordinal
    && r.dataPoint.effect == r.event.effect
    && r.dataPoint.caption == r.event.caption
    && r.lifecycle == r.event.stage
    && forall i :: 0 <= i < |r.conversations| ==> r.conversations[i].eventOrdinal == r.ordinal
  }

  type TimelineRecord = r: RawRecord | ValidRecord(r)
    witness Record(1, Event(1, None, 0, Brief, Inert, "", ""), [], DataPoint(1, "", "", Inert), Brief)

  /** The record hash covers the whole payload. */
  function RecordHash(r: TimelineRecord): Digest<RawRecord> { DigestOf(r) }

  // ---- Terminal bindings ----

  datatype Evidence = Evidence(
    semantic: Option<Sha>,
    finalTrace: Option<Sha>,
    transcript: Option<Sha>,
    json: Option<Sha>,
    csv: Option<Sha>)
  {
    predicate Full() { semantic.Some? && finalTrace.Some? && transcript.Some? && json.Some? && csv.Some? }
    predicate Empty() { semantic.None? && finalTrace.None? && transcript.None? && json.None? && csv.None? }
  }

  const NO_EVIDENCE := Evidence(None, None, None, None, None)

  datatype RawBinding = Binding(state: RunState, outcome: Outcome, evidence: Evidence)

  predicate ValidBinding(b: RawBinding) {
    match b.state
    case Complete => b.evidence.Full()
    case Failed => b.evidence.Empty() && b.outcome.state == "failed"
    case Queued => false
    case Running => false
  }

  type TerminalBinding = b: RawBinding | ValidBinding(b)
    witness Binding(RunState.Failed, STOPPED, NO_EVIDENCE)

  // ---- Metadata ----

  datatype Metadata = Metadata(
    alias: Alias,
    keyHash: Digest<string>,
    request: Request,
    state: RunState,
    lifecycleStage: Stage,
    savedOrdinal: nat,
    timelineCount: nat,
    claimOwner: Option<Owner>,
    leaseExpiresAt: Option<Time>,
    version: nat,
    outcome: Outcome,
    evidence: Evidence,
    createdAt: Time,
    startedAt: Option<Time>,
    updatedAt: Time,
    completedAt: Option<Time>)
  {
    predicate Terminal() { state == RunState.Complete || state == RunState.Failed }
  }

  /** The metadata validator, which copies made in place never run again. */
  predicate Consistent(m: Metadata) {
    && 1 <= m.version
    && m.savedOrdinal <= m.timelineCount
    && match m.state
       case Queued =>
         m.claimOwner.None? && m.leaseExpiresAt.None? && m.evidence.Empty() && m.completedAt.None?
       case Running =>
         m.claimOwner.Some? && m.leaseExpiresAt.Some? && m.evidence.Empty() && m.completedAt.None?
       case Complete =>
         m.claimOwner.None? && m.leaseExpiresAt.None? && m.completedAt.Some? && m.evidence.Full()
       case Failed =>
         && m.claimOwner.None? && m.leaseExpiresAt.None? && m.completedAt.Some?
         && m.evidence.Empty() && m.outcome.state == "failed"
  }

  function NewMetadata(request: Request, alias: Alias, key: string, now: Time): Metadata {
    var initial := InitialSnapshot(request, alias);
    Metadata(alias, DigestOf(key), request, RunState.Queued, initial.lifecycle, 0, 0, None, None, 1,
             initial.outcome, NO_EVIDENCE, now, None, now, None)
  }

  function BindingFromMetadata(m: Metadata): RawBinding {
    Binding(m.state, m.outcome, m.evidence)
  }

  /** The claim guard in front of every owner write; None lets the write pass. */
  function ClaimRefusal(m: Metadata, owner: Owner, now: Time): Option<StoreError> {
    if m.state != RunState.Running || m.claimOwner != Some(owner) then Some(ClaimLost)
    else match m.leaseExpiresAt
      case None => Some(ClaimExpired)
      case Some(expiry) => if expiry <= now then Some(ClaimExpired) else None
  }

  /** The ordinal guard in front of every append. */
  function NextRecordRefusal(m: Metadata, r: TimelineRecord): Option<StoreError> {
    if r.ordinal != m.timelineCount + 1 then Some(TimelineGap)
    else if r.event.persistedOrdinal.Some? && r.event.persistedOrdinal.value != m.savedOrdinal + 1
    then Some(PersistedOrdinalGap)
    else None
  }

  function AfterAppend(m: Metadata, r: TimelineRecord, now: Time): Metadata {
    m.(timelineCount := r.ordinal,
       savedOrdinal := match r.event.persistedOrdinal case None => m.savedOrdinal case Some(p) => p,
       lifecycleStage := r.lifecycle,
       version := m.version + 1,
       updatedAt := now)
  }

  function AfterFinish(m: Metadata, b: TerminalBinding, now: Time): Metadata {
    m.(state := b.state, claimOwner := None, leaseExpiresAt := None, version := m.version + 1,
       outcome := b.outcome, evidence := b.evidence, updatedAt := now, completedAt := Some(now))
  }

  function AfterDispatchFailure(m: Metadata, now: Time): Metadata {
    m.(state := RunState.Failed, version := m.version + 1, outcome := STOPPED,
       updatedAt := now, completedAt := Some(now))
  }

  function AfterClaim(m: Metadata, owner: Owner, now: Time, lease: int): Metadata {
    m.(state := RunState.Running, claimOwner := Some(owner), leaseExpiresAt := Some(now + lease),
       version := m.version + 1, startedAt := Some(now), updatedAt := now)
  }

  function AfterRecovery(m: Metadata, r: TimelineRecord, owner: Owner, now: Time, lease: int): Metadata {
    AfterAppend(m, r, now).(claimOwner := Some(owner), leaseExpiresAt := Some(now + lease),
                            version := m.version + 1, updatedAt := now)
  }

  function AfterRenewal(m: Metadata, now: Time, lease: int): Metadata {
    m.(leaseExpiresAt := Some(now + lease), version := m.version + 1, updatedAt := now)
  }

  // ---- Reading a timeline back ----

  function EventsOf(records: seq<TimelineRecord>): (es: seq<Event>)
    ensures |es| == |records|
    ensures forall i :: 0 <= i < |records| ==> es[i] == records[i].event
  {
    seq(|records|, i requires 0 <= i < |records| => records[i].event)
  }

  function DataPointsOf(records: seq<TimelineRecord>): (ds: seq<DataPoint>)
    ensures |ds| == |records|
    ensures forall i :: 0 <= i < |records| ==> ds[i] == records[i].dataPoint
  {
    seq(|records|, i requires 0 <= i < |records| => records[i].dataPoint)
  }

  function ConversationsOf(records: seq<TimelineRecord>): seq<Conversation> {
    if records == [] then []
    else ConversationsOf(records[..|records| - 1]) + records[|records| - 1].conversations
  }

  function StageOf(records: seq<TimelineRecord>): Stage {
    if records == [] then Brief else records[|records| - 1].lifecycle
  }

  predicate ConsecutiveRecords(records: seq<TimelineRecord>) {
    forall i :: 0 <= i < |records| ==> records[i].ordinal == i + 1
  }

  predicate SoundRecords(records: seq<TimelineRecord>) {
    SoundHistory(EventsOf(records), ConversationsOf(records), DataPointsOf(records), StageOf(records))
  }

  function SnapshotStateOf(state: RunState): SnapshotState {
    match state
    case Queued => SnapshotState.Starting
    case Running => SnapshotState.Running
    case Complete => SnapshotState.Complete
    case Failed => SnapshotState.Failed
  }

  /** The snapshot a cold instance rebuilds from metadata and stored records. */
  function Rebuilt(m: Metadata, records: seq<TimelineRecord>): Snapshot {
    Snapshot(m.alias, m.request, SnapshotStateOf(m.state), StageOf(records),
             EventsOf(records), ConversationsOf(records), DataPointsOf(records), m.outcome,
             m.state == RunState.Complete, m.evidence.finalTrace, m.evidence.transcript)
  }

  function Reconstruct(m: Metadata, records: seq<TimelineRecord>): Result<Snapshot, StoreError> {
    if |records| != m.timelineCount || !ConsecutiveRecords(records) then Err(TimelinePrefixInvalid)
    else if !ValidSnapshot(Rebuilt(m, records)) then Err(InvalidDocument)
    else Ok(Rebuilt(m, records))
  }

  /** The inert record a recovering worker appends, built from metadata it has read. */
  function RecoveryRecord(m: Metadata, now: Time): TimelineRecord {
    var ordinal := m.timelineCount + 1;
    Record(ordinal,
           Event(ordinal, None, now, m.lifecycleStage, Inert, "Worker recovery started", "Worker recovery started."),
           [],
           DataPoint(ordinal, "Worker recovery started", "No state change", Inert),
           m.lifecycleStage)
  }

  // ---- Adding one record at the end ----

  lemma HistorySnoc(records: seq<TimelineRecord>, r: TimelineRecord)
    ensures EventsOf(records + [r]) == EventsOf(records) + [r.event]
    ensures DataPointsOf(records + [r]) == DataPointsOf(records) + [r.dataPoint]
    ensures ConversationsOf(records + [r]) == ConversationsOf(records) + r.conversations
    ensures StageOf(records + [r]) == r.lifecycle
  {
    assert (records + [r])[..|records|] == records;
  }

  /** An inert record that repeats the current stage keeps a sound history sound. */
  lemma InertRecordKeepsSound(records: seq<TimelineRecord>, r: TimelineRecord)
    requires SoundRecords(records) && ConsecutiveRecords(records)
    requires r.ordinal == |records| + 1 && r.event.effect.Inert? && r.event.persistedOrdinal.None?
    requires r.conversations == [] && r.lifecycle == StageOf(records)
    ensures SoundRecords(records + [r]) && ConsecutiveRecords(records + [r])
  {
    hide PersistedOrdinals, LifecycleAfter, ConversationsOf;
    HistorySnoc(records, r);
    PersistedSnoc(EventsOf(records), r.event);
    LifecycleSnoc(EventsOf(records), r.event);
  }
}
