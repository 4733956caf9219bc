/** The run store as a value: one pure step per repository operation, and what every step keeps. */
module RunStore {
  import opened Basics
  import opened Studio
  import opened CloudModel

  type Timeline = map<int, TimelineRecord>

  /** One run: its metadata and its records by ordinal. */
  datatype Run = Run(meta: Metadata, timeline: Timeline)
  {
    function With(m: Metadata): Run { Run(m, timeline) }

    function WithRecord(m: Metadata, r: TimelineRecord): Run { Run(m, timeline[r.ordinal := r]) }
  }

  datatype Store = Store(active: Option<Alias>, runs: map<Alias, Run>)
  {
    function Put(a: Alias, run: Run): Store { Store(active, runs[a := run]) }

    function Release(a: Alias, run: Run): Store { Store(None, runs[a := run]) }
  }

  /** The store after an operation and what the caller is told; a refusal never changes the store. */
  datatype Step<+T> = Step(store: Store, reply: Result<T, StoreError>)

  datatype ClaimStatus = Claimed | Duplicate | Conflict | Terminal | Recovered

  datatype ClaimResult = ClaimResult(status: ClaimStatus, leaseExpiresAt: Option<Time>, version: nat)

  function Refuse<T>(s: Store, e: StoreError): Step<T> { Step(s, Err(e)) }

  function Create(s: Store, request: Request, a: Alias, key: string, now: Time): Step<()> {
    if s.active.Some? then Refuse(s, ActiveRun)
    else if a in s.runs then Refuse(s, RunAliasConflict)
    else Step(Store(Some(a), s.runs[a := Run(NewMetadata(request, a, key, now), map[])]), Ok(()))
  }

  function FailQueuedDispatch(s: Store, a: Alias, key: string, now: Time): Step<bool> {
    if a !in s.runs then Refuse(s, UnknownRun)
    else
      var run := s.runs[a];
      if run.meta.keyHash != DigestOf(key) then Refuse(s, IdempotencyMismatch)
      else if run.meta.state == RunState.Failed then Step(s, Ok(false))
      else if run.meta.state != RunState.Queued then Refuse(s, DispatchStateConflict)
      else if s.active != Some(a) then Refuse(s, ActiveOwnerLost)
      else Step(s.Release(a, run.With(AfterDispatchFailure(run.meta, now))), Ok(true))
  }

  function Claim(s: Store, a: Alias, key: string, owner: Owner, now: Time, lease: int,
                 recovery: Option<TimelineRecord>): Step<ClaimResult>
  {
    if !(1 <= lease <= 900) then Refuse(s, LeaseOutOfRange)
    else if a !in s.runs then Refuse(s, UnknownRun)
    else
      var run := s.runs[a];
      var m := run.meta;
      if m.keyHash != DigestOf(key) then Refuse(s, IdempotencyMismatch)
      else if m.Terminal() then Step(s, Ok(ClaimResult(Terminal, None, m.version)))
      else if m.state == RunState.Queued then
        Step(s.Put(a, run.With(AfterClaim(m, owner, now, lease))),
             Ok(ClaimResult(Claimed, Some(now + lease), m.version + 1)))
      else if m.leaseExpiresAt.Some? && m.leaseExpiresAt.value > now then
        Step(s, Ok(ClaimResult(if m.claimOwner == Some(owner) then Duplicate else Conflict,
                               m.leaseExpiresAt, m.version)))
      else
        match recovery
        case None => Refuse(s, ExpiredClaim)
        case Some(r) =>
          match NextRecordRefusal(m, r)
          case Some(e) => Refuse(s, e)
          case None =>
            if r.event.effect != Inert then Refuse(s, RecoveryNotInert)
            else Step(s.Put(a, run.WithRecord(AfterRecovery(m, r, owner, now, lease), r)),
                      Ok(ClaimResult(Recovered, Some(now + lease), m.version + 1)))
  }

  function Renew(s: Store, a: Alias, owner: Owner, now: Time, lease: int): Step<bool> {
    if !(1 <= lease <= 900) then Refuse(s, LeaseOutOfRange)
    else if a !in s.runs then Refuse(s, UnknownRun)
    else
      var run := s.runs[a];
      if ClaimRefusal(run.meta, owner, now).Some? then Step(s, Ok(false))
      else Step(s.Put(a, run.With(AfterRenewal(run.meta, now, lease))), Ok(true))
  }

  function Append(s: Store, a: Alias, owner: Owner, r: TimelineRecord, now: Time): Step<bool> {
    if a !in s.runs then Refuse(s, UnknownRun)
    else
      var run := s.runs[a];
      if r.ordinal in run.timeline then
        if RecordHash(run.timeline[r.ordinal]) == RecordHash(r) then Step(s, Ok(false))
        else Refuse(s, TimelineDivergence)
      else
        match ClaimRefusal(run.meta, owner, now)
        case Some(e) => Refuse(s, e)
        case None =>
          match NextRecordRefusal(run.meta, r)
          case Some(e) => Refuse(s, e)
          case None => Step(s.Put(a, run.WithRecord(AfterAppend(run.meta, r, now), r)), Ok(true))
  }

  function Finish(s: Store, a: Alias, owner: Owner, b: TerminalBinding, now: Time): Step<bool> {
    if a !in s.runs then Refuse(s, UnknownRun)
    else
      var run := s.runs[a];
      if run.meta.Terminal() then
        if BindingFromMetadata(run.meta) == b then Step(s, Ok(false)) else Refuse(s, TerminalDivergence)
      else
        match ClaimRefusal(run.meta, owner, now)
        case Some(e) => Refuse(s, e)
        case None =>
          if s.active != Some(a) then Refuse(s, ActiveOwnerLost)
          else Step(s.Release(a, run.With(AfterFinish(run.meta, b, now))), Ok(true))
  }

  // ---- Reading ----

  predicate GapFree(tl: Timeline, n: nat) {
    && (forall k :: k in tl ==> 1 <= k <= n)
    && (forall k :: 1 <= k <= n ==> k in tl && tl[k].ordinal == k)
  }

  /** The records of a gap-free timeline in ordinal order. */
  function RecordsOf(tl: Timeline, n: nat): (rs: seq<TimelineRecord>)
    requires GapFree(tl, n)
    ensures |rs| == n && ConsecutiveRecords(rs)
    ensures forall i :: 0 <= i < n ==> rs[i] == tl[i + 1]
  {
    seq(n, i requires 0 <= i < n => tl[i + 1])
  }

  // ---- The invariant of every reachable store ----

  /** One run: validator, gap-free timeline, persisted ordinals 1..saved in order, current stage. */
  predicate RunInv(a: Alias, run: Run) {
    && GapFree(run.timeline, run.meta.timelineCount)
    && run.meta.alias == a
    && Consistent(run.meta)
    && PersistedOrdinals(EventsOf(Records(run))) == UpTo(run.meta.savedOrdinal)
    && run.meta.lifecycleStage == StageOf(Records(run))
  }

  function Records(run: Run): seq<TimelineRecord>
    requires GapFree(run.timeline, run.meta.timelineCount)
  {
    RecordsOf(run.timeline, run.meta.timelineCount)
  }

  /** What a cold instance reads for one run. */
  function Load(run: Run): Result<Snapshot, StoreError>
    requires GapFree(run.timeline, run.meta.timelineCount)
  {
    Reconstruct(run.meta, Records(run))
  }

  predicate RunsInv(runs: map<Alias, Run>) {
    forall a :: a in runs ==> RunInv(a, runs[a])
  }

  /** At most one run is not terminal, and the active slot names exactly that run. */
  predicate SlotInv(s: Store) {
    && (s.active.Some? ==> s.active.value in s.runs)
    && (forall a :: a in s.runs ==> (!s.runs[a].meta.Terminal() <==> s.active == Some(a)))
  }

  predicate StoreInv(s: Store) { RunsInv(s.runs) && SlotInv(s) }

  /** How a run may change: not at all, or to a higher version with every old record kept. */
  predicate RunEvolves(x: Run, y: Run) {
    && (y.meta != x.meta ==> x.meta.version < y.meta.version && !x.meta.Terminal())
    && (x.meta.Terminal() ==> y == x)
    && y.meta.keyHash == x.meta.keyHash
    && y.meta.request == x.meta.request
    && x.timeline.Keys <= y.timeline.Keys
    && (forall k :: k in x.timeline ==> y.timeline[k] == x.timeline[k])
    && x.meta.timelineCount <= y.meta.timelineCount
    && (y.meta.timelineCount == x.meta.timelineCount ==>
          y.timeline == x.timeline && y.meta.lifecycleStage == x.meta.lifecycleStage)
  }

  predicate Evolves(s: Store, t: Store) {
    forall a :: a in s.runs ==> a in t.runs && RunEvolves(s.runs[a], t.runs[a])
  }

  lemma EvolvesTransitive(s: Store, t: Store, u: Store)
    requires Evolves(s, t) && Evolves(t, u)
    ensures Evolves(s, u)
  {
    forall a | a in s.runs ensures a in u.runs && RunEvolves(s.runs[a], u.runs[a]) {
      RunEvolvesTransitive(s.runs[a], t.runs[a], u.runs[a]);
    }
  }

  lemma RunEvolvesTransitive(x: Run, y: Run, z: Run)
    requires RunEvolves(x, y) && RunEvolves(y, z)
    ensures RunEvolves(x, z)
  {
  }

  // ---- Preservation: first one run at a time ----

  /** Replacing metadata without touching the timeline. */
  lemma MetaKeepsRunInv(a: Alias, run: Run, m: Metadata)
    requires RunInv(a, run) && !run.meta.Terminal()
    requires Consistent(m) && m == run.meta.(state := m.state, claimOwner := m.claimOwner,
               leaseExpiresAt := m.leaseExpiresAt, version := run.meta.version + 1, outcome := m.outcome,
               evidence := m.evidence, startedAt := m.startedAt, updatedAt := m.updatedAt, completedAt := m.completedAt)
    ensures RunInv(a, run.With(m)) && RunEvolves(run, run.With(m))
  {
    assert Records(run.With(m)) == Records(run);
  }

  lemma ClaimedRunInv(a: Alias, run: Run, owner: Owner, now: Time, lease: int)
    requires RunInv(a, run) && run.meta.state == RunState.Queued
    ensures var next := run.With(AfterClaim(run.meta, owner, now, lease)); RunInv(a, next) && RunEvolves(run, next)
  {
    MetaKeepsRunInv(a, run, AfterClaim(run.meta, owner, now, lease));
  }

  lemma DispatchFailedRunInv(a: Alias, run: Run, now: Time)
    requires RunInv(a, run) && run.meta.state == RunState.Queued
    ensures var next := run.With(AfterDispatchFailure(run.meta, now)); RunInv(a, next) && RunEvolves(run, next)
  {
    MetaKeepsRunInv(a, run, AfterDispatchFailure(run.meta, now));
  }

  lemma RenewedRunInv(a: Alias, run: Run, now: Time, lease: int)
    requires RunInv(a, run) && run.meta.state == RunState.Running
    ensures var next := run.With(AfterRenewal(run.meta, now, lease)); RunInv(a, next) && RunEvolves(run, next)
  {
    MetaKeepsRunInv(a, run, AfterRenewal(run.meta, now, lease));
  }

  lemma FinishedRunInv(a: Alias, run: Run, b: TerminalBinding, now: Time)
    requires RunInv(a, run) && run.meta.state == RunState.Running
    ensures var next := run.With(AfterFinish(run.meta, b, now)); RunInv(a, next) && RunEvolves(run, next)
  {
    MetaKeepsRunInv(a, run, AfterFinish(run.meta, b, now));
  }

  /** The next ordinal extends a gap-free timeline at its end. */
  lemma NextRecordExtends(tl: Timeline, n: nat, r: TimelineRecord)
    requires GapFree(tl, n) && r.ordinal == n + 1
    ensures r.ordinal !in tl && GapFree(tl[r.ordinal := r], n + 1)
    ensures RecordsOf(tl[r.ordinal := r], n + 1) == RecordsOf(tl, n) + [r]
  {
  }

  /** Storing the next record together with metadata that counts it. */
  lemma RecordKeepsRunInv(a: Alias, run: Run, m: Metadata, r: TimelineRecord)
    requires RunInv(a, run) && run.meta.state == RunState.Running && NextRecordRefusal(run.meta, r).None?
    requires m == AfterAppend(run.meta, r, m.updatedAt).(claimOwner := m.claimOwner, leaseExpiresAt := m.leaseExpiresAt)
    requires m.claimOwner.Some? && m.leaseExpiresAt.Some?
    ensures RunInv(a, run.WithRecord(m, r)) && RunEvolves(run, run.WithRecord(m, r))
    ensures r.ordinal !in run.timeline && Records(run.WithRecord(m, r)) == Records(run) + [r]
  {
    hide ValidRecord, PersistedOrdinals, ConversationsOf;
    NextRecordExtends(run.timeline, run.meta.timelineCount, r);
    HistorySnoc(Records(run), r);
    PersistedSnoc(EventsOf(Records(run)), r.event);
    UpToSnoc(run.meta.savedOrdinal);
  }

  lemma AppendedRunInv(a: Alias, run: Run, r: TimelineRecord, now: Time)
    requires RunInv(a, run) && run.meta.state == RunState.Running && NextRecordRefusal(run.meta, r).None?
    ensures var next := run.WithRecord(AfterAppend(run.meta, r, now), r);
            && RunInv(a, next) && RunEvolves(run, next)
            && r.ordinal !in run.timeline && Records(next) == Records(run) + [r]
  {
    RecordKeepsRunInv(a, run, AfterAppend(run.meta, r, now), r);
  }

  lemma RecoveredRunInv(a: Alias, run: Run, r: TimelineRecord, owner: Owner, now: Time, lease: int)
    requires RunInv(a, run) && run.meta.state == RunState.Running && NextRecordRefusal(run.meta, r).None?
    ensures var next := run.WithRecord(AfterRecovery(run.meta, r, owner, now, lease), r);
            && RunInv(a, next) && RunEvolves(run, next)
            && r.ordinal !in run.timeline && Records(next) == Records(run) + [r]
  {
    RecordKeepsRunInv(a, run, AfterRecovery(run.meta, r, owner, now, lease), r);
  }

  /** A run is created valid. */
  lemma NewRunInv(request: Request, a: Alias, key: string, now: Time)
    ensures RunInv(a, Run(NewMetadata(request, a, key, now), map[]))
  {
    assert Records(Run(NewMetadata(request, a, key, now), map[])) == [];
  }

  // ---- Then the whole store ----

  /** Storing a run back; a run that became terminal gives up the slot. */
  lemma PutKeepsInv(s: Store, a: Alias, run: Run)
    requires StoreInv(s) && a in s.runs && !s.runs[a].meta.Terminal()
    requires RunInv(a, run) && RunEvolves(s.runs[a], run)
    ensures var t := if run.meta.Terminal() then s.Release(a, run) else s.Put(a, run);
            StoreInv(t) && Evolves(s, t)
  {
    hide RunInv;
  }

  lemma CreateKeepsInv(s: Store, request: Request, a: Alias, key: string, now: Time)
    requires StoreInv(s)
    ensures var t := Create(s, request, a, key, now).store; StoreInv(t) && Evolves(s, t)
  {
    hide RunInv;
    NewRunInv(request, a, key, now);
  }

  /** The check for a lost slot never fires. */
  lemma FailQueuedDispatchKeepsInv(s: Store, a: Alias, key: string, now: Time)
    requires StoreInv(s)
    ensures var t := FailQueuedDispatch(s, a, key, now);
            && StoreInv(t.store) && Evolves(s, t.store)
            && t.reply != Err(ActiveOwnerLost)
            && (t.reply == Ok(true) ==> t.store.runs[a].meta.state == RunState.Failed && t.store.active.None?)
  {
    hide RunInv;
    var t := FailQueuedDispatch(s, a, key, now);
    if t.reply == Ok(true) {
      DispatchFailedRunInv(a, s.runs[a], now);
      PutKeepsInv(s, a, t.store.runs[a]);
    }
  }

  /** A claim changes nothing, takes a queued run, or recovers an expired one with a new record at the end. */
  lemma ClaimKeepsInv(s: Store, a: Alias, key: string, owner: Owner, now: Time, lease: int,
                      recovery: Option<TimelineRecord>)
    requires StoreInv(s)
    ensures var t := Claim(s, a, key, owner, now, lease, recovery);
            && StoreInv(t.store) && Evolves(s, t.store)
            && (t.reply.Ok? && t.reply.value.status == Recovered ==>
                  && Records(t.store.runs[a]) == Records(s.runs[a]) + [recovery.value]
                  && recovery.value.ordinal !in s.runs[a].timeline)
  {
    hide RunInv;
    var t := Claim(s, a, key, owner, now, lease, recovery);
    if t.reply.Ok? && t.reply.value.status == Claimed {
      ClaimedRunInv(a, s.runs[a], owner, now, lease);
      PutKeepsInv(s, a, t.store.runs[a]);
    } else if t.reply.Ok? && t.reply.value.status == Recovered {
      RecoveredRunInv(a, s.runs[a], recovery.value, owner, now, lease);
      PutKeepsInv(s, a, t.store.runs[a]);
    }
  }

  lemma RenewKeepsInv(s: Store, a: Alias, owner: Owner, now: Time, lease: int)
    requires StoreInv(s)
    ensures var t := Renew(s, a, owner, now, lease).store; StoreInv(t) && Evolves(s, t)
  {
    hide RunInv;
    var t := Renew(s, a, owner, now, lease);
    if t.reply == Ok(true) {
      RenewedRunInv(a, s.runs[a], now, lease);
      PutKeepsInv(s, a, t.store.runs[a]);
    }
  }

  /** An append adds exactly its record at the end, or finds exactly its record already stored. */
  lemma AppendKeepsInv(s: Store, a: Alias, owner: Owner, r: TimelineRecord, now: Time)
    requires StoreInv(s)
    ensures var t := Append(s, a, owner, r, now);
            && StoreInv(t.store) && Evolves(s, t.store)
            && (t.reply == Ok(true) ==> Records(t.store.runs[a]) == Records(s.runs[a]) + [r]
                                        && r.ordinal !in s.runs[a].timeline)
            && (t.reply.Ok? ==> r.ordinal in t.store.runs[a].timeline && t.store.runs[a].timeline[r.ordinal] == r)
  {
    hide RunInv;
    var t := Append(s, a, owner, r, now);
    if t.reply == Ok(true) {
      AppendedRunInv(a, s.runs[a], r, now);
      PutKeepsInv(s, a, t.store.runs[a]);
    }
  }

  /** A finish binds exactly what it was given and frees the slot; the check for a lost slot never fires. */
  lemma FinishKeepsInv(s: Store, a: Alias, owner: Owner, b: TerminalBinding, now: Time)
    requires StoreInv(s)
    ensures var t := Finish(s, a, owner, b, now);
            && StoreInv(t.store) && Evolves(s, t.store)
            && t.reply != Err(ActiveOwnerLost)
            && (t.reply.Ok? ==> t.store.runs[a].meta.Terminal() && t.store.active != Some(a)
                                && BindingFromMetadata(t.store.runs[a].meta) == b)
  {
    hide RunInv;
    var t := Finish(s, a, owner, b, now);
    if t.reply == Ok(true) {
      FinishedRunInv(a, s.runs[a], b, now);
      PutKeepsInv(s, a, t.store.runs[a]);
    }
  }

  /** The recovery record a store accepts: the next ordinal, inert, persisted only as the next persisted ordinal. */
  predicate AcceptableRecovery(m: Metadata, r: TimelineRecord) {
    && r.ordinal == m.timelineCount + 1 && r.event.effect.Inert?
    && (r.event.persistedOrdinal.None? || r.event.persistedOrdinal.value == m.savedOrdinal + 1)
  }

  /** Every answer of a claim on a known run, exactly: the state and the stored lease decide, never the claimant's
      wish. */
  lemma ClaimDecidesExactly(s: Store, a: Alias, key: string, owner: Owner, now: Time, lease: int,
                            recovery: Option<TimelineRecord>)
    requires StoreInv(s) && a in s.runs && s.runs[a].meta.keyHash == DigestOf(key) && 1 <= lease <= 900
    ensures var m, t := s.runs[a].meta, Claim(s, a, key, owner, now, lease, recovery);
            var held := m.state == RunState.Running && m.leaseExpiresAt.Some? && now < m.leaseExpiresAt.value;
            var status := if t.reply.Ok? then Some(t.reply.value.status) else None;
            && (status == Some(Terminal) <==> m.Terminal())
            && (status == Some(Claimed) <==> m.state == RunState.Queued)
            && (status == Some(Duplicate) <==> held && m.claimOwner == Some(owner))
            && (status == Some(Conflict) <==> held && m.claimOwner != Some(owner))
            && (status == Some(Recovered) <==>
                  m.state == RunState.Running && !held && recovery.Some? && AcceptableRecovery(m, recovery.value))
            && (t.reply == Err(ExpiredClaim) <==> m.state == RunState.Running && !held && recovery.None?)
            && (t.store != s <==> status == Some(Claimed) || status == Some(Recovered))
            && (t.store != s ==>
                t.reply.value.leaseExpiresAt == Some(now + lease) && t.reply.value.version == m.version + 1
                                 && t.store.runs[a].meta.claimOwner == Some(owner)
                                 && t.store.runs[a].meta.version == m.version + 1)
  {
    hide PersistedOrdinals, GapFree, StageOf;
    assert RunInv(a, s.runs[a]);
    var t := Claim(s, a, key, owner, now, lease, recovery);
    if t.reply.Ok? && (t.reply.value.status == Claimed || t.reply.value.status == Recovered) {
      assert t.store.runs[a].meta.version == s.runs[a].meta.version + 1;
    }
  }

  // ---- Fencing and replays ----

  /** Every call an owner can make with its claim. */
  datatype OwnerCall =
    | RenewCall(lease: int)
    | AppendCall(record: TimelineRecord)
    | FinishCall(binding: TerminalBinding)

  function AfterCall(s: Store, a: Alias, owner: Owner, call: OwnerCall, now: Time): Store {
    match call
    case RenewCall(lease) => Renew(s, a, owner, now, lease).store
    case AppendCall(r) => Append(s, a, owner, r, now).store
    case FinishCall(b) => Finish(s, a, owner, b, now).store
  }

  /** An owner call has an effect exactly when it holds a live claim and brings something acceptable. */
  lemma OwnerCallEffect(s: Store, a: Alias, owner: Owner, call: OwnerCall, now: Time)
    requires StoreInv(s) && a in s.runs
    ensures AfterCall(s, a, owner, call, now) != s <==>
            && ClaimRefusal(s.runs[a].meta, owner, now).None?
            && match call
               case RenewCall(lease) => 1 <= lease <= 900
               case AppendCall(r) => NextRecordRefusal(s.runs[a].meta, r).None?
               case FinishCall(_) => true
  {
    var m := s.runs[a].meta;
    assert RunInv(a, s.runs[a]);
    var t := AfterCall(s, a, owner, call, now);
    assert t != s ==> t.runs[a].meta.version == m.version + 1;
    match call {
      case RenewCall(lease) =>
        if 1 <= lease <= 900 && ClaimRefusal(m, owner, now).None? {
          assert t.runs[a].meta.version == m.version + 1;
        }
      case AppendCall(r) =>
        if ClaimRefusal(m, owner, now).None? && NextRecordRefusal(m, r).None? {
          assert r.ordinal !in s.runs[a].timeline;
          assert t.runs[a].meta.version == m.version + 1;
        }
      case FinishCall(b) =>
        if ClaimRefusal(m, owner, now).None? {
          assert t.runs[a].meta.version == m.version + 1;
        }
    }
  }

  /** A record once stored: appending it again is inert in every later state, for every owner and clock. */
  lemma AppendReplayIsInert(s: Store, a: Alias, owner: Owner, r: TimelineRecord, now: Time,
                            t: Store, replayer: Owner, later: Time)
    requires StoreInv(s) && Append(s, a, owner, r, now).reply.Ok?
    requires Evolves(Append(s, a, owner, r, now).store, t)
    ensures Append(t, a, replayer, r, later) == Step(t, Ok(false))
  {
    AppendKeepsInv(s, a, owner, r, now);
    assert RunEvolves(Append(s, a, owner, r, now).store.runs[a], t.runs[a]);
  }

  /** A run once finished: finishing it identically is inert in every later state, differently is refused. */
  lemma FinishReplayIsInert(s: Store, a: Alias, owner: Owner, b: TerminalBinding, now: Time,
                            t: Store, replayer: Owner, c: TerminalBinding, later: Time)
    requires StoreInv(s) && Finish(s, a, owner, b, now).reply.Ok?
    requires Evolves(Finish(s, a, owner, b, now).store, t)
    ensures Finish(t, a, replayer, c, later) == Step(t, if b == c then Ok(false) else Err(TerminalDivergence))
  {
    FinishKeepsInv(s, a, owner, b, now);
    assert RunEvolves(Finish(s, a, owner, b, now).store.runs[a], t.runs[a]);
  }
}
