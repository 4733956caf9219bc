/** One crash-free delivery, call by call: claim, recover or execute, and only then bind. */
module CloudWorker {
  import opened Basics
  import opened Studio
  import opened CloudModel
  import opened RunStore
  import opened Publication
  import opened InMemoryRunRepository
  import opened ProgressPublisher
  import opened Execution

  datatype Disposition = Accepted | ClaimConflict | Invalid | Retry

  predicate Expired(m: Metadata, now: Time) {
    m.state == RunState.Running && m.leaseExpiresAt.Some? && m.leaseExpiresAt.value <= now
  }

  /** The run is executing under this owner's claim. */
  predicate Held(s: Store, a: Alias, owner: Owner) {
    a in s.runs && s.runs[a].meta.state == RunState.Running && s.runs[a].meta.claimOwner == Some(owner)
  }

  /** The run is over and the global slot is free. */
  predicate Settled(s: Store, a: Alias) {
    a in s.runs && s.runs[a].meta.Terminal() && s.active.None?
  }

  // ---- What the calls of a delivery establish ----

  /** While one run is held, no other run is live. */
  predicate OnlyLive(s: Store, a: Alias) {
    forall b :: b in s.runs && !s.runs[b].meta.Terminal() ==> b == a
  }

  lemma HeldIsOnlyLive(s: Store, a: Alias, owner: Owner)
    requires StoreInv(s) && Held(s, a, owner)
    ensures OnlyLive(s, a)
  {
    hide RunsInv;
  }

  /** When the one live run ends, the slot is free. */
  lemma EndFreesSlot(s: Store, t: Store, a: Alias)
    requires StoreInv(t) && OnlyLive(s, a) && OnlyRunChanges(s, t, a)
    requires a in t.runs && t.runs[a].meta.Terminal()
    ensures Settled(t, a)
  {
    hide RunsInv;
  }

  lemma ClaimHolds(s: Store, a: Alias, key: string, owner: Owner, now: Time, lease: int, r: Option<TimelineRecord>)
    requires StoreInv(s)
    ensures var t := Claim(s, a, key, owner, now, lease, r);
            && StoreInv(t.store)
            && (t.reply.Ok? && (t.reply.value.status == Claimed || t.reply.value.status == Recovered) ==>
                  Held(t.store, a, owner) && t.store.runs[a].meta.leaseExpiresAt == Some(now + lease))
            && (!(t.reply.Ok? && (t.reply.value.status == Claimed || t.reply.value.status == Recovered)) ==>
                t.store == s)
            && (t.reply == Err(ExpiredClaim) ==> a in s.runs && r.None? && Expired(s.runs[a].meta, now)
                                                 && s.runs[a].meta.keyHash == DigestOf(key))
  {
    hide RunInv;
    ClaimKeepsInv(s, a, key, owner, now, lease, r);
    if a in s.runs {
      RunningHasLease(a, s.runs[a]);
    }
  }

  lemma RunningHasLease(a: Alias, run: Run)
    requires RunInv(a, run)
    ensures run.meta.state == RunState.Running ==> run.meta.leaseExpiresAt.Some?
  {
    hide PersistedOrdinals, GapFree, StageOf;
  }

  /** A first claim lasts for every reading within its lease. */
  lemma ClaimedIsLive(s: Store, a: Alias, key: string, owner: Owner, clock: nat -> Time, lease: int)
    requires StoreInv(s)
    requires var t := Claim(s, a, key, owner, clock(0), lease, None); t.reply.Ok? && t.reply.value.status == Claimed
    ensures var t := Claim(s, a, key, owner, clock(0), lease, None).store;
            && a in s.runs && a in t.runs
            && t.runs[a].meta.request == s.runs[a].meta.request
            && t.runs[a].meta.timelineCount == s.runs[a].meta.timelineCount
            && (Timely(clock, lease) ==> AlwaysLive(t.runs[a].meta, owner, clock))
  {
    hide StoreInv;
  }

  /** A recovery claim with the record prepared from the current metadata: only the lease decides. */
  lemma RecoveryDecision(s: Store, a: Alias, key: string, owner: Owner, now: Time, lease: int)
    requires StoreInv(s) && a in s.runs && s.runs[a].meta.keyHash == DigestOf(key) && 1 <= lease <= 900
    requires s.runs[a].meta.state == RunState.Running && s.runs[a].meta.claimOwner != Some(owner)
    ensures var m := s.runs[a].meta;
            var t := Claim(s, a, key, owner, now, lease, Some(RecoveryRecord(m, now)));
            t.reply.Ok? && t.reply.value.status == (if Expired(m, now) then Recovered else Conflict)
  {
    hide GapFree, StageOf, PersistedOrdinals;
    RunningHasLease(a, s.runs[a]);
  }

  lemma ReadIsSound(a: Alias, run: Run)
    requires RunInv(a, run) && GapFree(run.timeline, run.meta.timelineCount)
    ensures Load(run).Ok? ==> SoundRecords(Records(run)) && Load(run).value == Rebuilt(run.meta, Records(run))
    ensures SoundRecords(Records(run)) ==> Load(run).Ok?
  {
    hide SoundHistory, PersistedOrdinals, EventsOf, ConversationsOf, DataPointsOf;
  }

  /** A run that could be read before its recovery can be read after it, and its failure has nothing to append. */
  lemma RecoveredIsBindable(s: Store, a: Alias, key: string, owner: Owner, now: Time, lease: int)
    requires StoreInv(s) && a in s.runs && RunInv(a, s.runs[a]) && Load(s.runs[a]).Ok?
    requires var t := Claim(s, a, key, owner, now, lease, Some(RecoveryRecord(s.runs[a].meta, now)));
             t.reply.Ok? && t.reply.value.status == Recovered
    ensures var t := Claim(s, a, key, owner, now, lease, Some(RecoveryRecord(s.runs[a].meta, now))).store;
            && StoreInv(t) && a in t.runs && RunInv(a, t.runs[a]) && Load(t.runs[a]).Ok?
            && NothingToAppend(t, a, FailedSnapshot(Load(t.runs[a]).value))
            && FailureBinding(FailedSnapshot(Load(t.runs[a]).value)).Some?
  {
    hide SlotInv, RunInv, GapFree, SoundRecords, Load, NothingToAppend, Evolves;
    var r := RecoveryRecord(s.runs[a].meta, now);
    ClaimKeepsInv(s, a, key, owner, now, lease, Some(r));
    var t := Claim(s, a, key, owner, now, lease, Some(r)).store;
    InvOf(s, a);
    InvOf(t, a);
    ReadIsSound(a, s.runs[a]);
    ReadIsSound(a, t.runs[a]);
    StageIsCurrent(a, s.runs[a]);
    InertRecordKeepsSound(Records(s.runs[a]), r);
    FailureHasNothingToAppend(t, a);
  }

  lemma {:induction false} ConversationsOfRecords(records: seq<TimelineRecord>)
    requires ConsecutiveRecords(records)
    ensures forall i :: 0 <= i < |ConversationsOf(records)| ==>
              1 <= ConversationsOf(records)[i].eventOrdinal <= |records|
  {
    if records != [] {
      ConversationsOfRecords(records[..|records| - 1]);
    }
  }

  /** Recovery repairs nothing: a history that cannot be read stays unreadable behind the recovery record. */
  lemma UnsoundStaysUnsound(records: seq<TimelineRecord>, r: TimelineRecord)
    requires ConsecutiveRecords(records) && r.ordinal == |records| + 1
    requires r.event.effect.Inert? && r.event.persistedOrdinal.None? && r.conversations == []
             && r.lifecycle == StageOf(records)
    requires SoundRecords(records + [r])
    ensures SoundRecords(records)
  {
    hide PersistedOrdinals, LifecycleAfter, ConversationsOf;
    HistorySnoc(records, r);
    PersistedSnoc(EventsOf(records), r.event);
    LifecycleSnoc(EventsOf(records), r.event);
    ConversationsOfRecords(records);
    var es, ds := EventsOf(records), DataPointsOf(records);
    assert PersistedOrdinals(es) + [] == PersistedOrdinals(es);
    assert forall i :: 0 <= i < |es| ==> (es + [r.event])[i] == es[i];
    assert ValidEvents(es);
    assert forall i :: 0 <= i < |ds| ==> (ds + [r.dataPoint])[i] == ds[i];
    assert DataFollowsEvents(es, ds);
    assert ConversationsOf(records) + [] == ConversationsOf(records);
    assert ConversationsFollow(ConversationsOf(records), |es|);
  }

  lemma StageIsCurrent(a: Alias, run: Run)
    requires RunInv(a, run)
    ensures GapFree(run.timeline, run.meta.timelineCount)
    ensures run.meta.lifecycleStage == StageOf(Records(run)) && ConsecutiveRecords(Records(run))
  {
    hide PersistedOrdinals;
  }

  /** After a recovery: the run is as readable as it was, and its fixed failure can be bound exactly while the new lease
      lasts. */
  lemma RecoveryEndsExactly(s: Store, a: Alias, key: string, owner: Owner, clock: nat -> Time, lease: int)
    requires StoreInv(s) && a in s.runs && RunInv(a, s.runs[a])
    requires var t := Claim(s, a, key, owner, clock(1), lease, Some(RecoveryRecord(s.runs[a].meta, clock(1))));
             t.reply.Ok? && t.reply.value.status == Recovered
    ensures var t := Claim(s, a, key, owner, clock(1), lease, Some(RecoveryRecord(s.runs[a].meta, clock(1)))).store;
            && StoreInv(t) && a in t.runs && RunInv(a, t.runs[a]) && (Load(t.runs[a]).Ok? <==> Load(s.runs[a]).Ok?)
            && (Load(t.runs[a]).Ok? ==>
                  var x := FailedSnapshot(Load(t.runs[a]).value);
                  FailureBinding(x).Some?
                  && (Finishable(t, a, owner, x, FailureBinding(x).value, Later(clock, 2)) <==>
                      clock(2) < clock(1) + lease))
  {
    hide SlotInv, RunInv, GapFree, SoundRecords, Load, Evolves, Decide, FailedSnapshot, FailureBinding, RecoveryRecord;
    var now := clock(1);
    var r := RecoveryRecord(s.runs[a].meta, now);
    ClaimKeepsInv(s, a, key, owner, now, lease, Some(r));
    var t := Claim(s, a, key, owner, now, lease, Some(r)).store;
    InvOf(s, a);
    InvOf(t, a);
    ReadIsSound(a, s.runs[a]);
    ReadIsSound(a, t.runs[a]);
    StageIsCurrent(a, s.runs[a]);
    RecoveryRecordIsInert(s.runs[a].meta, now);
    if SoundRecords(Records(t.runs[a])) {
      UnsoundStaysUnsound(Records(s.runs[a]), r);
    }
    if Load(s.runs[a]).Ok? {
      RecoveredIsBindable(s, a, key, owner, now, lease);
      LiveOnce(t.runs[a].meta, owner, Later(clock, 2));
    }
  }

  lemma RecoveryRecordIsInert(m: Metadata, now: Time)
    ensures var r := RecoveryRecord(m, now);
            && r.ordinal == m.timelineCount + 1 && r.event.effect.Inert? && r.event.persistedOrdinal.None?
            && r.conversations == [] && r.lifecycle == m.lifecycleStage
  {
  }

  lemma LiveOnce(m: Metadata, owner: Owner, clock: nat -> Time)
    ensures LiveFor(m, owner, clock, 1) <==> ClaimRefusal(m, owner, clock(0)).None?
  {
  }

  lemma FailureHasNothingToAppend(t: Store, a: Alias)
    requires StoreInv(t) && a in t.runs && RunInv(a, t.runs[a])
    requires t.runs[a].meta.state == RunState.Running && Load(t.runs[a]).Ok?
    ensures NothingToAppend(t, a, FailedSnapshot(Load(t.runs[a]).value))
    ensures FailureBinding(FailedSnapshot(Load(t.runs[a]).value)).Some?
  {
    hide SlotInv, SoundHistory, PersistedOrdinals, ConversationsOf, EventsOf, DataPointsOf;
  }

  // ---- The progress store of an executing run ----

  /** What presenting a candidate behind the last one does to the store, and exactly when it passes. */
  ghost predicate Presents(s: Store, t: Store, a: Alias, owner: Owner, last: Snapshot, c: Snapshot, clock: nat -> Time,
                           r: Result<(), StoreError>)
    requires StoreInv(s)
  {
    if ValidCopy(c) && CanFollow(last, c)
    then Publishes(s, t, a, c, r) && (r.Ok? <==> Publishable(s, a, owner, c, clock))
    else r.Err? && t == s
  }

  class StudioProgressStore {
    const publisher: CloudProgressPublisher
    var snapshot: Snapshot

    constructor (initial: Snapshot, publisher: CloudProgressPublisher)
      ensures this.snapshot == initial && this.publisher == publisher
    {
      this.snapshot, this.publisher := initial, publisher;
    }

    /** Publishes first and remembers the candidate only if that succeeded. */
    method Publish(candidate: Snapshot, clock: nat -> Time) returns (r: Result<(), StoreError>, ticks: nat)
      requires publisher.repository.Valid()
      modifies this, publisher.repository
      ensures publisher.repository.Valid()
      ensures snapshot == if r.Ok? then candidate else old(snapshot)
      ensures r.Ok? ==> ValidCopy(candidate) && CanFollow(old(snapshot), candidate)
      ensures Presents(old(publisher.repository.State()), publisher.repository.State(), publisher.runAlias,
                       publisher.claimOwner,
                       old(snapshot), candidate, clock, r)
    {
      hide ValidCopy, CanFollow, StoreInv, Publishes, Publishable, Combine;
      ticks := 0;
      if !ValidCopy(candidate) || !CanFollow(snapshot, candidate) { return Err(InvalidDocument), ticks; }
      r, ticks := publisher.Publish(candidate, clock);
      if r.Ok? {
        snapshot := candidate;
      }
    }

    /** The one fixed safe failure, published like any candidate; a snapshot that is already final stays what it is. */
    method PublishFailed(clock: nat -> Time) returns (r: Result<(), StoreError>, ticks: nat)
      requires publisher.repository.Valid()
      modifies this, publisher.repository
      ensures publisher.repository.Valid()
      ensures snapshot == if r.Ok? then Closed(old(snapshot)) else old(snapshot)
      ensures var s, t, last := old(publisher.repository.State()), publisher.repository.State(), old(snapshot);
              if last.Terminal() then t == s && r.Ok?
              else Presents(s, t, publisher.runAlias, publisher.claimOwner, last, FailedSnapshot(last), clock, r)
    {
      hide ValidCopy, CanFollow, StoreInv, Presents, Combine, FailedSnapshot;
      ticks := 0;
      if snapshot.Terminal() { return Ok(()), ticks; }
      r, ticks := Publish(FailedSnapshot(snapshot), clock);
    }
  }

  /** No publication releases a claim. */
  lemma PublishingKeepsClaim(s: Store, t: Store, a: Alias, owner: Owner, c: Snapshot, r: Result<(), StoreError>)
    requires StoreInv(s) && Publishes(s, t, a, c, r) && Held(s, a, owner)
    ensures Held(t, a, owner)
  {
    hide RunsInv, SlotInv, Decide, Cut, RunInv;
  }

  lemma PresentingKeepsClaim(s: Store, t: Store, a: Alias, owner: Owner, last: Snapshot, c: Snapshot,
                             clock: nat -> Time,
                             r: Result<(), StoreError>)
    requires StoreInv(s) && Held(s, a, owner) && Presents(s, t, a, owner, last, c, clock, r)
    ensures Held(t, a, owner)
  {
    hide StoreInv, Publishes, Publishable, Held, ValidCopy, CanFollow;
    if ValidCopy(c) && CanFollow(last, c) {
      PublishingKeepsClaim(s, t, a, owner, c, r);
    }
  }

  /** Presenting while the claim is live: the candidate alone decides, and what is shown stays durable. */
  lemma PresentOnShow(s: Store, t: Store, a: Alias, owner: Owner, x: Snapshot, c: Snapshot, clock: nat -> Time,
                      ticks: nat,
                      r: Result<(), StoreError>)
    requires OnShow(s, a, owner, x, clock) && StoreInv(s) && Presents(s, t, a, owner, x, c, Later(clock, ticks), r)
    ensures r.Ok? <==> Takes(x, c)
    ensures OnShow(t, a, owner, if r.Ok? then c else x, clock)
  {
    hide StoreInv, Publishes, Publishable, ValidCopy, CanFollow, OnShow, Takes, Later;
    PublishOnShow(s, t, a, owner, x, c, clock, ticks, r);
  }

  lemma PresentClosed(s: Store, t: Store, a: Alias, owner: Owner, x: Snapshot, clock: nat -> Time, ticks: nat,
                      r: Result<(), StoreError>)
    requires OnShow(s, a, owner, x, clock) && StoreInv(s)
    requires if x.Terminal() then t == s && r.Ok?
             else Presents(s, t, a, owner, x, FailedSnapshot(x), Later(clock, ticks), r)
    ensures r.Ok? && OnShow(t, a, owner, Closed(x), clock) && Closed(x).Terminal()
  {
    hide StoreInv, Presents, FailedSnapshot, Shows, AlwaysLive, Takes, Later;
    ClosedIsTaken(s, a, x);
    if !x.Terminal() {
      PresentOnShow(s, t, a, owner, x, FailedSnapshot(x), clock, ticks, r);
    }
  }

  lemma RenewingKeepsClaim(s: Store, a: Alias, owner: Owner, now: Time, lease: int)
    requires Held(s, a, owner)
    ensures Held(Renew(s, a, owner, now, lease).store, a, owner)
  {
  }

  // ---- The worker ----

  /** What handling a delivery may do, decided by the first claim. */
  ghost predicate Handles(s: Store, t: Store, a: Alias, key: string, owner: Owner, clock: nat -> Time, lease: int,
                          run: Runner, d: Disposition)
    requires StoreInv(s)
  {
    match Claim(s, a, key, owner, clock(0), lease, None).reply
    case Err(ExpiredClaim) =>
      a in s.runs &&
      if !Expired(s.runs[a].meta, clock(1)) then t == s && d == ClaimConflict
      else RecoveryOutcome(s, t, a, owner, clock, lease, d)
    case Err(_) => t == s && d == Invalid
    case Ok(claim) =>
      match claim.status
      case Claimed =>
        a in s.runs
        && var m := s.runs[a].meta;
           ExecutionOutcome(m.request, t, a, owner, run, m.timelineCount == 0 && Timely(clock, lease), d)
      case Conflict => t == s && d == ClaimConflict
      case _ => t == s && d == Accepted
  }

  /** A recovered run ends failed with the slot free, or stays claimed for the next delivery; it ends now exactly when
      the run can be read and the clock stays within the new lease. */
  ghost predicate RecoveryOutcome(s: Store, t: Store, a: Alias, owner: Owner, clock: nat -> Time, lease: int,
                                  d: Disposition)
    requires StoreInv(s) && a in s.runs
  {
    && (d == Accepted ==> Settled(t, a) && t.runs[a].meta.state == RunState.Failed)
    && (d != Accepted ==> d == Retry && Held(t, a, owner))
    && (InvOf(s, a); Load(s.runs[a]).Ok? && clock(2) < clock(1) + lease <==> d == Accepted)
  }

  /** An executed run ends bound with the slot free, or stays claimed so that a later delivery can recover it. Under a
      claim that is live throughout the runner alone decides: the run ends exactly when what was shown can be bound, and
      as exactly that. */
  ghost predicate ExecutionOutcome(request: Request, t: Store, a: Alias, owner: Owner, run: Runner, live: bool,
                                   d: Disposition)
  {
    && (d == Accepted ==>
          && Settled(t, a) && run.ending != Crashed
          && (t.runs[a].meta.state == RunState.Complete ==> run.ending == Finished))
    && (d != Accepted ==> d == Retry && Held(t, a, owner))
    && (live ==> EndsAsShown(t, a, Shown(InitialSnapshot(request, a), run.steps), run.ending, d))
  }

  ghost predicate EndsAsShown(t: Store, a: Alias, shown: Snapshot, ending: RunnerEnding, d: Disposition) {
    && (d == Accepted <==> EndBinding(shown, ending).Some?)
    && (d == Accepted ==>
          && a in t.runs && RunInv(a, t.runs[a]) && Load(t.runs[a]) == Ok(Final(shown, ending))
          && t.runs[a].meta.state == EndBinding(shown, ending).value.state)
  }

  /** Binding x under the claim: it ends the run as x, or leaves the claim; what was shown is bound exactly when it can
      be. */
  ghost predicate Binds(s: Store, t: Store, a: Alias, owner: Owner, x: Snapshot, b: Option<TerminalBinding>,
                        clock: nat -> Time,
                        d: Disposition)
  {
    && (d == Accepted ==>
          && b.Some? && Settled(t, a) && t.runs[a].meta.state == b.value.state
          && RunInv(a, t.runs[a]) && Load(t.runs[a]) == Ok(x))
    && (d != Accepted ==> d == Retry && Held(t, a, owner))
    && (OnShow(s, a, owner, x, clock) && x.Terminal() && b.Some? ==> d == Accepted)
  }

  /** The same behind the fixed failure, which only shown snapshots are certain to get. */
  ghost predicate ClosesOrBinds(s: Store, t: Store, a: Alias, owner: Owner, x: Snapshot, clock: nat -> Time,
                                d: Disposition)
  {
    && (d == Accepted ==>
          && FailureBinding(Closed(x)).Some? && Settled(t, a) && t.runs[a].meta.state == RunState.Failed
          && RunInv(a, t.runs[a]) && Load(t.runs[a]) == Ok(Closed(x)))
    && (d != Accepted ==> d == Retry && Held(t, a, owner))
    && (OnShow(s, a, owner, x, clock) && FailureBinding(Closed(x)).Some? ==> d == Accepted)
  }

  lemma ShownPasses(s: Store, a: Alias, owner: Owner, x: Snapshot, b: Option<TerminalBinding>, clock: nat -> Time,
                    ticks: nat)
    requires StoreInv(s)
    ensures OnShow(s, a, owner, x, clock) && x.Terminal() && b.Some? ==>
              Finishable(s, a, owner, x, b.value, Later(clock, ticks))
  {
    hide StoreInv, OnShow, Finishable, Later;
    if OnShow(s, a, owner, x, clock) && x.Terminal() && b.Some? {
      ShownIsFinishable(s, a, owner, x, b.value, clock, ticks);
    }
  }

  class CloudRunWorker {
    const repository: Repository
    const lease: int

    constructor (repository: Repository, lease: int)
      requires 30 <= lease <= 900
      ensures this.repository == repository && this.lease == lease
    {
      this.repository, this.lease := repository, lease;
    }

    method Handle(a: Alias, key: string, owner: Owner, clock: nat -> Time, run: Runner) returns (d: Disposition)
      requires repository.Valid() && 30 <= lease <= 900
      requires forall b :: b in repository.State().runs ==> repository.State().runs[b].meta.claimOwner != Some(owner)
      modifies repository
      ensures repository.Valid()
      ensures Handles(old(repository.State()), repository.State(), a, key, owner, clock, lease, run, d)
    {
      hide StoreInv, RunInv, Combine, RecoveryOutcome, ExecutionOutcome, RecoveryRecord, Expired, Evolves, GapFree,
           Timely;
      ghost var s := repository.State();
      ClaimHolds(s, a, key, owner, clock(0), lease, None);
      var claim := repository.ClaimRun(a, key, owner, clock(0), lease, None);
      if claim.Err? {
        if claim.error != ExpiredClaim { return Invalid; }
        d := Recover(a, key, owner, clock);
        return;
      }
      if claim.value.status == Duplicate || claim.value.status == Terminal { return Accepted; }
      if claim.value.status == Conflict { return ClaimConflict; }
      if claim.value.status == Recovered { NeverRecoversBlind(s, a, key, owner, clock(0), lease); }
      ClaimedIsLive(s, a, key, owner, clock, lease);
      d := Execute(a, owner, clock, run);
    }

    lemma NeverRecoversBlind(s: Store, a: Alias, key: string, owner: Owner, now: Time, lease: int)
      requires Claim(s, a, key, owner, now, lease, None).reply.Ok?
      ensures Claim(s, a, key, owner, now, lease, None).reply.value.status != Recovered
    {
    }

    /** The branch behind an expired claim: read, claim again with an inert record, bind the fixed failure. */
    method Recover(a: Alias, key: string, owner: Owner, clock: nat -> Time) returns (d: Disposition)
      requires repository.Valid() && 30 <= lease <= 900 && a in repository.State().runs
      requires var m := repository.State().runs[a].meta;
               m.state == RunState.Running && m.keyHash == DigestOf(key) && m.claimOwner != Some(owner)
      modifies repository
      ensures repository.Valid()
      ensures if !Expired(old(repository.State()).runs[a].meta, clock(1))
              then repository.State() == old(repository.State()) && d == ClaimConflict
              else RecoveryOutcome(old(repository.State()), repository.State(), a, owner, clock, lease, d)
    {
      hide StoreInv, RunInv, Combine, RecoveryRecord, Expired, Evolves, GapFree, FailedSnapshot, Claim, Load,
           Finishable, Later;
      ghost var s := repository.State();
      var metadata := repository.LoadMetadata(a);
      var now := clock(1);
      RecoveryDecision(s, a, key, owner, now, lease);
      ClaimHolds(s, a, key, owner, now, lease, Some(RecoveryRecord(metadata.value, now)));
      var claim := repository.ClaimRun(a, key, owner, now, lease, Some(RecoveryRecord(metadata.value, now)));
      if claim.value.status == Conflict { return ClaimConflict; }
      ghost var t := repository.State();
      HeldIsOnlyLive(t, a, owner);
      InvOf(s, a);
      RecoveryEndsExactly(s, a, key, owner, clock, lease);
      var publisher := new CloudProgressPublisher(repository, a, owner);
      var loaded := repository.LoadSnapshot(a);
      if loaded.Err? { return Retry; }
      var bound := publisher.BindFailure(FailedSnapshot(loaded.value), Later(clock, 2));
      if bound.Err? { return Retry; }
      EndFreesSlot(t, repository.State(), a);
      d := Accepted;
    }

    /** One capture, whose failure publishes the fixed failure instead, or one heartbeat of a claim not known lost. */
    method Turn(store: StudioProgressStore, step: RunnerStep, owner: Owner, clock: nat -> Time, lost: bool, tick: nat)
      returns (claimLost: bool, next: nat)
      requires store.publisher.repository == repository && repository.Valid() && store.publisher.claimOwner == owner
      requires Held(repository.State(), store.publisher.runAlias, owner) && 30 <= lease <= 900
      modifies store, repository
      ensures repository.Valid() && Held(repository.State(), store.publisher.runAlias, owner)
      ensures step.Capture? ==> claimLost == lost
      ensures lost ==> claimLost
      ensures OnShow(old(repository.State()), store.publisher.runAlias, owner, old(store.snapshot), clock)
              && Timely(clock, lease) ==>
                && claimLost == lost && store.snapshot == AfterStep(old(store.snapshot), step)
                && OnShow(repository.State(), store.publisher.runAlias, owner, store.snapshot, clock)
    {
      hide StoreInv, Combine, Presents, Renew, ValidCopy, CanFollow, FailedSnapshot, OnShow, Timely, Takes, Closed,
           Later, Held;
      claimLost, next := lost, tick;
      ghost var a := store.publisher.runAlias;
      ghost var s, x := repository.State(), store.snapshot;
      ghost var live := OnShow(s, a, owner, x, clock) && Timely(clock, lease);
      match step
      case Capture(candidate) =>
        var published, used := store.Publish(candidate, Later(clock, tick));
        PresentingKeepsClaim(s, repository.State(), a, owner, x, candidate, Later(clock, tick), published);
        if live {
          PresentOnShow(s, repository.State(), a, owner, x, candidate, clock, tick, published);
        }
        next := next + used;
        if published.Err? {
          ghost var t := repository.State();
          var failed, more := store.PublishFailed(Later(clock, tick + used));
          if !x.Terminal() {
            PresentingKeepsClaim(t, repository.State(), a, owner, x, FailedSnapshot(x), Later(clock, tick + used),
                                 failed);
          }
          if live {
            PresentClosed(t, repository.State(), a, owner, x, clock, tick + used, failed);
          }
          next := next + more;
        }
      case Beat =>
        if !lost {
          RenewingKeepsClaim(s, a, owner, clock(tick), lease);
          if live {
            RenewOnShow(s, a, owner, x, clock, tick, lease);
          }
          var renewed := repository.RenewClaim(store.publisher.runAlias, owner, clock(tick), lease);
          claimLost, next := renewed == Ok(false), tick + 1;
        }
    }

    /** The claimed branch: publish while the runner works, renew in between, then bind what it left. */
    method Execute(a: Alias, owner: Owner, clock: nat -> Time, run: Runner) returns (d: Disposition)
      requires repository.Valid() && Held(repository.State(), a, owner) && 30 <= lease <= 900
      modifies repository
      ensures repository.Valid()
      ensures var m := old(repository.State()).runs[a].meta;
              ExecutionOutcome(m.request, repository.State(), a, owner, run,
                               m.timelineCount == 0 && Timely(clock, lease) && AlwaysLive(m, owner, clock), d)
    {
      hide StoreInv, RunInv, Combine, Evolves, GapFree, FailedSnapshot, Load, NothingToAppend, Decide, Publishes, Renew,
           OnlyRunChanges, InitialSnapshot, ValidCopy, CanFollow, OnShow, Timely, AlwaysLive, Closed, Presents, Later,
           Finishable;
      var metadata := repository.LoadMetadata(a);
      var publisher := new CloudProgressPublisher(repository, a, owner);
      var store := new StudioProgressStore(InitialSnapshot(metadata.value.request, a), publisher);
      ghost var live := metadata.value.timelineCount == 0 && Timely(clock, lease)
          && AlwaysLive(metadata.value, owner, clock);
      if live {
        ClaimShowsInitial(repository.State(), a, owner, clock);
      }
      var claimLost: bool, tick: nat := false, 2;
      for i := 0 to |run.steps|
        invariant repository.Valid() && Held(repository.State(), a, owner)
        invariant store.publisher == publisher
        invariant live ==> !claimLost && OnShow(repository.State(), a, owner, store.snapshot, clock)
        invariant live ==> store.snapshot == Shown(InitialSnapshot(metadata.value.request, a), run.steps[..i])
      {
        assert run.steps[..i + 1][..i] == run.steps[..i];
        claimLost, tick := Turn(store, run.steps[i], owner, clock, claimLost, tick);
      }
      assert run.steps[..|run.steps|] == run.steps;
      if claimLost || run.ending == Crashed { return Retry; }
      if run.ending == Finished && store.snapshot.state == SnapshotState.Complete {
        d := Complete(publisher, store.snapshot, clock, tick);
      } else {
        d := Close(store, clock, tick);
      }
    }

    /** Binding what is complete. */
    method Complete(publisher: CloudProgressPublisher, snapshot: Snapshot, clock: nat -> Time, tick: nat)
      returns (d: Disposition)
      requires publisher.repository == repository && repository.Valid()
      requires Held(repository.State(), publisher.runAlias, publisher.claimOwner)
      modifies repository
      ensures repository.Valid()
      ensures Binds(old(repository.State()), repository.State(), publisher.runAlias, publisher.claimOwner, snapshot,
                    CompletionBinding(snapshot), clock, d)
    {
      hide StoreInv, RunInv, Combine, Evolves, GapFree, Load, OnlyRunChanges, OnShow, Later, Finishable, Exports;
      ghost var s, a, owner := repository.State(), publisher.runAlias, publisher.claimOwner;
      HeldIsOnlyLive(s, a, owner);
      var bound := publisher.BindCompletion(snapshot, Later(clock, tick));
      ShownPasses(s, a, owner, snapshot, CompletionBinding(snapshot), clock, tick);
      if bound.Err? { return Retry; }
      EndFreesSlot(s, repository.State(), a);
      d := Accepted;
    }

    /** Publishing the fixed failure of what is not final, and binding what is left. */
    method Close(store: StudioProgressStore, clock: nat -> Time, tick: nat) returns (d: Disposition)
      requires store.publisher.repository == repository && repository.Valid()
      requires Held(repository.State(), store.publisher.runAlias, store.publisher.claimOwner)
      modifies store, repository
      ensures repository.Valid()
      ensures ClosesOrBinds(old(repository.State()), repository.State(), store.publisher.runAlias,
                            store.publisher.claimOwner,
                            old(store.snapshot), clock, d)
    {
      hide StoreInv, RunInv, Combine, Evolves, GapFree, Load, OnlyRunChanges, OnShow, Later, Finishable, FailureBinding,
           Closed, Presents, FailedSnapshot;
      ghost var s, a, owner, x := repository.State(), store.publisher.runAlias, store.publisher.claimOwner,
          store.snapshot;
      var failed, ticks := store.PublishFailed(Later(clock, tick));
      if !x.Terminal() {
        PresentingKeepsClaim(s, repository.State(), a, owner, x, FailedSnapshot(x), Later(clock, tick), failed);
      }
      if OnShow(s, a, owner, x, clock) {
        PresentClosed(s, repository.State(), a, owner, x, clock, tick, failed);
      }
      if failed.Err? { return Retry; }
      ghost var t := repository.State();
      HeldIsOnlyLive(t, a, owner);
      var bound := store.publisher.BindFailure(store.snapshot, Later(clock, tick + ticks));
      ShownPasses(t, a, owner, Closed(x), FailureBinding(Closed(x)), clock, tick + ticks);
      if bound.Err? { return Retry; }
      EndFreesSlot(t, repository.State(), a);
      d := Accepted;
    }
  }
}
