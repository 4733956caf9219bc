/** The lock-protected reference repository: every method is one atomic step of the run store. */
module InMemoryRunRepository {
  import opened Basics
  import opened Studio
  import opened CloudModel
  import opened RunStore

  function Combine(active: Option<Alias>, runs: map<Alias, Metadata>, timeline: map<Alias, Timeline>): Store
    requires runs.Keys == timeline.Keys
  {
    Store(active, map a | a in runs :: Run(runs[a], timeline[a]))
  }

  /** Looking one run up in the two dictionaries. */
  lemma CombineAt(active: Option<Alias>, runs: map<Alias, Metadata>, timeline: map<Alias, Timeline>, a: Alias)
    requires runs.Keys == timeline.Keys
    ensures var s := Combine(active, runs, timeline);
            && s.active == active && (a in s.runs <==> a in runs)
            && (a in runs ==> s.runs[a] == Run(runs[a], timeline[a]))
  {
  }

  /** Storing one run back into the two dictionaries. */
  lemma CombinePut(before: Option<Alias>, after: Option<Alias>, runs: map<Alias, Metadata>,
                   timeline: map<Alias, Timeline>, a: Alias, m: Metadata, tl: Timeline)
    requires runs.Keys == timeline.Keys
    ensures Combine(after, runs[a := m], timeline[a := tl])
            == Store(after, Combine(before, runs, timeline).runs[a := Run(m, tl)])
    ensures a in runs && tl == timeline[a] ==>
              Combine(after, runs[a := m], timeline)
              == Store(after, Combine(before, runs, timeline).runs[a := Run(m, tl)])
  {
    assert Combine(after, runs[a := m], timeline[a := tl]).runs
           == Combine(before, runs, timeline).runs[a := Run(m, tl)];
    if a in runs && tl == timeline[a] {
      assert timeline[a := tl] == timeline;
    }
  }

  class Repository {
    var activeRun: Option<Alias>
    var runs: map<Alias, Metadata>
    var timeline: map<Alias, Timeline>

    ghost predicate Valid()
      reads this
    {
      runs.Keys == timeline.Keys && StoreInv(State())
    }

    ghost function State(): Store
      reads this
      requires runs.Keys == timeline.Keys
    {
      Combine(activeRun, runs, timeline)
    }

    constructor ()
      ensures Valid() && State() == Store(None, map[])
    {
      activeRun, runs, timeline := None, map[], map[];
    }

    method CreateRun(request: Request, a: Alias, key: string, now: Time) returns (r: Result<(), StoreError>)
      requires Valid()
      modifies this
      ensures Valid() && Step(State(), r) == Create(old(State()), request, a, key, now)
    {
      hide Combine, StoreInv, Evolves, GapFree, Records, NewMetadata;
      ghost var was := State();
      CreateKeepsInv(was, request, a, key, now);
      CombineAt(activeRun, runs, timeline, a);
      if activeRun.Some? { return Err(ActiveRun); }
      if a in runs { return Err(RunAliasConflict); }
      CombinePut(activeRun, Some(a), runs, timeline, a, NewMetadata(request, a, key, now), map[]);
      runs := runs[a := NewMetadata(request, a, key, now)];
      timeline := timeline[a := map[]];
      activeRun := Some(a);
      r := Ok(());
    }

    method FailQueuedDispatch(a: Alias, key: string, now: Time) returns (r: Result<bool, StoreError>)
      requires Valid()
      modifies this
      ensures Valid() && Step(State(), r) == RunStore.FailQueuedDispatch(old(State()), a, key, now)
    {
      hide Combine, StoreInv, Evolves, GapFree, Records, AfterDispatchFailure;
      ghost var was := State();
      FailQueuedDispatchKeepsInv(was, a, key, now);
      CombineAt(activeRun, runs, timeline, a);
      if a !in runs { return Err(UnknownRun); }
      var m := runs[a];
      if m.keyHash != DigestOf(key) { return Err(IdempotencyMismatch); }
      if m.state == RunState.Failed { return Ok(false); }
      if m.state != RunState.Queued { return Err(DispatchStateConflict); }
      if activeRun != Some(a) { return Err(ActiveOwnerLost); }
      CombinePut(activeRun, None, runs, timeline, a, AfterDispatchFailure(m, now), timeline[a]);
      runs := runs[a := AfterDispatchFailure(m, now)];
      activeRun := None;
      r := Ok(true);
    }

    method ClaimRun(a: Alias, key: string, owner: Owner, now: Time, lease: int, recovery: Option<TimelineRecord>)
      returns (r: Result<ClaimResult, StoreError>)
      requires Valid()
      modifies this
      ensures Valid() && Step(State(), r) == Claim(old(State()), a, key, owner, now, lease, recovery)
    {
      hide Combine, StoreInv, Evolves, GapFree, Records, AfterClaim, AfterRecovery, ValidRecord;
      ghost var was := State();
      ClaimKeepsInv(was, a, key, owner, now, lease, recovery);
      CombineAt(activeRun, runs, timeline, a);
      if !(1 <= lease <= 900) { return Err(LeaseOutOfRange); }
      if a !in runs { return Err(UnknownRun); }
      var m := runs[a];
      if m.keyHash != DigestOf(key) { return Err(IdempotencyMismatch); }
      if m.Terminal() { return Ok(ClaimResult(Terminal, None, m.version)); }
      var expires := now + lease;
      if m.state == RunState.Queued {
        CombinePut(activeRun, activeRun, runs, timeline, a, AfterClaim(m, owner, now, lease), timeline[a]);
        runs := runs[a := AfterClaim(m, owner, now, lease)];
          return Ok(ClaimResult(Claimed, Some(expires), m.version + 1));
      }
      if m.leaseExpiresAt.Some? && m.leaseExpiresAt.value > now {
        return Ok(ClaimResult(if m.claimOwner == Some(owner) then Duplicate else Conflict,
                              m.leaseExpiresAt, m.version));
      }
      if recovery.None? { return Err(ExpiredClaim); }
      var record := recovery.value;
      var refusal := NextRecordRefusal(m, record);
      if refusal.Some? { return Err(refusal.value); }
      if record.event.effect != Inert { return Err(RecoveryNotInert); }
      var extended: Timeline := timeline[a][record.ordinal := record];
      CombinePut(activeRun, activeRun, runs, timeline, a, AfterRecovery(m, record, owner, now, lease), extended);
      timeline := timeline[a := extended];
      runs := runs[a := AfterRecovery(m, record, owner, now, lease)];
      r := Ok(ClaimResult(Recovered, Some(expires), m.version + 1));
    }

    method RenewClaim(a: Alias, owner: Owner, now: Time, lease: int) returns (r: Result<bool, StoreError>)
      requires Valid()
      modifies this
      ensures Valid() && Step(State(), r) == Renew(old(State()), a, owner, now, lease)
    {
      hide Combine, StoreInv, Evolves, GapFree, Records, AfterRenewal;
      ghost var was := State();
      RenewKeepsInv(was, a, owner, now, lease);
      CombineAt(activeRun, runs, timeline, a);
      if !(1 <= lease <= 900) { return Err(LeaseOutOfRange); }
      if a !in runs { return Err(UnknownRun); }
      var m := runs[a];
      if m.state != RunState.Running || m.claimOwner != Some(owner)
         || m.leaseExpiresAt.None? || m.leaseExpiresAt.value <= now
      {
        return Ok(false);
      }
      CombinePut(activeRun, activeRun, runs, timeline, a, AfterRenewal(m, now, lease), timeline[a]);
      runs := runs[a := AfterRenewal(m, now, lease)];
      r := Ok(true);
    }

    method AppendTimeline(a: Alias, owner: Owner, record: TimelineRecord, now: Time)
      returns (r: Result<bool, StoreError>)
      requires Valid()
      modifies this
      ensures Valid() && Step(State(), r) == Append(old(State()), a, owner, record, now)
    {
      hide Combine, StoreInv, Evolves, GapFree, Records, AfterAppend, ValidRecord;
      ghost var was := State();
      AppendKeepsInv(was, a, owner, record, now);
      CombineAt(activeRun, runs, timeline, a);
      if a !in runs { return Err(UnknownRun); }
      var m := runs[a];
      if record.ordinal in timeline[a] {
        if RecordHash(timeline[a][record.ordinal]) == RecordHash(record) { return Ok(false); }
        return Err(TimelineDivergence);
      }
      var refusal := ClaimRefusal(m, owner, now);
      if refusal.Some? { return Err(refusal.value); }
      refusal := NextRecordRefusal(m, record);
      if refusal.Some? { return Err(refusal.value); }
      var extended: Timeline := timeline[a][record.ordinal := record];
      CombinePut(activeRun, activeRun, runs, timeline, a, AfterAppend(m, record, now), extended);
      timeline := timeline[a := extended];
      runs := runs[a := AfterAppend(m, record, now)];
      r := Ok(true);
    }

    method FinishRun(a: Alias, owner: Owner, binding: TerminalBinding, now: Time) returns (r: Result<bool, StoreError>)
      requires Valid()
      modifies this
      ensures Valid() && Step(State(), r) == Finish(old(State()), a, owner, binding, now)
    {
      hide Combine, StoreInv, Evolves, GapFree, Records, AfterFinish, ValidBinding;
      ghost var was := State();
      FinishKeepsInv(was, a, owner, binding, now);
      CombineAt(activeRun, runs, timeline, a);
      if a !in runs { return Err(UnknownRun); }
      var m := runs[a];
      if m.Terminal() {
        if BindingFromMetadata(m) == binding { return Ok(false); }
        return Err(TerminalDivergence);
      }
      var refusal := ClaimRefusal(m, owner, now);
      if refusal.Some? { return Err(refusal.value); }
      if activeRun != Some(a) { return Err(ActiveOwnerLost); }
      CombinePut(activeRun, None, runs, timeline, a, AfterFinish(m, binding, now), timeline[a]);
      runs := runs[a := AfterFinish(m, binding, now)];
      activeRun := None;
      r := Ok(true);
    }

    method LoadMetadata(a: Alias) returns (r: Result<Metadata, StoreError>)
      requires Valid()
      ensures r == if a in State().runs then Ok(State().runs[a].meta) else Err(UnknownRun)
    {
      CombineAt(activeRun, runs, timeline, a);
      r := if a in runs then Ok(runs[a]) else Err(UnknownRun);
    }

    lemma GapFreeRun(a: Alias)
      requires Valid() && a in runs
      ensures a in State().runs && State().runs[a] == Run(runs[a], timeline[a])
      ensures GapFree(timeline[a], runs[a].timelineCount)
    {
      assert RunInv(a, State().runs[a]);
    }

    /** Reads the records in sorted ordinal order; the prefix check of the rebuild never fails. */
    method LoadSnapshot(a: Alias) returns (r: Result<Snapshot, StoreError>)
      requires Valid()
      ensures r == if a in State().runs then Load(State().runs[a]) else Err(UnknownRun)
      ensures r != Err(TimelinePrefixInvalid)
    {
      hide Combine, StoreInv, SlotInv, Consistent, PersistedOrdinals, StageOf, ValidSnapshot, ValidRecord;
      CombineAt(activeRun, runs, timeline, a);
      if a !in runs { return Err(UnknownRun); }
      GapFreeRun(a);
      ghost var run := State().runs[a];
      var ordinals, records: seq<TimelineRecord> := timeline[a].Keys, [];
      while ordinals != {}
        invariant forall k :: k in ordinals <==> |records| < k <= run.meta.timelineCount
        invariant |records| <= run.meta.timelineCount && records == Records(run)[..|records|]
        decreases ordinals
      {
        assert |records| + 1 in ordinals;
        var next :| next in ordinals && forall k :: k in ordinals ==> next <= k;
        records := records + [timeline[a][next]];
        ordinals := ordinals - {next};
      }
      assert |records| + 1 in ordinals <==> |records| < run.meta.timelineCount;
      assert records == Records(run);
      r := Reconstruct(runs[a], records);
    }
  }
}
