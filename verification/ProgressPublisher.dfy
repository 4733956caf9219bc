/** The publisher of one claimed run, and the exports any cold instance regenerates from it. */
module ProgressPublisher {
  import opened Basics
  import opened Studio
  import opened CloudModel
  import opened RunStore
  import opened Publication
  import opened InMemoryRunRepository

  // ---- One publication against the store ----

  /** The persisted ordinal of a snapshot's next event is always the next one of its cut. */
  lemma CutNextIsAccepted(a: Alias, run: Run, c: Snapshot, k: nat)
    requires RunInv(a, run) && ValidSnapshot(c) && k < |c.events| && Records(run) == Cut(c, k)
    ensures NextRecordRefusal(run.meta, CutRecord(c, k + 1)).None?
  {
    hide ValidRecord, PersistedOrdinals, LifecycleAfter, ConversationsOf, ConversationsAt, DataFollowsEvents,
         ConversationsFollow, Consistent;
    var e := c.events[k];
    CutColumns(c, k);
    PrefixOfHistory(c.events, k + 1);
    assert c.events[..k + 1] == c.events[..k] + [e];
    PersistedSnoc(c.events[..k], e);
    if e.persistedOrdinal.Some? {
      var ps := PersistedOrdinals(c.events[..k]);
      assert ps == UpTo(run.meta.savedOrdinal);
      assert (ps + [e.persistedOrdinal.value])[|ps|] == PersistedOrdinals(c.events)[|ps|];
    }
  }

  /** Appending the next record of a stored cut either extends the cut or is refused by the claim alone. */
  lemma AppendNextOfCut(s: Store, a: Alias, owner: Owner, c: Snapshot, k: nat, now: Time)
    requires StoreInv(s) && a in s.runs && ValidSnapshot(c) && k < |c.events| && Records(s.runs[a]) == Cut(c, k)
    ensures var t, refusal := Append(s, a, owner, CutRecord(c, k + 1), now), ClaimRefusal(s.runs[a].meta, owner, now);
            if refusal.Some? then t == Step(s, Err(refusal.value))
            else
              && t.reply == Ok(true) && StoreInv(t.store) && Evolves(s, t.store)
              && t.store == s.Put(a, t.store.runs[a])
              && Records(t.store.runs[a]) == Cut(c, k + 1)
              && var m, n := s.runs[a].meta, t.store.runs[a].meta;
                 && n.state == m.state && n.claimOwner == m.claimOwner && n.leaseExpiresAt == m.leaseExpiresAt
                 && n.request == m.request && n.evidence == m.evidence
  {
    hide RunInv, SlotInv, Evolves, CutRecord, Cut;
    var r := CutRecord(c, k + 1);
    assert RunInv(a, s.runs[a]);
    CutNextIsAccepted(a, s.runs[a], c, k);
    NotStoredYet(a, s.runs[a], r);
    AppendKeepsInv(s, a, owner, r, now);
    CutSnoc(c, k);
  }

  lemma NotStoredYet(a: Alias, run: Run, r: TimelineRecord)
    requires RunInv(a, run) && r.ordinal == |Records(run)| + 1
    ensures r.ordinal !in run.timeline
  {
  }

  /** What finishing binds when the whole snapshot is durable: a cold rebuild equals the bound snapshot. */
  lemma FinishOfFullCut(s: Store, a: Alias, owner: Owner, c: Snapshot, b: TerminalBinding, now: Time)
    requires StoreInv(s) && a in s.runs && !s.runs[a].meta.Terminal()
    requires ValidCopy(c) && c.alias == a && c.request == s.runs[a].meta.request
    requires Records(s.runs[a]) == Cut(c, |c.events|)
    requires CompletionBinding(c) == Some(b) || FailureBinding(c) == Some(b)
    ensures var t := Finish(s, a, owner, b, now);
            t.reply.Ok? ==> RunInv(a, t.store.runs[a]) && Load(t.store.runs[a]) == Ok(c)
  {
    hide RunInv, SlotInv, Evolves, Cut, SoundHistory;
    assert RunInv(a, s.runs[a]);
    var t := Finish(s, a, owner, b, now);
    if t.reply.Ok? {
      FinishKeepsInv(s, a, owner, b, now);
      FullCutRebuilds(c);
      SameRecords(a, s.runs[a], t.store.runs[a]);
    }
  }

  lemma SameRecords(a: Alias, x: Run, y: Run)
    requires RunInv(a, x) && y.timeline == x.timeline && y.meta.timelineCount == x.meta.timelineCount
    ensures GapFree(y.timeline, y.meta.timelineCount) && Records(y) == Records(x)
    ensures |Records(x)| == x.meta.timelineCount && x.meta.alias == a
  {
  }

  /** The stored timeline is the candidate cut at a held-back ordinal. */
  predicate HeldCut(run: Run, c: Snapshot)
    requires GapFree(run.timeline, run.meta.timelineCount)
  {
    && ValidSnapshot(c) && run.meta.timelineCount <= |c.events|
    && Records(run) == Cut(c, run.meta.timelineCount)
    && HeldBack(c, run.meta.timelineCount)
  }

  /** The stored timeline is the candidate cut at k. */
  predicate CutAt(a: Alias, run: Run, c: Snapshot, k: nat)
    requires GapFree(run.timeline, run.meta.timelineCount)
  {
    && ValidCopy(c) && c.alias == a && c.request == run.meta.request
    && run.meta.timelineCount == k <= |c.events|
    && Records(run) == Cut(c, k)
  }

  /** The exports of a run as any instance regenerates them. */
  function BoundExports(run: Run): Result<ProductExports, StoreError>
    requires GapFree(run.timeline, run.meta.timelineCount)
  {
    if run.meta.state != RunState.Complete then Err(ExportsNotBound)
    else
      match Load(run)
      case Err(e) => Err(e)
      case Ok(c) =>
        var exports := Exports(c);
        if run.meta.evidence.json != Some(exports.json) || run.meta.evidence.csv != Some(exports.csv)
        then Err(ExportDigestMismatch)
        else Ok(exports)
  }

  /** A run bound to c and rebuilt as c regenerates exactly the exports of c. */
  lemma BoundExportsMatch(run: Run, c: Snapshot, b: TerminalBinding)
    requires GapFree(run.timeline, run.meta.timelineCount) && Load(run) == Ok(c)
    requires CompletionBinding(c) == Some(b) && BindingFromMetadata(run.meta) == b
    ensures BoundExports(run) == Ok(Exports(c))
  {
  }

  // ---- The publisher ----

  /** The decision of a publication that reads the store once. */
  function Decide(s: Store, a: Alias, c: Snapshot): Plan
    requires StoreInv(s)
  {
    if a !in s.runs then Refused(UnknownRun)
    else assert RunInv(a, s.runs[a]); PlanPublish(a, s.runs[a].meta, Load(s.runs[a]), c)
  }

  /** Everything one publication may leave behind: nothing, or a longer cut of the candidate. */
  ghost predicate Publishes(s: Store, t: Store, a: Alias, c: Snapshot, r: Result<(), StoreError>)
    requires StoreInv(s)
  {
    match Decide(s, a, c)
    case Refused(e) => t == s && r == Err(e)
    case AlreadyBound => t == s && r == Ok(())
    case AppendRange(first, last) =>
      && a in s.runs && a in t.runs && StoreInv(t) && ValidSnapshot(c)
      && t == s.Put(a, t.runs[a])
      && t.runs[a].meta.state == s.runs[a].meta.state
      && t.runs[a].meta.claimOwner == s.runs[a].meta.claimOwner
      && t.runs[a].meta.leaseExpiresAt == s.runs[a].meta.leaseExpiresAt
      && t.runs[a].meta.request == s.runs[a].meta.request
      && var k := t.runs[a].meta.timelineCount;
         && first <= k + 1 && k <= last <= |c.events|
         && RunInv(a, t.runs[a]) && Records(t.runs[a]) == Cut(c, k)
         && (r.Ok? <==> k == last)
         && (r.Err? ==> r.error == ClaimLost || r.error == ClaimExpired)
  }

  /** A snapshot is ready to be bound: it is fully durable, or the run already rebuilds into it. */
  ghost predicate Bindable(s: Store, a: Alias, c: Snapshot)
    requires StoreInv(s)
  {
    && a in s.runs && RunInv(a, s.runs[a])
    && if s.runs[a].meta.Terminal() then Load(s.runs[a]) == Ok(c)
       else
         && ValidCopy(c) && c.alias == a && c.request == s.runs[a].meta.request
         && Records(s.runs[a]) == Cut(c, |c.events|)
  }

  lemma InvOf(s: Store, a: Alias)
    requires StoreInv(s) && a in s.runs
    ensures RunInv(a, s.runs[a]) && GapFree(s.runs[a].timeline, s.runs[a].meta.timelineCount)
    ensures |Records(s.runs[a])| == s.runs[a].meta.timelineCount
  {
  }

  lemma StartOfRange(s: Store, a: Alias, c: Snapshot)
    requires StoreInv(s) && Decide(s, a, c).AppendRange?
    ensures var plan := Decide(s, a, c);
            && ValidSnapshot(c) && plan.first == s.runs[a].meta.timelineCount + 1
            && plan.first <= plan.last + 1 && plan.last <= |c.events| && a in s.runs
            && Publishes(s, s, a, c, if plan.first == plan.last + 1 then Ok(()) else Err(ClaimLost))
  {
    hide SlotInv, ValidSnapshot, Cut, PlanPublish, ConsecutiveRecords;
    InvOf(s, a);
    AcceptedPlanIsCut(a, s.runs[a].meta, Records(s.runs[a]), s.runs[a].meta, c);
  }

  /** The stored timeline already is the whole candidate. */
  predicate NothingToAppend(s: Store, a: Alias, c: Snapshot)
    requires StoreInv(s)
  {
    var plan := Decide(s, a, c);
    plan.AppendRange? && plan.first == plan.last + 1
  }

  /** How many records a publication appends. */
  function Appends(s: Store, a: Alias, c: Snapshot): nat
    requires StoreInv(s)
  {
    var plan := Decide(s, a, c);
    if plan.AppendRange? && plan.first <= plan.last then plan.last + 1 - plan.first else 0
  }

  /** The claim is the owner's at the first n readings of a clock. */
  predicate LiveFor(m: Metadata, owner: Owner, clock: nat -> Time, n: nat) {
    forall i: nat :: i < n ==> ClaimRefusal(m, owner, clock(i)).None?
  }

  /** The publication is decided for, and the claim lasts for its appends. */
  predicate Publishable(s: Store, a: Alias, owner: Owner, c: Snapshot, clock: nat -> Time)
    requires StoreInv(s)
  {
    match Decide(s, a, c)
    case Refused(_) => false
    case AlreadyBound => true
    case AppendRange(_, _) => a in s.runs && LiveFor(s.runs[a].meta, owner, clock, Appends(s, a, c))
  }

  /** The publication passes, and so does the finish behind it: a replay of the stored binding, or a claim that still
      lasts. */
  predicate Finishable(s: Store, a: Alias, owner: Owner, c: Snapshot, b: TerminalBinding, clock: nat -> Time)
    requires StoreInv(s)
  {
    && a in s.runs
    && match Decide(s, a, c)
       case Refused(_) => false
       case AlreadyBound => BindingFromMetadata(s.runs[a].meta) == b
       case AppendRange(_, _) => LiveFor(s.runs[a].meta, owner, clock, Appends(s, a, c) + 1)
  }

  lemma LiveForOneMore(m: Metadata, owner: Owner, clock: nat -> Time, n: nat)
    ensures LiveFor(m, owner, clock, n + 1) <==> LiveFor(m, owner, clock, n) && ClaimRefusal(m, owner, clock(n)).None?
  {
  }

  /** One turn of the append loop. */
  lemma PublishOne(before: Store, s: Store, a: Alias, owner: Owner, c: Snapshot, next: nat, now: Time)
    requires StoreInv(before) && StoreInv(s) && Decide(before, a, c).AppendRange? && ValidSnapshot(c)
    requires a in s.runs && Decide(before, a, c).first <= next <= Decide(before, a, c).last <= |c.events|
    requires Publishes(before, s, a, c, Err(ClaimLost)) && s.runs[a].meta.timelineCount == next - 1
    ensures var t, last := Append(s, a, owner, CutRecord(c, next), now), Decide(before, a, c).last;
            if t.reply.Err? then Publishes(before, t.store, a, c, Err(t.reply.error))
            else
              && StoreInv(t.store) && a in t.store.runs && t.store.runs[a].meta.timelineCount == next
              && Publishes(before, t.store, a, c, if next == last then Ok(()) else Err(ClaimLost))
    ensures a in before.runs
    ensures Append(s, a, owner, CutRecord(c, next), now).reply.Ok? <==>
              ClaimRefusal(before.runs[a].meta, owner, now).None?
  {
    hide RunInv, SlotInv, Cut, CutRecord, Decide, Evolves, ValidSnapshot, Append;
    InvOf(s, a);
    AppendNextOfCut(s, a, owner, c, next - 1, now);
    var t := Append(s, a, owner, CutRecord(c, next), now);
    if t.reply.Ok? {
      InvOf(t.store, a);
    }
  }

  /** An accepted publication of a final snapshot leaves it bindable. */
  lemma FullyPublished(s: Store, t: Store, a: Alias, c: Snapshot)
    requires StoreInv(s) && StoreInv(t) && c.Terminal() && Publishes(s, t, a, c, Ok(()))
    ensures Bindable(t, a, c)
  {
    hide SlotInv, Cut, RunInv, SoundHistory;
    InvOf(s, a);
    if Decide(s, a, c).AppendRange? {
      InvOf(t, a);
    }
  }

  lemma BoundAfterFinish(s: Store, a: Alias, owner: Owner, c: Snapshot, b: TerminalBinding, now: Time)
    requires StoreInv(s) && Bindable(s, a, c)
    requires CompletionBinding(c) == Some(b) || FailureBinding(c) == Some(b)
    ensures var t := Finish(s, a, owner, b, now);
            if t.reply.Err? then t.store == s
            else
              && StoreInv(t.store) && a in t.store.runs && t.store.active != Some(a)
              && RunInv(a, t.store.runs[a]) && Load(t.store.runs[a]) == Ok(c)
              && t.store.runs[a].meta.state == b.state
              && (CompletionBinding(c) == Some(b) ==> BoundExports(t.store.runs[a]) == Ok(Exports(c)))
  {
    hide RunInv, SlotInv, Cut, SoundHistory, Load, Evolves;
    var t := Finish(s, a, owner, b, now);
    FinishKeepsInv(s, a, owner, b, now);
    if t.reply.Ok? {
      if !s.runs[a].meta.Terminal() {
        FinishOfFullCut(s, a, owner, c, b, now);
      }
      InvOf(t.store, a);
      if CompletionBinding(c) == Some(b) {
        BoundExportsMatch(t.store.runs[a], c, b);
      }
    }
  }

  /** A publication, whatever its answer, leaves state and claim of its run. */
  lemma PublishingKeepsHeader(s: Store, t: Store, a: Alias, c: Snapshot, r: Result<(), StoreError>)
    requires StoreInv(s) && Publishes(s, t, a, c, r)
    ensures a in s.runs ==> a in t.runs && t.runs[a].meta.state == s.runs[a].meta.state
                            && t.runs[a].meta.claimOwner == s.runs[a].meta.claimOwner
    ensures r.Ok? ==> r == Ok(())
  {
    hide RunsInv, SlotInv, Decide, Cut, RunInv, Records, GapFree;
    if r.Ok? {
      assert r.value == ();
    }
  }

  lemma FinishableIsPublishable(s: Store, a: Alias, owner: Owner, c: Snapshot, b: TerminalBinding, clock: nat -> Time)
    requires StoreInv(s) && Finishable(s, a, owner, c, b, clock)
    ensures Publishable(s, a, owner, c, clock)
  {
    hide RunsInv, SlotInv, Decide, LiveFor;
    LiveForOneMore(s.runs[a].meta, owner, clock, Appends(s, a, c));
  }

  /** Only run a may differ. */
  ghost predicate OnlyRunChanges(s: Store, t: Store, a: Alias) {
    forall b :: b != a ==> (b in t.runs <==> b in s.runs) && (b in t.runs ==> t.runs[b] == s.runs[b])
  }

  lemma PublishingChangesOneRun(s: Store, t: Store, a: Alias, c: Snapshot, r: Result<(), StoreError>)
    requires StoreInv(s) && Publishes(s, t, a, c, r)
    ensures OnlyRunChanges(s, t, a)
  {
    hide RunsInv, SlotInv, Decide, Cut, RunInv;
  }

  lemma FinishChangesOneRun(s: Store, a: Alias, owner: Owner, b: TerminalBinding, now: Time)
    ensures OnlyRunChanges(s, Finish(s, a, owner, b, now).store, a)
  {
  }

  lemma NothingChanges(s: Store, a: Alias)
    ensures OnlyRunChanges(s, s, a)
  {
  }

  lemma OneRunTwice(s: Store, t: Store, u: Store, a: Alias)
    requires OnlyRunChanges(s, t, a) && OnlyRunChanges(t, u, a)
    ensures OnlyRunChanges(s, u, a)
  {
  }

  /** A finish passes exactly under a live claim, or as a replay of the stored binding. */
  lemma FinishDecided(s: Store, a: Alias, owner: Owner, b: TerminalBinding, now: Time)
    requires StoreInv(s) && a in s.runs
    ensures Finish(s, a, owner, b, now).reply.Ok? <==>
              if s.runs[a].meta.Terminal() then BindingFromMetadata(s.runs[a].meta) == b
              else ClaimRefusal(s.runs[a].meta, owner, now).None?
  {
    hide RunsInv, AfterFinish;
  }

  /** A finish behind a publication passes exactly when the store before the publication says so. */
  lemma FinishAfterPublish(s: Store, t: Store, a: Alias, owner: Owner, c: Snapshot, b: TerminalBinding,
                           clock: nat -> Time)
    requires StoreInv(s) && StoreInv(t) && Publishes(s, t, a, c, Ok(())) && Publishable(s, a, owner, c, clock)
    ensures a in t.runs
    ensures Finish(t, a, owner, b, clock(Appends(s, a, c))).reply.Ok? <==> Finishable(s, a, owner, c, b, clock)
  {
    hide RunsInv, SlotInv, Cut, RunInv, Load, LiveFor, Finish, ValidCopy, CanFollow, ValidSnapshot, Durable;
    DecidedRun(s, a, c);
    FinishDecided(t, a, owner, b, clock(Appends(s, a, c)));
    LiveForOneMore(s.runs[a].meta, owner, clock, Appends(s, a, c));
  }

  lemma DecidedRun(s: Store, a: Alias, c: Snapshot)
    requires StoreInv(s) && !Decide(s, a, c).Refused?
    ensures a in s.runs && (Decide(s, a, c).AlreadyBound? <==> s.runs[a].meta.Terminal())
  {
    hide RunsInv, SlotInv, RunInv, Load, ValidCopy, CanFollow, ValidSnapshot, Durable;
  }

  class CloudProgressPublisher {
    const repository: Repository
    const runAlias: Alias
    const claimOwner: Owner

    constructor (repository: Repository, runAlias: Alias, claimOwner: Owner)
      ensures this.repository == repository && this.runAlias == runAlias && this.claimOwner == claimOwner
    {
      this.repository, this.runAlias, this.claimOwner := repository, runAlias, claimOwner;
    }

    /** Appends ordinal by ordinal; clock(i) is the reading in front of the i-th append. */
    method Publish(candidate: Snapshot, clock: nat -> Time) returns (r: Result<(), StoreError>, ticks: nat)
      requires repository.Valid()
      modifies repository
      ensures repository.Valid()
      ensures Publishes(old(repository.State()), repository.State(), runAlias, candidate, r)
      ensures r.Ok? <==> Publishable(old(repository.State()), runAlias, claimOwner, candidate, clock)
      ensures r.Ok? ==> ticks == Appends(old(repository.State()), runAlias, candidate)
      ensures Appends(old(repository.State()), runAlias, candidate) == 0 ==>
                ticks == 0 && repository.State() == old(repository.State())
    {
      hide StoreInv, RunInv, SlotInv, ValidSnapshot, Cut, CutRecord, PlanPublish, Combine, Evolves, Load,
           Records, GapFree, Append, LiveFor;
      ticks := 0;
      ghost var before := repository.State();
      var metadata := repository.LoadMetadata(runAlias);
      if metadata.Err? { return Err(metadata.error), ticks; }
      var existing := repository.LoadSnapshot(runAlias);
      var plan := PlanPublish(runAlias, metadata.value, existing, candidate);
      if plan.Refused? { return Err(plan.error), ticks; }
      if plan.AlreadyBound? { return Ok(()), ticks; }
      r, ticks := AppendAll(before, plan, candidate, clock);
    }

    method AppendAll(ghost before: Store, plan: Plan, candidate: Snapshot, clock: nat -> Time)
      returns (r: Result<(), StoreError>, ticks: nat)
      requires repository.Valid() && before == repository.State()
      requires plan.AppendRange? && Decide(before, runAlias, candidate) == plan
      modifies repository
      ensures repository.Valid()
      ensures Publishes(before, repository.State(), runAlias, candidate, r)
      ensures runAlias in before.runs
      ensures r.Ok? <==> LiveFor(before.runs[runAlias].meta, claimOwner, clock, Appends(before, runAlias, candidate))
      ensures r.Ok? ==> ticks == Appends(before, runAlias, candidate)
      ensures Appends(before, runAlias, candidate) == 0 ==> ticks == 0 && repository.State() == before
    {
      hide StoreInv, RunInv, SlotInv, ValidSnapshot, Cut, CutRecord, PlanPublish, Combine, Evolves, Load,
           Records, GapFree, Append, Decide, Publishes;
      ticks := 0;
      StartOfRange(before, runAlias, candidate);
      var next := plan.first;
      while next <= plan.last
        invariant repository.Valid() && ValidSnapshot(candidate)
        invariant plan.first <= next <= plan.last + 1 && plan.last <= |candidate.events|
        invariant Publishes(before, repository.State(), runAlias, candidate,
                            if next == plan.last + 1 then Ok(()) else Err(ClaimLost))
        invariant runAlias in repository.State().runs
        invariant repository.State().runs[runAlias].meta.timelineCount == next - 1
        invariant ticks == next - plan.first && (ticks == 0 ==> repository.State() == before)
        invariant runAlias in before.runs && LiveFor(before.runs[runAlias].meta, claimOwner, clock, ticks)
      {
        PublishOne(before, repository.State(), runAlias, claimOwner, candidate, next, clock(ticks));
        var reply := repository.AppendTimeline(runAlias, claimOwner, CutRecord(candidate, next), clock(ticks));
        ticks := ticks + 1;
        if reply.Err? { return Err(reply.error), ticks; }
        next := next + 1;
      }
      r := Ok(());
    }

    /** A completion that returns has made the run rebuild, cold, into exactly the bound snapshot; it returns exactly
        when the snapshot is complete, the stored history leads to it and the claim lasts for every append and the
        finish. */
    method BindCompletion(snapshot: Snapshot, clock: nat -> Time) returns (r: Result<ProductExports, StoreError>)
      requires repository.Valid()
      modifies repository
      ensures r.Ok? <==>
        CompletionBinding(snapshot).Some?
        && Finishable(old(repository.State()), runAlias, claimOwner, snapshot, CompletionBinding(snapshot).value, clock)
      ensures repository.Valid() && OnlyRunChanges(old(repository.State()), repository.State(), runAlias)
      ensures r.Ok? ==>
        && runAlias in repository.State().runs
        && var run := repository.State().runs[runAlias];
           && run.meta.state == RunState.Complete && repository.State().active != Some(runAlias)
           && RunInv(runAlias, run) && Load(run) == Ok(snapshot)
           && r.value == Exports(snapshot) && BoundExports(run) == Ok(r.value)
      ensures r.Err? && runAlias in old(repository.State()).runs ==>
        runAlias in repository.State().runs
        && repository.State().runs[runAlias].meta.state == old(repository.State()).runs[runAlias].meta.state
        && repository.State().runs[runAlias].meta.claimOwner == old(repository.State()).runs[runAlias].meta.claimOwner
    {
      hide OnlyRunChanges, StoreInv, RunInv, SlotInv, ValidSnapshot, Cut, CutRecord, Combine, Evolves, Records, GapFree,
           Finishable, Publishable, Publishes, Decide, Load, Finish;
      ghost var before := repository.State();
      NothingChanges(before, runAlias);
      var binding := CompletionBinding(snapshot);
      if binding.None? { return Err(CompletionNotBound); }
      var published, ticks := Publish(snapshot, clock);
      PublishingChangesOneRun(before, repository.State(), runAlias, snapshot, published);
      PublishingKeepsHeader(before, repository.State(), runAlias, snapshot, published);
      if published.Err? {
        if Finishable(before, runAlias, claimOwner, snapshot, binding.value, clock) {
          FinishableIsPublishable(before, runAlias, claimOwner, snapshot, binding.value, clock);
        }
        return Err(published.error);
      }
      ghost var s := repository.State();
      FullyPublished(before, s, runAlias, snapshot);
      FinishAfterPublish(before, s, runAlias, claimOwner, snapshot, binding.value, clock);
      FinishChangesOneRun(s, runAlias, claimOwner, binding.value, clock(ticks));
      OneRunTwice(before, s, Finish(s, runAlias, claimOwner, binding.value, clock(ticks)).store, runAlias);
      var reply := repository.FinishRun(runAlias, claimOwner, binding.value, clock(ticks));
      BoundAfterFinish(s, runAlias, claimOwner, snapshot, binding.value, clock(ticks));
      if reply.Err? { return Err(reply.error); }
      r := Ok(Exports(snapshot));
    }

    /** The same for a failure. */
    method BindFailure(snapshot: Snapshot, clock: nat -> Time) returns (r: Result<bool, StoreError>)
      requires repository.Valid()
      modifies repository
      ensures r.Ok? <==>
        FailureBinding(snapshot).Some?
        && Finishable(old(repository.State()), runAlias, claimOwner, snapshot, FailureBinding(snapshot).value, clock)
      ensures repository.Valid() && OnlyRunChanges(old(repository.State()), repository.State(), runAlias)
      ensures r.Ok? ==>
        && runAlias in repository.State().runs
        && var run := repository.State().runs[runAlias];
           && run.meta.state == RunState.Failed && repository.State().active != Some(runAlias)
           && RunInv(runAlias, run) && Load(run) == Ok(snapshot)
      ensures r.Err? && runAlias in old(repository.State()).runs ==>
        runAlias in repository.State().runs
        && repository.State().runs[runAlias].meta.state == old(repository.State()).runs[runAlias].meta.state
        && repository.State().runs[runAlias].meta.claimOwner == old(repository.State()).runs[runAlias].meta.claimOwner
    {
      hide OnlyRunChanges, StoreInv, RunInv, SlotInv, ValidSnapshot, Cut, CutRecord, Combine, Evolves, Records, GapFree,
           Finishable, Publishable, Publishes, Decide, Load, Finish;
      ghost var before := repository.State();
      NothingChanges(before, runAlias);
      if !FailureReady(snapshot) { return Err(FailureNotBound); }
      var binding := FailureBinding(snapshot);
      var published, ticks := Publish(snapshot, clock);
      PublishingChangesOneRun(before, repository.State(), runAlias, snapshot, published);
      PublishingKeepsHeader(before, repository.State(), runAlias, snapshot, published);
      if published.Err? {
        if binding.Some? && Finishable(before, runAlias, claimOwner, snapshot, binding.value, clock) {
          FinishableIsPublishable(before, runAlias, claimOwner, snapshot, binding.value, clock);
        }
        return Err(published.error);
      }
      if binding.None? { return Err(InvalidDocument); }
      ghost var s := repository.State();
      FullyPublished(before, s, runAlias, snapshot);
      FinishAfterPublish(before, s, runAlias, claimOwner, snapshot, binding.value, clock);
      FinishChangesOneRun(s, runAlias, claimOwner, binding.value, clock(ticks));
      OneRunTwice(before, s, Finish(s, runAlias, claimOwner, binding.value, clock(ticks)).store, runAlias);
      var reply := repository.FinishRun(runAlias, claimOwner, binding.value, clock(ticks));
      BoundAfterFinish(s, runAlias, claimOwner, snapshot, binding.value, clock(ticks));
      r := reply;
    }
  }
}
