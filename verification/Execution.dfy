/** What one execution shows of its run and what it binds at the end, decided by the runner alone. */
module Execution {
  import opened Basics
  import opened Studio
  import opened CloudModel
  import opened RunStore
  import opened Publication
  import opened ProgressPublisher

  /** What the runner and the heartbeat thread do while a claimed run executes. */
  datatype RunnerStep = Capture(candidate: Snapshot) | Beat

  /** How the runner ends: normally, with a value error, or with anything else. */
  datatype RunnerEnding = Finished | Rejected | Crashed

  datatype Runner = Runner(steps: seq<RunnerStep>, ending: RunnerEnding)

  /** The candidate is shown: it is valid, follows the last one and has left the starting state. */
  predicate Takes(x: Snapshot, c: Snapshot) { ValidCopy(c) && CanFollow(x, c) && c.state != SnapshotState.Starting }

  /** The fixed safe failure of what was shown; a final snapshot stays. */
  function Closed(x: Snapshot): Snapshot { if x.Terminal() then x else FailedSnapshot(x) }

  /** A candidate that cannot be shown ends the presentation with the fixed failure. */
  function AfterStep(x: Snapshot, step: RunnerStep): Snapshot {
    match step
    case Beat => x
    case Capture(c) => if Takes(x, c) then c else Closed(x)
  }

  /** The last snapshot shown. */
  function Shown(x: Snapshot, steps: seq<RunnerStep>): Snapshot {
    if steps == [] then x else AfterStep(Shown(x, steps[..|steps| - 1]), steps[|steps| - 1])
  }

  predicate IsCompletion(x: Snapshot, ending: RunnerEnding) { ending == Finished && x.state == SnapshotState.Complete }

  /** The snapshot an execution tries to bind. */
  function Final(x: Snapshot, ending: RunnerEnding): Snapshot { if IsCompletion(x, ending) then x else Closed(x) }

  /** What it binds; None where it cannot bind anything. */
  function EndBinding(x: Snapshot, ending: RunnerEnding): Option<TerminalBinding> {
    if ending == Crashed then None
    else if IsCompletion(x, ending) then CompletionBinding(x)
    else FailureBinding(Closed(x))
  }

  // ---- The durable history of an execution ----

  /** The stored timeline of a running run is a held-back cut of what was shown. */
  ghost predicate Shows(s: Store, a: Alias, x: Snapshot) {
    && StoreInv(s) && a in s.runs && s.runs[a].meta.state == RunState.Running
    && RunInv(a, s.runs[a]) && HeldCut(s.runs[a], x)
    && ValidCopy(x) && x.alias == a && x.request == s.runs[a].meta.request
  }

  /** A candidate that follows the one whose held-back cut is stored is accepted, unless it claims not to have
      started. */
  lemma HeldCutAccepts(a: Alias, run: Run, x: Snapshot, c: Snapshot)
    requires RunInv(a, run) && run.meta.state == RunState.Running && HeldCut(run, x)
    requires ValidCopy(c) && CanFollow(x, c) && c.alias == a && c.request == run.meta.request
    ensures var k := run.meta.timelineCount;
            PlanPublish(a, run.meta, Load(run), c) ==
              if c.state != SnapshotState.Starting then AppendRange(k + 1, Durable(c, k)) else Refused(InvalidDocument)
  {
    hide PersistedOrdinals, LifecycleAfter, ValidEvents, DataFollowsEvents, ConversationsFollow, ConversationsOf, Cut,
         EventsOf, DataPointsOf, StageOf, HeldBack, Durable;
    var k := run.meta.timelineCount;
    HeldBackCutIsShared(x, c, k);
    CutIsSound(x, k);
    CutColumns(x, k);
    CutColumns(c, k);
    DurableWithin(c, k);
  }

  /** Nothing but the candidate decides whether it can be shown, and then it is published up to its durable ordinal. */
  lemma ShownIsPublished(s: Store, a: Alias, x: Snapshot, c: Snapshot)
    requires Shows(s, a, x) && ValidCopy(c) && CanFollow(x, c)
    ensures var k := s.runs[a].meta.timelineCount;
            Decide(s, a, c) == if Takes(x, c) then AppendRange(k + 1, Durable(c, k)) else Refused(InvalidDocument)
  {
    hide RunsInv, SlotInv, RunInv, HeldCut, ValidCopy, PlanPublish, Load, GapFree, CanFollow;
    CanFollowKeepsHeader(x, c);
    HeldCutAccepts(a, s.runs[a], x, c);
  }

  /** A publication that passes shows the candidate from then on. */
  lemma PublishedIsShown(s: Store, t: Store, a: Alias, x: Snapshot, c: Snapshot, r: Result<(), StoreError>)
    requires Shows(s, a, x) && Takes(x, c) && Publishes(s, t, a, c, r) && r.Ok?
    ensures Shows(t, a, c)
  {
    hide RunsInv, SlotInv, RunInv, Cut, HeldBack, Durable, Decide, ValidSnapshot, CanFollow;
    var k := s.runs[a].meta.timelineCount;
    ShownIsPublished(s, a, x, c);
    HeldBackGrows(x, c, k);
    HeldBackWhilePublishing(c, k, Durable(c, k));
    CanFollowKeepsHeader(x, c);
  }

  lemma CanFollowKeepsHeader(x: Snapshot, c: Snapshot)
    requires CanFollow(x, c)
    ensures c.alias == x.alias && c.request == x.request
  {
  }

  // ---- Under a claim that is always live ----

  /** Every reading of the clock falls before the stored lease end. */
  ghost predicate AlwaysLive(m: Metadata, owner: Owner, clock: nat -> Time) {
    forall i: nat :: ClaimRefusal(m, owner, clock(i)).None?
  }

  /** All readings of a delivery fall within one lease of each other. */
  ghost predicate Timely(clock: nat -> Time, lease: int) { forall i: nat, j: nat :: clock(j) < clock(i) + lease }

  function Later(clock: nat -> Time, ticks: nat): nat -> Time { (i: nat) => clock(ticks + i) }

  lemma LaterIsLive(m: Metadata, owner: Owner, clock: nat -> Time, ticks: nat)
    requires AlwaysLive(m, owner, clock)
    ensures AlwaysLive(m, owner, Later(clock, ticks))
  {
  }

  lemma AlwaysLiveFor(m: Metadata, owner: Owner, clock: nat -> Time, n: nat)
    requires AlwaysLive(m, owner, clock)
    ensures LiveFor(m, owner, clock, n)
  {
  }

  lemma SameClaimIsLive(m: Metadata, n: Metadata, owner: Owner, clock: nat -> Time)
    requires AlwaysLive(m, owner, clock)
    requires n.state == m.state && n.claimOwner == m.claimOwner && n.leaseExpiresAt == m.leaseExpiresAt
    ensures AlwaysLive(n, owner, clock)
  {
  }

  /** What was shown is durable up to the hold-back, and the claim lasts. */
  ghost predicate OnShow(s: Store, a: Alias, owner: Owner, x: Snapshot, clock: nat -> Time) {
    Shows(s, a, x) && AlwaysLive(s.runs[a].meta, owner, clock)
  }

  /** The progress store's answer to a candidate: it passes exactly when it can be shown. */
  lemma PublishOnShow(s: Store, t: Store, a: Alias, owner: Owner, x: Snapshot, c: Snapshot, clock: nat -> Time,
                      ticks: nat,
                      r: Result<(), StoreError>)
    requires OnShow(s, a, owner, x, clock)
    requires if ValidCopy(c) && CanFollow(x, c)
             then Publishes(s, t, a, c, r) && (r.Ok? <==> Publishable(s, a, owner, c, Later(clock, ticks)))
             else r.Err? && t == s
    ensures r.Ok? <==> Takes(x, c)
    ensures OnShow(t, a, owner, if Takes(x, c) then c else x, clock)
  {
    hide RunsInv, SlotInv, RunInv, Cut, HeldBack, Durable, Decide, ValidCopy, CanFollow, Shows, AlwaysLive, Later,
         LiveFor, GapFree;
    if ValidCopy(c) && CanFollow(x, c) {
      ShowsRunning(s, a, x);
      ShownIsPublished(s, a, x, c);
      if Takes(x, c) {
        LaterIsLive(s.runs[a].meta, owner, clock, ticks);
        AlwaysLiveFor(s.runs[a].meta, owner, Later(clock, ticks), Appends(s, a, c));
        PublishedIsShown(s, t, a, x, c, r);
        SameClaimIsLive(s.runs[a].meta, t.runs[a].meta, owner, clock);
      }
    }
  }

  lemma ShowsRunning(s: Store, a: Alias, x: Snapshot)
    requires Shows(s, a, x)
    ensures StoreInv(s) && a in s.runs && s.runs[a].meta.state == RunState.Running
  {
  }

  /** The fixed failure of what was shown can always be shown. */
  lemma ClosedIsTaken(s: Store, a: Alias, x: Snapshot)
    requires Shows(s, a, x)
    ensures Closed(x).Terminal() && (Takes(x, Closed(x)) || x.Terminal())
    ensures x.Terminal() ==> Takes(x, x) && Closed(x) == x
  {
    hide RunInv, HeldCut, StoreInv, SoundHistory;
  }

  /** Everything shown and final: binding it passes exactly when there is something to bind. */
  lemma ShownIsFinishable(s: Store, a: Alias, owner: Owner, x: Snapshot, b: TerminalBinding, clock: nat -> Time,
                          ticks: nat)
    requires OnShow(s, a, owner, x, clock) && x.Terminal()
    ensures Finishable(s, a, owner, x, b, Later(clock, ticks))
  {
    hide RunsInv, SlotInv, RunInv, Cut, HeldBack, Durable, Decide, ValidCopy, CanFollow, Shows, AlwaysLive, Later,
         LiveFor;
    ShowsRunning(s, a, x);
    ClosedIsTaken(s, a, x);
    ShownIsPublished(s, a, x, x);
    LaterIsLive(s.runs[a].meta, owner, clock, ticks);
    AlwaysLiveFor(s.runs[a].meta, owner, Later(clock, ticks), Appends(s, a, x) + 1);
  }

  /** A renewal moves the lease end and nothing else that matters here. */
  lemma RenewOnShow(s: Store, a: Alias, owner: Owner, x: Snapshot, clock: nat -> Time, tick: nat, lease: int)
    requires OnShow(s, a, owner, x, clock) && Timely(clock, lease) && 1 <= lease <= 900
    ensures var t := Renew(s, a, owner, clock(tick), lease);
            t.reply == Ok(true) && OnShow(t.store, a, owner, x, clock)
  {
    hide RunsInv, SlotInv, PersistedOrdinals, Cut, HeldBack, ValidCopy, Evolves;
    RenewKeepsInv(s, a, owner, clock(tick), lease);
    var t := Renew(s, a, owner, clock(tick), lease);
    SameRecords(a, s.runs[a], t.store.runs[a]);
    InvOf(t.store, a);
  }

  /** A fresh claim on a run without records shows the initial snapshot. */
  lemma ClaimShowsInitial(s: Store, a: Alias, owner: Owner, clock: nat -> Time)
    requires StoreInv(s) && a in s.runs && s.runs[a].meta.state == RunState.Running && s.runs[a].meta.timelineCount == 0
    requires AlwaysLive(s.runs[a].meta, owner, clock)
    ensures OnShow(s, a, owner, InitialSnapshot(s.runs[a].meta.request, a), clock)
  {
    hide SlotInv, PersistedOrdinals, AlwaysLive;
    InvOf(s, a);
    var x := InitialSnapshot(s.runs[a].meta.request, a);
    assert PersistedOrdinals([]) == [] && UpTo(0) == [];
    assert ValidSnapshot(x);
    assert Records(s.runs[a]) == Cut(x, 0);
  }
}
