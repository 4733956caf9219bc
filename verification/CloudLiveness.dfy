/** What a delivery brings to its end while others interleave freely: nobody can disturb a live claim. */
module CloudLiveness {
  import opened Basics
  import opened Studio
  import opened CloudModel
  import opened RunStore
  import opened Publication
  import opened ProgressPublisher
  import opened Execution
  import opened CloudSystem
  import opened CloudSafety

  // ---- What others can do to a live claim ----

  /** The action is a step of the delivery o. */
  predicate By(act: Action, o: Owner) { !act.CreateRun? && !act.FailDispatch? && !act.Deliver? && act.owner == o }

  /** The own steps of a delivery in a sequence of actions. */
  function Own(acts: seq<Action>, o: Owner): seq<Action> {
    if acts == [] then [] else (if By(acts[0], o) then [acts[0]] else []) + Own(acts[1..], o)
  }

  /** Claims of others read a clock before the lease end. */
  predicate InTime(act: Action, o: Owner, until: Time) {
    !By(act, o) && (act.FirstClaim? || act.RecoveryClaim?) ==> act.now < until
  }

  predicate HeldUntil(s: Store, a: Alias, o: Owner, until: Time) {
    && a in s.runs && s.runs[a].meta.state == RunState.Running
    && s.runs[a].meta.claimOwner == Some(o) && s.runs[a].meta.leaseExpiresAt == Some(until)
  }

  predicate Ungranted(s: Store, t: Step<ClaimResult>) {
    t.store == s && (t.reply.Ok? ==> t.reply.value.status != Claimed && t.reply.value.status != Recovered)
  }

  /** No call of anybody else has an effect on a store whose one live run is held, as long as claims come before the
      lease end. */
  lemma OthersAreRefused(s: Store, a: Alias, o: Owner, until: Time)
    requires StoreInv(s) && HeldUntil(s, a, o, until)
    ensures forall request, b, key, now :: Create(s, request, b, key, now).reply.Err?
    ensures forall b, key, now :: FailQueuedDispatch(s, b, key, now).store == s
    ensures forall b, key, p, now, lease, r :: now < until ==> Ungranted(s, Claim(s, b, key, p, now, lease, r))
    ensures forall b, p, now, lease :: p != o ==> Renew(s, b, p, now, lease).reply != Ok(true)
    ensures forall b, p, r, now :: p != o ==> Append(s, b, p, r, now).store == s
    ensures forall b, p, c: TerminalBinding, now :: p != o ==> Finish(s, b, p, c, now).reply != Ok(true)
  {
    hide RunsInv, AfterClaim, AfterRecovery, AfterFinish, AfterRenewal, AfterAppend, AfterDispatchFailure,
         NextRecordRefusal;
  }

  /** The delivery o holds the claim of its run up to a lease end. */
  predicate Holds(w: World, o: Owner, until: Time) {
    o in w.deliveries && HeldUntil(w.store, w.deliveries[o].alias, o, until)
  }

  /** So whatever another delivery does leaves the store and the holder as they are. */
  lemma OtherActIsInert(w: World, act: Action, o: Owner, p: Owner, until: Time)
    requires WorldInv(w) && Holds(w, o, until) && p in w.deliveries && p != o && InTime(act, o, until) && !By(act, o)
    ensures var v := Act(w, p, act); v.store == w.store && o in v.deliveries && v.deliveries[o] == w.deliveries[o]
  {
    hide StoreInv, RunsOk, DeliveriesOk, HeldUntil, Claim, Renew, Append, Finish, Load, PlanPublish, CutRecord,
         ValidSnapshot, ValidCopy, CanFollow, RecoveryRecord, BindingOf, Ready, GapFree, RunInv;
    OthersAreRefused(w.store, w.deliveries[o].alias, o, until);
  }

  lemma OtherIsInert(w: World, act: Action, o: Owner, until: Time)
    requires WorldInv(w) && Holds(w, o, until) && InTime(act, o, until) && !By(act, o)
    ensures var v := Apply(w, act); v.store == w.store && Holds(v, o, until) && v.deliveries[o] == w.deliveries[o]
  {
    hide StoreInv, RunsOk, DeliveriesOk, HeldUntil, Create, FailQueuedDispatch, Act, NewMetadata;
    OthersAreRefused(w.store, w.deliveries[o].alias, o, until);
    match act
    case CreateRun(request, a, key, now) =>
    case FailDispatch(a, key, now) =>
    case Deliver(p, a, key, lease) =>
    case _ =>
      if act.owner in w.deliveries {
        OtherActIsInert(w, act, o, act.owner, until);
      }
  }

  // ---- The script of a delivery that binds ----

  datatype Stage = ToBegin | ToCheck | ToAppend | ToFinish

  /** The own steps that bind a snapshot, with the clock readings of its appends and of the finish. */
  function Script(o: Owner, goal: Goal, stage: Stage, clocks: seq<Time>, end: Time): seq<Action>
    decreases match stage case ToBegin => 3 case ToCheck => 2 case ToAppend => 1 case ToFinish => 0, |clocks|
  {
    match stage
    case ToBegin => [BeginBind(o, goal)] + Script(o, goal, ToCheck, clocks, end)
    case ToCheck => [Check(o)] + Script(o, goal, ToAppend, clocks, end)
    case ToAppend =>
      if clocks == [] then [Published(o)] + Script(o, goal, ToFinish, clocks, end)
      else [AppendNext(o, clocks[0])] + Script(o, goal, ToAppend, clocks[1..], end)
    case ToFinish => [FinishRun(o, end)]
  }

  /** The stored history leads to c: a publication of it would be accepted to its end. */
  predicate LeadsTo(a: Alias, run: Run, c: Snapshot)
    requires GapFree(run.timeline, run.meta.timelineCount)
  {
    PlanPublish(a, run.meta, Load(run), c) == AppendRange(run.meta.timelineCount + 1, |c.events|)
  }

  /** The delivery holds its claim and is on its way to bind c; n records are still to be appended. */
  predicate OnTrack(w: World, o: Owner, goal: Goal, c: Snapshot, stage: Stage, n: nat, until: Time)
    requires WorldInv(w)
  {
    && Holds(w, o, until) && BindingOf(c, goal).Some?
    && var d := w.deliveries[o];
       var run := w.store.runs[d.alias];
       && RunInv(d.alias, run) && run.meta.timelineCount + n == |c.events|
       && match stage
          case ToBegin =>
            && d.phase.Executing? && d.phase.last == c && (d.role == Some(Recoverer) ==> goal == BindFailure)
            && LeadsTo(d.alias, run, c)
          case ToCheck =>
            && d.phase.Checking? && d.phase.candidate == c && d.phase.goal == goal && d.phase.read == run.meta
            && LeadsTo(d.alias, run, c)
          case ToAppend =>
            && d.phase.Appending? && d.phase.candidate == c && d.phase.goal == goal
            && d.phase.next == run.meta.timelineCount + 1 && d.phase.upTo == |c.events|
          case ToFinish => n == 0 && d.phase == Finishing(c, goal)
  }

  /** The run is over as c and no longer owns the slot. */
  predicate EndedAs(s: Store, a: Alias, c: Snapshot, state: RunState)
    requires StoreInv(s)
  {
    && a in s.runs && s.active != Some(a)
    && RunInv(a, s.runs[a]) && Load(s.runs[a]) == Ok(c) && s.runs[a].meta.state == state
  }

  lemma BoundIsReady(c: Snapshot, goal: Goal)
    requires BindingOf(c, goal).Some?
    ensures Ready(c, goal)
  {
  }

  lemma BeginStep(w: World, o: Owner, goal: Goal, c: Snapshot, n: nat, until: Time)
    requires WorldInv(w) && OnTrack(w, o, goal, c, ToBegin, n, until)
    ensures var v := Apply(w, BeginBind(o, goal)); WorldInv(v) && OnTrack(v, o, goal, c, ToCheck, n, until)
  {
    hide StoreInv, RunsOk, DeliveriesOk, BindingOf, Ready, LeadsTo, RunInv, GapFree;
    BoundIsReady(c, goal);
    StepKeeps(w, BeginBind(o, goal));
  }

  lemma CheckStep(w: World, o: Owner, goal: Goal, c: Snapshot, n: nat, until: Time)
    requires WorldInv(w) && OnTrack(w, o, goal, c, ToCheck, n, until)
    ensures var v := Apply(w, Check(o)); WorldInv(v) && OnTrack(v, o, goal, c, ToAppend, n, until)
  {
    hide StoreInv, RunsOk, DeliveriesOk, BindingOf, RunInv, GapFree, PlanPublish, Load, CanFollow;
    StepKeeps(w, Check(o));
  }

  lemma PublishedStep(w: World, o: Owner, goal: Goal, c: Snapshot, until: Time)
    requires WorldInv(w) && OnTrack(w, o, goal, c, ToAppend, 0, until)
    ensures var v := Apply(w, Published(o)); WorldInv(v) && OnTrack(v, o, goal, c, ToFinish, 0, until)
  {
    hide StoreInv, RunsOk, DeliveriesOk, RunInv, GapFree, CompletionBinding, FailureBinding;
    StepKeeps(w, Published(o));
  }

  lemma AppendStep(w: World, o: Owner, goal: Goal, c: Snapshot, n: nat, now: Time, until: Time)
    requires WorldInv(w) && OnTrack(w, o, goal, c, ToAppend, n, until) && n > 0 && now < until
    ensures var v := Apply(w, AppendNext(o, now)); WorldInv(v) && OnTrack(v, o, goal, c, ToAppend, n - 1, until)
  {
    hide StoreInv, RunsOk, DeliveriesOk, RunInv, RunOk, GapFree, BindingOf, Append, CutRecord, ValidSnapshot, ValidCopy,
         Cut, Records, Evolves;
    StepKeeps(w, AppendNext(o, now));
    HolderKnows(w, o);
    var a := w.deliveries[o].alias;
    ValidOfCopy(c);
    AppendNextOfCut(w.store, a, o, c, w.store.runs[a].meta.timelineCount, now);
    var t := Append(w.store, a, o, CutRecord(c, w.store.runs[a].meta.timelineCount + 1), now);
    InvOf(t.store, a);
    CutLength(c, w.store.runs[a].meta.timelineCount + 1);
  }

  lemma CutLength(c: Snapshot, k: nat)
    requires ValidSnapshot(c) && k <= |c.events|
    ensures |Cut(c, k)| == k
  {
  }

  lemma FinishStep(w: World, o: Owner, goal: Goal, c: Snapshot, now: Time, until: Time)
    requires WorldInv(w) && OnTrack(w, o, goal, c, ToFinish, 0, until) && now < until
    ensures var v := Apply(w, FinishRun(o, now));
            WorldInv(v) && EndedAs(v.store, w.deliveries[o].alias, c, BindingOf(c, goal).value.state)
  {
    hide StoreInv, RunsOk, DeliveriesOk, RunInv, RunOk, GapFree, BindingOf, Finish, ValidSnapshot, ValidCopy, Cut,
         Records, Evolves, Load;
    StepKeeps(w, FinishRun(o, now));
    HolderKnows(w, o);
    var a := w.deliveries[o].alias;
    var b := BindingOf(c, goal).value;
    KnownHistory(w, a);
    BindingKinds(c, goal);
    FinishDecided(w.store, a, o, b, now);
    FinishOfFullCut(w.store, a, o, c, b, now);
    FinishKeepsInv(w.store, a, o, b, now);
    LiveFinishActs(w.store, a, o, b, now);
  }

  lemma KnownHistory(w: World, a: Alias)
    requires WorldInv(w) && a in w.store.runs
    ensures a in w.histories
  {
    hide StoreInv, RunOk, DeliveriesOk;
  }

  lemma BindingKinds(c: Snapshot, goal: Goal)
    requires BindingOf(c, goal).Some?
    ensures CompletionBinding(c) == BindingOf(c, goal) || FailureBinding(c) == BindingOf(c, goal)
  {
  }

  lemma LiveFinishActs(s: Store, a: Alias, o: Owner, b: TerminalBinding, now: Time)
    requires a in s.runs && !s.runs[a].meta.Terminal() && Finish(s, a, o, b, now).reply.Ok?
    ensures Finish(s, a, o, b, now).reply == Ok(true)
    ensures var t := Finish(s, a, o, b, now).store;
            a in t.runs && t.runs[a].meta.state == b.state && t.active != Some(a)
  {
  }

  lemma OtherKeepsTrack(w: World, act: Action, o: Owner, goal: Goal, c: Snapshot, stage: Stage, n: nat, until: Time)
    requires WorldInv(w) && OnTrack(w, o, goal, c, stage, n, until) && InTime(act, o, until) && !By(act, o)
    ensures var v := Apply(w, act);
            && WorldInv(v) && OnTrack(v, o, goal, c, stage, n, until)
            && v.deliveries[o].alias == w.deliveries[o].alias
  {
    hide StoreInv, RunsOk, DeliveriesOk, BindingOf, RunInv, LeadsTo, Apply, GapFree, InTime, By;
    StepKeeps(w, act);
    OtherIsInert(w, act, o, until);
  }

  /** One own step of the script. */
  lemma OwnStep(w: World, o: Owner, goal: Goal, c: Snapshot, stage: Stage, clocks: seq<Time>, end: Time, until: Time)
    requires WorldInv(w) && OnTrack(w, o, goal, c, stage, |clocks|, until)
    requires end < until && (forall i :: 0 <= i < |clocks| ==> clocks[i] < until)
    ensures var step := Script(o, goal, stage, clocks, end)[0];
            var v := Apply(w, step);
            && WorldInv(v)
            && match stage
               case ToBegin => OnTrack(v, o, goal, c, ToCheck, |clocks|, until)
               case ToCheck => OnTrack(v, o, goal, c, ToAppend, |clocks|, until)
               case ToAppend =>
                 if clocks == [] then OnTrack(v, o, goal, c, ToFinish, 0, until)
                 else OnTrack(v, o, goal, c, ToAppend, |clocks| - 1, until)
               case ToFinish => EndedAs(v.store, w.deliveries[o].alias, c, BindingOf(c, goal).value.state)
    ensures o in Apply(w, Script(o, goal, stage, clocks, end)[0]).deliveries
    ensures Apply(w, Script(o, goal, stage, clocks, end)[0]).deliveries[o].alias == w.deliveries[o].alias
  {
    hide WorldInv, BindingOf, Apply, EndedAs, Progress;
    var step := Script(o, goal, stage, clocks, end)[0];
    StepKeeps(w, step);
    StepProgress(w, step);
    ProgressKeepsAlias(w, Apply(w, step), o);
    match stage
    case ToBegin => BeginStep(w, o, goal, c, |clocks|, until);
    case ToCheck => CheckStep(w, o, goal, c, |clocks|, until);
    case ToAppend =>
      if clocks == [] {
        PublishedStep(w, o, goal, c, until);
      } else {
        AppendStep(w, o, goal, c, |clocks|, clocks[0], until);
      }
    case ToFinish => FinishStep(w, o, goal, c, end, until);
  }

  lemma ProgressKeepsAlias(w: World, v: World, o: Owner)
    requires Progress(w, v) && o in w.deliveries
    ensures o in v.deliveries && v.deliveries[o].alias == w.deliveries[o].alias
  {
    hide Evolves, ClaimProgress;
  }

  lemma EndedStays(w: World, acts: seq<Action>, a: Alias, c: Snapshot, state: RunState)
    requires WorldInv(w) && EndedAs(w.store, a, c, state) && (state == RunState.Complete || state == RunState.Failed)
    ensures EndedAs(After(w, acts).store, a, c, state)
  {
    hide RunsInv, RunsOk, DeliveriesOk, RunInv, GapFree, Load, After;
    RunsOnlyEvolve(w, acts);
    var v := After(w, acts);
    assert RunEvolves(w.store.runs[a], v.store.runs[a]);
  }

  lemma ScriptParts(o: Owner, goal: Goal, stage: Stage, clocks: seq<Time>, end: Time)
    ensures var script := Script(o, goal, stage, clocks, end);
            && script != [] && By(script[0], o)
            && (stage == ToFinish ==> |script| == 1)
            && (stage == ToBegin ==> script[1..] == Script(o, goal, ToCheck, clocks, end))
            && (stage == ToCheck ==> script[1..] == Script(o, goal, ToAppend, clocks, end))
            && (stage == ToAppend && clocks == [] ==> script[1..] == Script(o, goal, ToFinish, clocks, end))
            && (stage == ToAppend && clocks != [] ==> script[1..] == Script(o, goal, ToAppend, clocks[1..], end))
  {
  }

  lemma TrackKnown(w: World, o: Owner, goal: Goal, c: Snapshot, stage: Stage, n: nat, until: Time)
    requires WorldInv(w) && OnTrack(w, o, goal, c, stage, n, until)
    ensures o in w.deliveries && BindingOf(c, goal).Some?
  {
    hide WorldInv, BindingOf;
  }

  /** Every action of others that claims reads a clock before the lease end. */
  predicate AllInTime(acts: seq<Action>, o: Owner, until: Time) {
    forall i :: 0 <= i < |acts| ==> InTime(acts[i], o, until)
  }

  /** The delivery whose claim is live and whose history leads to c ends its run as c, whatever others do in between. */
  lemma {:induction false} ScriptEnds(w: World, acts: seq<Action>, o: Owner, goal: Goal, c: Snapshot, stage: Stage,
                                      clocks: seq<Time>, end: Time, until: Time)
    requires WorldInv(w) && OnTrack(w, o, goal, c, stage, |clocks|, until)
    requires end < until && (forall i :: 0 <= i < |clocks| ==> clocks[i] < until)
    requires AllInTime(acts, o, until) && Own(acts, o) == Script(o, goal, stage, clocks, end)
    ensures EndedAs(After(w, acts).store, w.deliveries[o].alias, c, BindingOf(c, goal).value.state)
    decreases |acts|
  {
    hide WorldInv, BindingOf, Apply, EndedAs, OnTrack, InTime, By, Script;
    TrackKnown(w, o, goal, c, stage, |clocks|, until);
    ScriptParts(o, goal, stage, clocks, end);
    var act, rest, a := acts[0], acts[1..], w.deliveries[o].alias;
    var v := Apply(w, act);
    if By(act, o) {
      OwnStep(w, o, goal, c, stage, clocks, end, until);
      match stage
      case ToBegin => ScriptEnds(v, rest, o, goal, c, ToCheck, clocks, end, until);
      case ToCheck => ScriptEnds(v, rest, o, goal, c, ToAppend, clocks, end, until);
      case ToAppend =>
        if clocks == [] {
          ScriptEnds(v, rest, o, goal, c, ToFinish, clocks, end, until);
        } else {
          ScriptEnds(v, rest, o, goal, c, ToAppend, clocks[1..], end, until);
        }
      case ToFinish =>
        BindingIsTerminal(c, goal);
        EndedStays(v, rest, a, c, BindingOf(c, goal).value.state);
    } else {
      OtherKeepsTrack(w, act, o, goal, c, stage, |clocks|, until);
      ScriptEnds(v, rest, o, goal, c, stage, clocks, end, until);
    }
  }

  lemma BindingIsTerminal(c: Snapshot, goal: Goal)
    requires BindingOf(c, goal).Some?
    ensures BindingOf(c, goal).value.state == if goal == BindCompletion then RunState.Complete else RunState.Failed
  {
  }

  // ---- Theorems ----

  /** A growing holder that binds its last snapshot ends its run as that snapshot: its appends and its finish before the
      lease end, and anything by anybody in between and afterwards, as long as the claims in between come before the
      lease end. */
  lemma HolderEnds(w: World, acts: seq<Action>, more: seq<Action>, o: Owner, goal: Goal, clocks: seq<Time>, end: Time,
                   until: Time)
    requires WorldInv(w) && Holds(w, o, until)
    requires var d := w.deliveries[o];
             && d.phase.Executing? && d.phase.growing && CanFollow(d.phase.tried, d.phase.last)
             && BindingOf(d.phase.last, goal).Some?
             && w.store.runs[d.alias].meta.timelineCount + |clocks| == |d.phase.last.events|
    requires end < until && (forall i :: 0 <= i < |clocks| ==> clocks[i] < until)
    requires AllInTime(acts, o, until) && Own(acts, o) == Script(o, goal, ToBegin, clocks, end)
    ensures var d := w.deliveries[o];
            EndedAs(After(After(w, acts), more).store, d.alias, d.phase.last, BindingOf(d.phase.last, goal).value.state)
  {
    hide StoreInv, RunsOk, DeliveriesOk, RunInv, RunOk, BindingOf, EndedAs, After, Script, Own, GapFree, HeldCut,
         CanFollow, LeadsTo;
    var d := w.deliveries[o];
    var c := d.phase.last;
    GrowingLeads(w, o, goal);
    ScriptEnds(w, acts, o, goal, c, ToBegin, clocks, end, until);
    BindingIsTerminal(c, goal);
    EndedStays(After(w, acts), more, d.alias, c, BindingOf(c, goal).value.state);
  }

  lemma GrowingLeads(w: World, o: Owner, goal: Goal)
    requires WorldInv(w) && o in w.deliveries
    requires var d := w.deliveries[o];
             && d.alias in w.store.runs && w.store.runs[d.alias].meta.state == RunState.Running
             && w.store.runs[d.alias].meta.claimOwner == Some(o)
             && d.phase.Executing? && d.phase.growing && CanFollow(d.phase.tried, d.phase.last)
             && BindingOf(d.phase.last, goal).Some?
    ensures var d := w.deliveries[o];
            && RunInv(d.alias, w.store.runs[d.alias]) && LeadsTo(d.alias, w.store.runs[d.alias], d.phase.last)
            && d.role == Some(Original)
  {
    hide StoreInv, RunsOk, RunInv, RunOk, GapFree, HeldCut, CanFollow, ValidCopy, PlanPublish, Load, PreparedInv,
         Durable;
    var d := w.deliveries[o];
    HolderKnows(w, o);
    assert DeliveryInv(w.store, d);
    assert d.role.Some? && (d.role.value == Original || d.role.value == Recoverer);
    HeldCutAccepts(d.alias, w.store.runs[d.alias], d.phase.tried, d.phase.last);
    FinalIsDurable(d.phase.last, w.store.runs[d.alias].meta.timelineCount);
  }

  /** A recovery claim of a running run is granted exactly when the stored lease has run out and nothing was appended
      since its record was prepared; the delivery then holds the claim for a whole lease. */
  lemma RecoveryIsGrantedExactly(w: World, o: Owner, now: Time)
    requires WorldInv(w) && o in w.deliveries && w.deliveries[o].phase.Prepared?
    requires var d := w.deliveries[o];
             && d.alias in w.store.runs && w.store.runs[d.alias].meta.state == RunState.Running
             && w.store.runs[d.alias].meta.keyHash == DigestOf(d.key)
    ensures var d, v := w.deliveries[o], Apply(w, RecoveryClaim(o, now));
            var m := w.store.runs[d.alias].meta;
            && o in v.deliveries && v.deliveries[o].alias == d.alias
            && (v.deliveries[o].phase.Recovering? <==>
                  m.leaseExpiresAt.Some? && m.leaseExpiresAt.value <= now
                    && d.phase.recovery.ordinal == m.timelineCount + 1)
            && (v.deliveries[o].phase.Recovering? ==> Holds(v, o, now + d.lease))
  {
    hide StoreInv, RunsOk, RunOk, PreparedInv, GapFree, Belongs, Ready;
    assert DeliveryInv(w.store, w.deliveries[o]);
    PreparedFits(w, o);
    InvOf(w.store, w.deliveries[o].alias);
  }

  lemma PreparedFits(w: World, o: Owner)
    requires WorldInv(w) && o in w.deliveries && w.deliveries[o].phase.Prepared?
    ensures var r := w.deliveries[o].phase.recovery; r.event.effect.Inert? && r.event.persistedOrdinal.None?
    ensures w.deliveries[o].alias in w.histories
  {
    hide StoreInv, RunOk, Belongs, Ready;
    assert DeliveryInv(w.store, w.deliveries[o]);
  }

  lemma LoadStep(w: World, o: Owner, until: Time)
    requires WorldInv(w) && Holds(w, o, until) && w.deliveries[o].phase.Recovering?
    ensures var a, v := w.deliveries[o].alias, Apply(w, LoadForFailure(o));
            && WorldInv(v) && RunInv(a, w.store.runs[a]) && Load(w.store.runs[a]).Ok? && o in v.deliveries
            && v.deliveries[o].alias == a
            && OnTrack(v, o, BindFailure, FailedSnapshot(Load(w.store.runs[a]).value), ToBegin, 0, until)
  {
    hide StoreInv, RunsOk, DeliveriesOk, RunInv, GapFree, Load, PlanPublish, FailedSnapshot, FailureBinding;
    var a := w.deliveries[o].alias;
    StepKeeps(w, LoadForFailure(o));
    InvOf(w.store, a);
    KnownHistory(w, a);
    HeldIsReadable(w, a);
    FailureFollows(w.store, a);
  }

  lemma HeldIsReadable(w: World, a: Alias)
    requires WorldInv(w) && a in w.store.runs
    ensures RunInv(a, w.store.runs[a]) && Load(w.store.runs[a]).Ok?
  {
    hide StoreInv, RunOk, DeliveriesOk, RunInv, Load, GapFree;
    ReadBack(a, w.store.runs[a], w.histories[a], w.deliveries);
  }

  lemma FailureFollows(s: Store, a: Alias)
    requires StoreInv(s) && a in s.runs && RunInv(a, s.runs[a])
    requires s.runs[a].meta.state == RunState.Running && Load(s.runs[a]).Ok?
    ensures var c := FailedSnapshot(Load(s.runs[a]).value);
            LeadsTo(a, s.runs[a], c) && FailureBinding(c).Some? && |c.events| == s.runs[a].meta.timelineCount
  {
    hide SlotInv, SoundHistory, PersistedOrdinals, ConversationsOf, EventsOf, DataPointsOf;
  }

  /** A recovering delivery that loads, binds the fixed failure and finishes before its lease end leaves the run failed
      and the slot free of it, whatever others do in between and afterwards, as long as their claims in between come
      before that lease end. */
  lemma {:induction false} RecoveryEnds(w: World, acts: seq<Action>, more: seq<Action>, o: Owner, end: Time,
                                        until: Time)
    requires WorldInv(w) && Holds(w, o, until) && w.deliveries[o].phase.Recovering? && end < until
    requires AllInTime(acts, o, until)
    requires Own(acts, o) == [LoadForFailure(o)] + Script(o, BindFailure, ToBegin, [], end)
    ensures var a := w.deliveries[o].alias;
            && RunInv(a, w.store.runs[a]) && Load(w.store.runs[a]).Ok?
            && EndedAs(After(After(w, acts), more).store, a, FailedSnapshot(Load(w.store.runs[a]).value),
                       RunState.Failed)
    decreases |acts|
  {
    hide StoreInv, RunsOk, DeliveriesOk, BindingOf, Apply, EndedAs, OnTrack, InTime, By, Script, RunInv, GapFree, Load,
         FailedSnapshot;
    var act, rest, a := acts[0], acts[1..], w.deliveries[o].alias;
    InvOf(w.store, a);
    HeldIsReadable(w, a);
    var c := FailedSnapshot(Load(w.store.runs[a]).value);
    if By(act, o) {
      assert Own(acts, o) == [act] + Own(rest, o);
      assert act == Own(acts, o)[0] && Own(rest, o) == Own(acts, o)[1..];
      LoadStep(w, o, until);
      var v := Apply(w, act);
      TrackKnown(v, o, BindFailure, c, ToBegin, 0, until);
      ScriptEnds(v, rest, o, BindFailure, c, ToBegin, [], end, until);
      BindingIsTerminal(c, BindFailure);
      EndedStays(After(w, acts), more, a, c, RunState.Failed);
    } else {
      StepKeeps(w, act);
      OtherIsInert(w, act, o, until);
      RecoveryEnds(Apply(w, act), rest, more, o, end, until);
    }
  }

  /** A delivery that finds the lease run out and the run as it prepared for it ends the run, in every interleaving with
      others whose claims come before the end of the lease it takes. */
  lemma ExpiredRunIsEnded(w: World, acts: seq<Action>, more: seq<Action>, o: Owner, now: Time, end: Time)
    requires WorldInv(w) && o in w.deliveries && w.deliveries[o].phase.Prepared?
    requires var d := w.deliveries[o];
             && d.alias in w.store.runs
             && var m := w.store.runs[d.alias].meta;
                && m.state == RunState.Running && m.keyHash == DigestOf(d.key)
                && m.leaseExpiresAt.Some? && m.leaseExpiresAt.value <= now
                && d.phase.recovery.ordinal == m.timelineCount + 1
                && AllInTime(acts, o, now + d.lease) && end < now + d.lease
    requires Own(acts, o) == [LoadForFailure(o)] + Script(o, BindFailure, ToBegin, [], end)
    ensures var a, v := w.deliveries[o].alias, Apply(w, RecoveryClaim(o, now));
            && WorldInv(v)
            && var t := After(After(v, acts), more).store;
               a in t.runs && t.runs[a].meta.state == RunState.Failed && t.active != Some(a)
  {
    hide WorldInv, BindingOf, Apply, InTime, By, Script, RunInv, GapFree, Load, FailedSnapshot, Own, After, AllInTime;
    StepKeeps(w, RecoveryClaim(o, now));
    RecoveryIsGrantedExactly(w, o, now);
    RecoveryEnds(Apply(w, RecoveryClaim(o, now)), acts, more, o, end, now + w.deliveries[o].lease);
  }
}
