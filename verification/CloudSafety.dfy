/** What holds over whole runs of the cloud system, whatever the interleaving, crashes and clocks. */
module CloudSafety {
  import opened Basics
  import opened Studio
  import opened CloudModel
  import opened RunStore
  import opened Publication
  import opened ProgressPublisher
  import opened CloudSystem

  /** The world after a sequence of actions. */
  function After(w: World, acts: seq<Action>): (v: World)
    requires WorldInv(w)
    ensures WorldInv(v)
    decreases |acts|
  {
    if acts == [] then w
    else
      StepKeeps(w, acts[0]);
      After(Apply(w, acts[0]), acts[1..])
  }

  lemma NowhereIsOk()
    ensures WorldInv(NOWHERE)
  {
  }

  /** The world reached from nothing. */
  function Reached(acts: seq<Action>): (v: World)
    ensures WorldInv(v)
  {
    NowhereIsOk();
    After(NOWHERE, acts)
  }

  // ---- How one action changes one run ----

  predicate DeliveryProgress(d: Delivery, e: Delivery) {
    e.alias == d.alias && e.lease == d.lease && (d.role.Some? ==> e.role == d.role)
  }

  /** A claim only passes to a delivery that held none before and takes it in this very step. */
  predicate ClaimProgress(w: World, v: World, a: Alias)
    requires a in w.store.runs && a in v.store.runs
  {
    var before, after := w.store.runs[a].meta.claimOwner, v.store.runs[a].meta.claimOwner;
    after != before && after.Some? ==>
      && after.value in w.deliveries && w.deliveries[after.value].role.None?
      && after.value in v.deliveries && v.deliveries[after.value].role.Some?
  }

  ghost predicate Progress(w: World, v: World) {
    && Evolves(w.store, v.store)
    && (forall o :: o in w.deliveries ==> o in v.deliveries && DeliveryProgress(w.deliveries[o], v.deliveries[o]))
    && (forall a :: a in w.store.runs ==> a in v.store.runs && ClaimProgress(w, v, a))
    && (forall a :: a in w.store.runs && a in w.histories ==>
          a in v.histories && (w.histories[a].recovered ==> v.histories[a].recovered))
  }

  lemma LocalProgress(w: World, o: Owner)
    requires o in w.deliveries
    ensures forall p :: Progress(w, w.At(o, p))
    ensures Progress(w, w)
  {
  }

  lemma ClaimedProgress(w: World, o: Owner, now: Time, recovery: Option<TimelineRecord>)
    requires WorldInv(w) && o in w.deliveries && w.deliveries[o].role.None?
    ensures var d := w.deliveries[o];
            Progress(w, AfterClaimReply(w, o, now, Claim(w.store, d.alias, d.key, o, now, d.lease, recovery)))
  {
    hide StoreInv, RunInv, RunOk, DeliveryInv, RunEvolves, GapFree, Records, InitialSnapshot;
    var d := w.deliveries[o];
    ClaimKeepsInv(w.store, d.alias, d.key, o, now, d.lease, recovery);
  }

  lemma RenewedProgress(w: World, o: Owner, now: Time)
    requires WorldInv(w) && o in w.deliveries
    ensures Progress(w, Act(w, o, Heartbeat(o, now)))
  {
    hide StoreInv, RunInv, RunOk, DeliveryInv, RunEvolves, GapFree, Records;
    var d := w.deliveries[o];
    RenewKeepsInv(w.store, d.alias, o, now, d.lease);
  }

  lemma AppendedProgress(w: World, o: Owner, r: TimelineRecord, now: Time, p: Phase)
    requires WorldInv(w) && o in w.deliveries
    ensures var t := Append(w.store, w.deliveries[o].alias, o, r, now);
            Progress(w, w.(store := t.store).At(o, p))
  {
    hide StoreInv, RunInv, RunOk, DeliveryInv, RunEvolves, GapFree, Records;
    AppendKeepsInv(w.store, w.deliveries[o].alias, o, r, now);
  }

  lemma FinishedProgress(w: World, o: Owner, b: TerminalBinding, now: Time, h: History)
    requires WorldInv(w) && o in w.deliveries
    ensures var d := w.deliveries[o];
            var t := Finish(w.store, d.alias, o, b, now);
            d.alias in w.histories && h.recovered == w.histories[d.alias].recovered ==>
              Progress(w, World(t.store, w.deliveries[o := d.(phase := Done)], w.histories[d.alias := h]))
  {
    hide StoreInv, RunInv, RunOk, DeliveryInv, RunEvolves, GapFree, Records;
    FinishKeepsInv(w.store, w.deliveries[o].alias, o, b, now);
  }

  lemma ActProgress(w: World, o: Owner, act: Action)
    requires WorldInv(w) && o in w.deliveries
    ensures Progress(w, Act(w, o, act))
  {
    hide StoreInv, RunsOk, RunInv, RunOk, AfterClaimReply, Claim, PreparedInv, BindingOf, Ready, Load, GapFree,
         PlanPublish, CutRecord, ValidSnapshot, ValidCopy, CanFollow, Append, Finish, Progress, RecoveryRecord;
    var d := w.deliveries[o];
    assert DeliveryInv(w.store, d);
    LocalProgress(w, o);
    match (act, d.phase)
    case (FirstClaim(_, now), Fresh) => ClaimedProgress(w, o, now, None);
    case (RecoveryClaim(_, now), Prepared(r)) => ClaimedProgress(w, o, now, Some(r));
    case (Heartbeat(_, now), _) => RenewedProgress(w, o, now);
    case (AppendNext(_, now), Appending(last, growing, c, goal, next, upTo)) =>
      if ValidSnapshot(c) && 1 <= next <= upTo <= |c.events| {
        AppendedProgress(w, o, CutRecord(c, next), now, Appending(last, growing, c, goal, next + 1, upTo));
      }
    case (FinishRun(_, now), Finishing(c, goal)) =>
      if BindingOf(c, goal).Some? && d.alias in w.histories {
        FinishedProgress(w, o, BindingOf(c, goal).value, now,
                         w.histories[d.alias].(finishedBy := Some(o), bound := Some(c)));
      }
    case _ =>
  }

  lemma StepProgress(w: World, act: Action)
    requires WorldInv(w)
    ensures Progress(w, Apply(w, act))
  {
    hide StoreInv, RunsOk, RunInv, RunOk, DeliveryInv, RunEvolves, Act, NewMetadata;
    match act
    case CreateRun(request, a, key, now) => CreateKeepsInv(w.store, request, a, key, now);
    case FailDispatch(a, key, now) => FailQueuedDispatchKeepsInv(w.store, a, key, now);
    case Deliver(o, a, key, lease) => SameIsEvolved(w.store);
    case _ =>
      if act.owner in w.deliveries {
        ActProgress(w, act.owner, act);
      } else {
        SameIsEvolved(w.store);
      }
  }

  lemma SameIsEvolved(s: Store)
    ensures Evolves(s, s)
  {
  }

  // ---- Theorems ----

  /** Every run of the system only evolves its store: versions grow, records stay, terminal runs freeze. */
  lemma {:induction false} RunsOnlyEvolve(w: World, acts: seq<Action>)
    requires WorldInv(w)
    ensures Evolves(w.store, After(w, acts).store)
    decreases |acts|
  {
    hide WorldInv, RunEvolves, Apply;
    if acts == [] {
      SameIsEvolved(w.store);
    } else {
      StepKeeps(w, acts[0]);
      StepProgress(w, acts[0]);
      RunsOnlyEvolve(Apply(w, acts[0]), acts[1..]);
      EvolvesTransitive(w.store, Apply(w, acts[0]).store, After(w, acts).store);
    }
  }

  /** In every reachable world every run can be read back, and at most one run is not terminal. */
  lemma ColdReadsNeverFail(acts: seq<Action>, a: Alias)
    ensures var v := Reached(acts);
            a in v.store.runs ==> RunInv(a, v.store.runs[a]) && Load(v.store.runs[a]).Ok?
  {
    var v := Reached(acts);
    if a in v.store.runs {
      ReadBack(a, v.store.runs[a], v.histories[a], v.deliveries);
    }
  }

  lemma ReadBack(a: Alias, run: Run, h: History, ds: map<Owner, Delivery>)
    requires RunOk(a, run, h, ds)
    ensures RunInv(a, run) && Load(run).Ok?
  {
    hide HolderInv, SoundHistory, PersistedOrdinals;
    SameRecords(a, run, run);
  }

  /** A complete run was finished by the very delivery whose claim returned CLAIMED, was never recovered, and
      rebuilds, cold, into exactly the snapshot that was bound, with exactly its exports. */
  lemma CompletionIsFaithful(acts: seq<Action>, a: Alias)
    requires a in Reached(acts).store.runs && Reached(acts).store.runs[a].meta.state == RunState.Complete
    ensures var v := Reached(acts);
            && a in v.histories
            && var h, run := v.histories[a], v.store.runs[a];
               && !h.recovered && h.finishedBy.Some? && h.finishedBy == h.claimedBy
               && h.bound.Some? && Load(run) == Ok(h.bound.value)
               && BoundExports(run) == Ok(Exports(h.bound.value))
  {
    var v := Reached(acts);
    CompleteOk(a, v.store.runs[a], v.histories[a], v.deliveries);
  }

  lemma CompleteOk(a: Alias, run: Run, h: History, ds: map<Owner, Delivery>)
    requires RunOk(a, run, h, ds) && run.meta.state == RunState.Complete
    ensures GapFree(run.timeline, run.meta.timelineCount)
    ensures !h.recovered && h.finishedBy.Some? && h.finishedBy == h.claimedBy
    ensures h.bound.Some? && Load(run) == Ok(h.bound.value) && BoundExports(run) == Ok(Exports(h.bound.value))
  {
    hide HolderInv, SoundHistory, PersistedOrdinals;
    BoundExportsMatch(run, h.bound.value, BindingFromMetadata(run.meta));
  }

  predicate CompleteIn(s: Store, a: Alias) { a in s.runs && s.runs[a].meta.state == RunState.Complete }

  /** Nothing but a finish with a complete binding completes a run. */
  lemma OnlyFinishCompletes(s: Store, a: Alias)
    requires !CompleteIn(s, a)
    ensures forall request, b, key, now :: !CompleteIn(Create(s, request, b, key, now).store, a)
    ensures forall b, key, now :: !CompleteIn(FailQueuedDispatch(s, b, key, now).store, a)
    ensures forall b, key, o, now, lease, r :: !CompleteIn(Claim(s, b, key, o, now, lease, r).store, a)
    ensures forall b, o, now, lease :: !CompleteIn(Renew(s, b, o, now, lease).store, a)
    ensures forall b, o, r, now :: !CompleteIn(Append(s, b, o, r, now).store, a)
    ensures forall b, o, binding, now :: CompleteIn(Finish(s, b, o, binding, now).store, a) ==>
              a == b && a in s.runs && s.runs[a].meta.claimOwner == Some(o) && binding.state == RunState.Complete
  {
  }

  lemma LocalStepsNeverComplete(w: World, act: Action, a: Alias)
    requires WorldInv(w) && !CompleteIn(w.store, a) && CompleteIn(Apply(w, act).store, a)
    ensures act.FinishRun? && act.owner in w.deliveries && w.deliveries[act.owner].phase.Finishing?
    ensures var p := w.deliveries[act.owner].phase;
            && BindingOf(p.candidate, p.goal).Some?
            && CompleteIn(Finish(w.store, w.deliveries[act.owner].alias, act.owner,
                                 BindingOf(p.candidate, p.goal).value, act.now).store, a)
  {
    hide StoreInv, RunsOk, RunInv, RunOk, DeliveryInv, SoundRecords, Load, PlanPublish, Cut, CutRecord, ValidCopy,
         ValidSnapshot, CanFollow, BindingOf, Create, FailQueuedDispatch, Claim, Renew, Append, Finish, RecoveryRecord,
         CompleteIn, GapFree;
    OnlyFinishCompletes(w.store, a);
  }

  /** The action that completes a run: a delivery that claimed it, binding a completion, holding the claim. */
  lemma OnlyTheClaimantCompletes(w: World, act: Action, a: Alias)
    requires WorldInv(w) && !CompleteIn(w.store, a) && CompleteIn(Apply(w, act).store, a)
    ensures act.FinishRun? && act.owner in w.deliveries
    ensures var d := w.deliveries[act.owner];
            && d.alias == a && d.role == Some(Original)
            && d.phase.Finishing? && d.phase.goal == BindCompletion
            && a in w.store.runs && w.store.runs[a].meta.claimOwner == Some(act.owner) && !w.histories[a].recovered
  {
    hide StoreInv, RunInv, RunOk, SoundRecords, Load, PlanPublish, Cut, CutRecord, ValidCopy, ValidSnapshot, CanFollow,
         HolderInv, PreparedInv, Create, FailQueuedDispatch, Claim, Renew, Append, Finish, RecoveryRecord;
    OnlyFinishCompletes(w.store, a);
    LocalStepsNeverComplete(w, act, a);
    assert act.FinishRun? && act.owner in w.deliveries && DeliveryInv(w.store, w.deliveries[act.owner]);
    HolderIsBound(a, w.store.runs[a], w.histories[a], w.deliveries);
  }

  /** Once recovered, a run can only end failed. */
  lemma {:induction false} RecoveredRunsNeverComplete(w: World, acts: seq<Action>, a: Alias)
    requires WorldInv(w) && a in w.store.runs && w.histories[a].recovered
    ensures var v := After(w, acts);
            && a in v.store.runs && v.histories[a].recovered
            && (v.store.runs[a].meta.Terminal() ==> v.store.runs[a].meta.state == RunState.Failed)
    decreases |acts|
  {
    hide Apply, StoreInv, RunOk, DeliveryInv, RunEvolves, DeliveryProgress, ClaimProgress;
    if acts == [] {
      RecoveredOnlyFails(a, w.store.runs[a], w.histories[a], w.deliveries);
    } else {
      StepKeeps(w, acts[0]);
      StepProgress(w, acts[0]);
      RecoveredRunsNeverComplete(Apply(w, acts[0]), acts[1..], a);
    }
  }

  lemma RecoveredOnlyFails(a: Alias, run: Run, h: History, ds: map<Owner, Delivery>)
    requires RunOk(a, run, h, ds) && h.recovered
    ensures run.meta.Terminal() ==> run.meta.state == RunState.Failed
  {
  }

  // ---- Fencing ----

  /** The delivery has claimed run a at some time and does not hold the claim now. */
  predicate Superseded(w: World, a: Alias, o: Owner) {
    && a in w.store.runs && o in w.deliveries
    && w.deliveries[o].alias == a && w.deliveries[o].role.Some?
    && w.store.runs[a].meta.claimOwner != Some(o)
  }

  /** A superseded delivery stays superseded for ever, and no call it makes has any effect, whatever its clock. */
  lemma {:induction false} SupersededForEver(w: World, acts: seq<Action>, a: Alias, o: Owner, call: OwnerCall,
                                             now: Time)
    requires WorldInv(w) && Superseded(w, a, o)
    ensures var v := After(w, acts); Superseded(v, a, o) && AfterCall(v.store, a, o, call, now) == v.store
    decreases |acts|
  {
    hide Apply, StoreInv, RunsOk, DeliveriesOk, RunEvolves, AfterCall;
    if acts == [] {
      OwnerCallEffect(w.store, a, o, call, now);
    } else {
      StepKeeps(w, acts[0]);
      StepProgress(w, acts[0]);
      SupersededForEver(Apply(w, acts[0]), acts[1..], a, o, call, now);
    }
  }

  /** Recovery fences: the holder before a successful recovery claim is superseded after it. */
  lemma RecoveryFences(w: World, o: Owner, earlier: Owner, now: Time)
    requires WorldInv(w) && o in w.deliveries && w.deliveries[o].phase.Prepared?
    requires var a := w.deliveries[o].alias; a in w.store.runs && w.store.runs[a].meta.claimOwner == Some(earlier)
    requires Apply(w, RecoveryClaim(o, now)).store != w.store
    ensures Superseded(Apply(w, RecoveryClaim(o, now)), w.deliveries[o].alias, earlier)
  {
    hide StoreInv, RunInv, HolderInv, RunEvolves, SoundRecords, Load, GapFree, PreparedInv;
    var a := w.deliveries[o].alias;
    HolderIsBound(a, w.store.runs[a], w.histories[a], w.deliveries);
    assert DeliveryInv(w.store, w.deliveries[o]);
  }

  // ---- Publication ----

  /** While a growing publisher holds the claim, the durable timeline is exactly its latest attempted candidate cut at
      one ordinal, whatever was refused at the check since, and a publication that follows that candidate is never
      refused as immutable. */
  lemma GrowingPublisherIsExact(acts: seq<Action>, o: Owner)
    ensures var v := Reached(acts);
            o in v.deliveries ==>
              var d := v.deliveries[o];
              d.alias in v.store.runs && v.store.runs[d.alias].meta.claimOwner == Some(o) ==>
                var run := v.store.runs[d.alias];
                && RunInv(d.alias, run)
                && (d.phase.Executing? && d.phase.growing ==> HeldCut(run, d.phase.tried))
                && (d.phase.Checking? && d.phase.growing ==> HeldCut(run, d.phase.tried))
                && (d.phase.Checking? && d.phase.growing && CanFollow(d.phase.tried, d.phase.candidate) ==>
                      PlanPublish(d.alias, d.phase.read, Load(run),
                                  d.phase.candidate) != Refused(PublishedRecordIsImmutable))
                && (d.phase.Appending? ==> CutAt(d.alias, run, d.phase.candidate, d.phase.next - 1))
  {
    hide StoreInv, RunInv, RunOk, PlanPublish, Load, HeldCut, CutAt, GapFree, CanFollow, HeldBack;
    var v := Reached(acts);
    if o in v.deliveries && v.deliveries[o].alias in v.store.runs {
      var d := v.deliveries[o];
      var run := v.store.runs[d.alias];
      if run.meta.claimOwner == Some(o) {
        HolderKnows(v, o);
        HolderIsBound(d.alias, run, v.histories[d.alias], v.deliveries);
        assert DeliveryInv(v.store, d);
        if d.phase.Checking? {
          CheckedHolder(d.alias, run, v.histories[d.alias], v.deliveries, d.phase);
        }
      }
    }
  }
}
