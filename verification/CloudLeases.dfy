/** Lease intervals of the cloud system, for clocks that never run backwards in commit order. */
module CloudLeases {
  import opened Basics
  import opened CloudModel
  import opened RunStore
  import opened Publication
  import opened Studio
  import opened CloudSystem
  import opened CloudSafety

  /** The actions that can grant or extend a lease. */
  predicate Timed(act: Action) { act.FirstClaim? || act.RecoveryClaim? || act.Heartbeat? }

  predicate Commits(w: World, act: Action)
    requires WorldInv(w)
  {
    Timed(act) && Apply(w, act).store != w.store
  }

  function ClockAfter(w: World, act: Action, clock: Time): Time
    requires WorldInv(w)
  {
    if Commits(w, act) then act.now else clock
  }

  /** Committed claims and renewals carry readings that never decrease; refused ones may carry any. */
  predicate ForwardClock(w: World, acts: seq<Action>, clock: Time)
    requires WorldInv(w)
    decreases |acts|
  {
    acts == [] ||
    (StepKeeps(w, acts[0]);
     && clock <= ClockAfter(w, acts[0], clock)
     && ForwardClock(Apply(w, acts[0]), acts[1..], ClockAfter(w, acts[0], clock)))
  }

  predicate ForwardRun(acts: seq<Action>, start: Time) {
    NowhereIsOk();
    ForwardClock(NOWHERE, acts, start)
  }

  /** Lease intervals granted to different owners never overlap. */
  predicate Disjoint(gs: seq<Grant>) {
    forall i, j :: 0 <= i < j < |gs| && gs[i].owner != gs[j].owner ==> gs[i].until <= gs[j].from
  }

  predicate GrantsInOrder(gs: seq<Grant>, ds: map<Owner, Delivery>, clock: Time) {
    && (forall i :: 0 <= i < |gs| ==>
          && gs[i].owner in ds && ds[gs[i].owner].lease > 0
          && gs[i].until == gs[i].from + ds[gs[i].owner].lease && gs[i].from <= clock)
    && (forall i, j :: 0 <= i < j < |gs| ==> gs[i].from <= gs[j].from)
  }

  /** The lease stored with a running run is the one granted last. */
  predicate LastGrantHolds(run: Run, gs: seq<Grant>) {
    run.meta.state == RunState.Running ==>
      && gs != []
      && run.meta.claimOwner == Some(gs[|gs| - 1].owner) && run.meta.leaseExpiresAt == Some(gs[|gs| - 1].until)
  }

  predicate LeaseOk(run: Run, gs: seq<Grant>, ds: map<Owner, Delivery>, clock: Time) {
    Disjoint(gs) && GrantsInOrder(gs, ds, clock) && LastGrantHolds(run, gs)
  }

  predicate LeaseInv(w: World, clock: Time) {
    forall a :: a in w.store.runs ==>
      a in w.histories && LeaseOk(w.store.runs[a], w.histories[a].grants, w.deliveries, clock)
  }

  // ---- What one action does to the leases of one run ----

  predicate KeepsLease(x: Run, y: Run) {
    y.meta.state == RunState.Running ==>
      x.meta.state == RunState.Running && y.meta.claimOwner == x.meta.claimOwner
        && y.meta.leaseExpiresAt == x.meta.leaseExpiresAt
  }

  /** A lease is granted to a first claimant, to its own holder, or after the stored lease has run out. */
  predicate Grants(x: Run, y: Run, o: Owner, now: Time, lease: int) {
    && y.meta.state == RunState.Running && y.meta.claimOwner == Some(o) && y.meta.leaseExpiresAt == Some(now + lease)
    && (x.meta.state == RunState.Queued
        || (x.meta.state == RunState.Running && x.meta.leaseExpiresAt.Some?
            && (x.meta.claimOwner == Some(o) || x.meta.leaseExpiresAt.value <= now)))
  }

  lemma ClaimGrants(s: Store, a: Alias, key: string, o: Owner, now: Time, lease: int, r: Option<TimelineRecord>)
    requires StoreInv(s)
    ensures var t := Claim(s, a, key, o, now, lease, r);
            if t.reply.Ok? && (t.reply.value.status == Claimed || t.reply.value.status == Recovered) then
              a in s.runs && a in t.store.runs && t.store == s.Put(a, t.store.runs[a]) && t.store != s
              && Grants(s.runs[a], t.store.runs[a], o, now, lease)
            else t.store == s
  {
    hide PersistedOrdinals, GapFree, StageOf, SlotInv;
    if a in s.runs {
      assert RunInv(a, s.runs[a]);
      var t := Claim(s, a, key, o, now, lease, r);
      if t.reply.Ok? && (t.reply.value.status == Claimed || t.reply.value.status == Recovered) {
        assert t.store.runs[a].meta.version == s.runs[a].meta.version + 1;
      }
    }
  }

  lemma RenewGrants(s: Store, a: Alias, o: Owner, now: Time, lease: int)
    ensures var t := Renew(s, a, o, now, lease);
            if t.reply == Ok(true) then
              a in s.runs && a in t.store.runs && t.store == s.Put(a, t.store.runs[a]) && t.store != s
              && Grants(s.runs[a], t.store.runs[a], o, now, lease)
            else t.store == s
  {
    var t := Renew(s, a, o, now, lease);
    if t.reply == Ok(true) {
      assert t.store.runs[a].meta.version == s.runs[a].meta.version + 1;
    }
  }

  lemma OtherStepsKeepLeases(s: Store)
    ensures forall b, o, r, now, a :: a in s.runs ==>
              a in Append(s, b, o, r, now).store.runs && KeepsLease(s.runs[a], Append(s, b, o, r, now).store.runs[a])
    ensures forall b, o, r, now :: Append(s, b, o, r, now).store.runs.Keys == s.runs.Keys
    ensures forall b, o, c: TerminalBinding, now, a :: a in s.runs ==>
              a in Finish(s, b, o, c, now).store.runs && KeepsLease(s.runs[a], Finish(s, b, o, c, now).store.runs[a])
    ensures forall b, o, c: TerminalBinding, now :: Finish(s, b, o, c, now).store.runs.Keys == s.runs.Keys
    ensures forall b, key, now, a :: a in s.runs ==>
              a in FailQueuedDispatch(s, b, key, now).store.runs
                && KeepsLease(s.runs[a], FailQueuedDispatch(s, b, key, now).store.runs[a])
    ensures forall b, key, now :: FailQueuedDispatch(s, b, key, now).store.runs.Keys == s.runs.Keys
  {
  }

  function GrantOf(w: World, act: Action): Grant
    requires Timed(act) && act.owner in w.deliveries
  {
    Grant(act.owner, act.now, act.now + w.deliveries[act.owner].lease)
  }

  /** One action leaves a run's lease alone, or grants exactly one more and records it. */
  predicate RunLease(w: World, v: World, act: Action, a: Alias)
    requires a in v.store.runs
  {
    && a in v.histories
    && (a !in w.store.runs ==> v.store.runs[a].meta.state != RunState.Running && v.histories[a].grants == [])
    && (a in w.store.runs ==>
          && a in w.histories
          && ((KeepsLease(w.store.runs[a], v.store.runs[a]) && v.histories[a].grants == w.histories[a].grants)
              || (Timed(act) && act.owner in w.deliveries && v.store != w.store
                  && Grants(w.store.runs[a], v.store.runs[a], act.owner, act.now, w.deliveries[act.owner].lease)
                  && v.histories[a].grants == w.histories[a].grants + [GrantOf(w, act)])))
  }

  predicate LeaseStep(w: World, v: World, act: Action) {
    forall a :: a in v.store.runs ==> RunLease(w, v, act, a)
  }

  lemma ClaimStep(w: World, o: Owner, act: Action, recovery: Option<TimelineRecord>)
    requires WorldInv(w) && o in w.deliveries && (act.FirstClaim? || act.RecoveryClaim?) && act.owner == o
    ensures var d := w.deliveries[o];
            LeaseStep(w, AfterClaimReply(w, o, act.now, Claim(w.store, d.alias, d.key, o, act.now, d.lease, recovery)),
                      act)
  {
    hide StoreInv, RunOk, DeliveryInv, Claim, Grants, KeepsLease;
    var d := w.deliveries[o];
    ClaimGrants(w.store, d.alias, d.key, o, act.now, d.lease, recovery);
    SelfKeeps();
  }

  lemma SelfKeeps()
    ensures forall x :: KeepsLease(x, x)
  {
  }

  lemma HeartbeatStep(w: World, o: Owner, now: Time)
    requires WorldInv(w) && o in w.deliveries
    ensures LeaseStep(w, Act(w, o, Heartbeat(o, now)), Heartbeat(o, now))
  {
    hide StoreInv, RunOk, DeliveryInv, Renew, Grants, KeepsLease;
    var d := w.deliveries[o];
    RenewGrants(w.store, d.alias, o, now, d.lease);
    SelfKeeps();
  }

  lemma ActLeaseStep(w: World, o: Owner, act: Action)
    requires WorldInv(w) && o in w.deliveries && (Timed(act) ==> act.owner == o)
    ensures LeaseStep(w, Act(w, o, act), act)
  {
    hide StoreInv, RunInv, RunOk, DeliveryInv, AfterClaimReply, Claim, Load, GapFree, PlanPublish, CutRecord,
         ValidSnapshot, ValidCopy, CanFollow, Append, Finish, Renew, RecoveryRecord, BindingOf, KeepsLease, Grants,
         PreparedInv, HolderInv;
    var d := w.deliveries[o];
    SelfKeeps();
    OtherStepsKeepLeases(w.store);
    match (act, d.phase)
    case (FirstClaim(_, now), Fresh) => ClaimStep(w, o, act, None);
    case (RecoveryClaim(_, now), Prepared(r)) => ClaimStep(w, o, act, Some(r));
    case (Heartbeat(_, now), _) => HeartbeatStep(w, o, now);
    case _ =>
  }

  lemma ApplyLeaseStep(w: World, act: Action)
    requires WorldInv(w)
    ensures LeaseStep(w, Apply(w, act), act)
  {
    hide StoreInv, RunOk, DeliveryInv, Act, FailQueuedDispatch, KeepsLease, Grants;
    SelfKeeps();
    OtherStepsKeepLeases(w.store);
    match act
    case CreateRun(request, a, key, now) =>
    case FailDispatch(a, key, now) =>
    case Deliver(o, a, key, lease) =>
    case _ =>
      if act.owner in w.deliveries {
        ActLeaseStep(w, act.owner, act);
      }
  }

  // ---- The invariant is kept ----

  /** A grant after the stored lease ran out, or by its own holder, keeps the intervals apart. */
  lemma GrantKeepsLease(x: Run, y: Run, gs: seq<Grant>, ds: map<Owner, Delivery>, o: Owner, now: Time, clock: Time)
    requires LeaseOk(x, gs, ds, clock) && o in ds && ds[o].lease > 0 && clock <= now
    requires Grants(x, y, o, now, ds[o].lease) && (x.meta.state == RunState.Queued ==> gs == [])
    ensures LeaseOk(y, gs + [Grant(o, now, now + ds[o].lease)], ds, now)
  {
    var more := gs + [Grant(o, now, now + ds[o].lease)];
    forall i | 0 <= i < |gs| && gs[i].owner != o ensures gs[i].until <= now {
      var last := |gs| - 1;
      if gs[last].owner == o {
        assert i < last;
      } else if gs[i].owner == gs[last].owner {
        assert i < last ==> gs[i].from <= gs[last].from;
      } else {
        assert i < last;
      }
    }
    assert GrantsInOrder(more, ds, now);
  }

  /** Deliveries keep their lease length for ever. */
  lemma LaterDeliveries(run: Run, gs: seq<Grant>, ds: map<Owner, Delivery>, es: map<Owner, Delivery>, clock: Time,
                        later: Time)
    requires LeaseOk(run, gs, ds, clock) && clock <= later
    requires forall o :: o in ds ==> o in es && es[o].lease == ds[o].lease
    ensures LeaseOk(run, gs, es, later)
  {
  }

  lemma QueuedHasNoGrant(a: Alias, run: Run, h: History, ds: map<Owner, Delivery>)
    requires RunOk(a, run, h, ds)
    ensures run.meta.state == RunState.Queued ==> h.grants == []
  {
  }

  lemma StepKeepsLeases(w: World, act: Action, clock: Time)
    requires WorldInv(w) && LeaseInv(w, clock) && clock <= ClockAfter(w, act, clock)
    ensures LeaseInv(Apply(w, act), ClockAfter(w, act, clock))
  {
    hide StoreInv, RunOk, Apply, DeliveryInv, LeaseOk, Grants, KeepsLease, RunEvolves, ClaimProgress;
    var v, later := Apply(w, act), ClockAfter(w, act, clock);
    ApplyLeaseStep(w, act);
    StepProgress(w, act);
    forall a | a in v.store.runs
      ensures a in v.histories && LeaseOk(v.store.runs[a], v.histories[a].grants, v.deliveries, later)
    {
      assert RunLease(w, v, act, a);
      if a !in w.store.runs {
        NoGrantIsOk(v.store.runs[a], v.deliveries, later);
      } else {
        var x, y, gs := w.store.runs[a], v.store.runs[a], w.histories[a].grants;
        if KeepsLease(x, y) && v.histories[a].grants == gs {
          KeptLeaseIsOk(x, y, gs, w.deliveries, clock);
          LaterDeliveries(y, gs, w.deliveries, v.deliveries, clock, later);
        } else {
          QueuedHasNoGrant(a, x, w.histories[a], w.deliveries);
          LeaseIsPositive(w.store, w.deliveries[act.owner]);
          GrantKeepsLease(x, y, gs, w.deliveries, act.owner, act.now, clock);
          LaterDeliveries(y, v.histories[a].grants, w.deliveries, v.deliveries, act.now, later);
        }
      }
    }
  }

  lemma NoGrantIsOk(run: Run, ds: map<Owner, Delivery>, clock: Time)
    requires run.meta.state != RunState.Running
    ensures LeaseOk(run, [], ds, clock)
  {
  }

  lemma KeptLeaseIsOk(x: Run, y: Run, gs: seq<Grant>, ds: map<Owner, Delivery>, clock: Time)
    requires LeaseOk(x, gs, ds, clock) && KeepsLease(x, y)
    ensures LeaseOk(y, gs, ds, clock)
  {
  }

  lemma LeaseIsPositive(s: Store, d: Delivery)
    requires DeliveryInv(s, d)
    ensures d.lease > 0
  {
  }

  lemma {:induction false} RunKeepsLeases(w: World, acts: seq<Action>, clock: Time) returns (later: Time)
    requires WorldInv(w) && LeaseInv(w, clock) && ForwardClock(w, acts, clock)
    ensures LeaseInv(After(w, acts), later)
    decreases |acts|
  {
    hide WorldInv, Apply, ClockAfter, LeaseInv;
    if acts == [] {
      later := clock;
    } else {
      StepKeeps(w, acts[0]);
      StepKeepsLeases(w, acts[0], clock);
      later := RunKeepsLeases(Apply(w, acts[0]), acts[1..], ClockAfter(w, acts[0], clock));
    }
  }

  /** In every run whose committed claims and renewals carry non-decreasing readings, the lease intervals of
      different owners never overlap, and a running run's stored lease is the interval granted last. */
  lemma LeasesNeverOverlap(acts: seq<Action>, start: Time)
    requires ForwardRun(acts, start)
    ensures var v := Reached(acts);
            forall a :: a in v.store.runs ==>
              && a in v.histories && Disjoint(v.histories[a].grants)
              && LastGrantHolds(v.store.runs[a], v.histories[a].grants)
  {
    hide WorldInv, Disjoint, GrantsInOrder, LastGrantHolds, After, ForwardClock;
    NowhereIsOk();
    assert LeaseInv(NOWHERE, start);
    var later := RunKeepsLeases(NOWHERE, acts, start);
  }
}
