/**
 * Every interleaving of run creation, at-least-once deliveries, heartbeats, crashes and redeliveries.
 * Each action is one atomic repository call or one local step of one delivery, with freely chosen
 * clocks; a crashed delivery is one that takes no further action.
 */
module CloudSystem {
  import opened Basics
  import opened Studio
  import opened CloudModel
  import opened RunStore
  import opened Publication
  import opened ProgressPublisher

  datatype Goal = Observe | BindCompletion | BindFailure

  /** How a delivery came to hold the claim. */
  datatype Role = Original | Recoverer

  datatype Phase =
    | Fresh
    | LeaseExpired
    | Prepared(recovery: TimelineRecord)
    | Recovering
    | Executing(last: Snapshot, tried: Snapshot, growing: bool)
    | Checking(last: Snapshot, tried: Snapshot, growing: bool, candidate: Snapshot, goal: Goal, read: Metadata)
    | Appending(last: Snapshot, growing: bool, candidate: Snapshot, goal: Goal, next: nat, upTo: nat)
    | Finishing(candidate: Snapshot, goal: Goal)
    | Done

  /** One delivery of a dispatch; its claim owner is its key in the world and is used by no other delivery. */
  datatype Delivery = Delivery(alias: Alias, key: string, lease: int, role: Option<Role>, phase: Phase)

  datatype Grant = Grant(owner: Owner, from: Time, until: Time)

  /** What an observer writes down about one run. */
  datatype History = History(
    claimedBy: Option<Owner>,
    recovered: bool,
    finishedBy: Option<Owner>,
    bound: Option<Snapshot>,
    grants: seq<Grant>)

  const UNTOUCHED := History(None, false, None, None, [])

  datatype World = World(store: Store, deliveries: map<Owner, Delivery>, histories: map<Alias, History>)
  {
    function With(o: Owner, d: Delivery): World { this.(deliveries := deliveries[o := d]) }

    function At(o: Owner, p: Phase): World
      requires o in deliveries
    {
      With(o, deliveries[o].(phase := p))
    }
  }

  datatype Action =
    | CreateRun(request: Request, alias: Alias, key: string, now: Time)
    | FailDispatch(alias: Alias, key: string, now: Time)
    | Deliver(owner: Owner, alias: Alias, key: string, lease: int)
    | FirstClaim(owner: Owner, now: Time)
    | PrepareRecovery(owner: Owner, now: Time)
    | RecoveryClaim(owner: Owner, now: Time)
    | Heartbeat(owner: Owner, now: Time)
    | LoadForFailure(owner: Owner)
    | BeginPublish(owner: Owner, candidate: Snapshot)
    | BeginBind(owner: Owner, goal: Goal)
    | Check(owner: Owner)
    | AppendNext(owner: Owner, now: Time)
    | Published(owner: Owner)
    | FinishRun(owner: Owner, now: Time)
    | Abort(owner: Owner)
    | Abandon(owner: Owner)

  const NOWHERE := World(Store(None, map[]), map[], map[])

  function BindingOf(c: Snapshot, goal: Goal): Option<TerminalBinding> {
    match goal
    case Observe => None
    case BindCompletion => CompletionBinding(c)
    case BindFailure => FailureBinding(c)
  }

  /** What is checked before a final snapshot is published. */
  predicate Ready(c: Snapshot, goal: Goal) {
    match goal
    case Observe => false
    case BindCompletion => CompletionBinding(c).Some?
    case BindFailure => FailureReady(c)
  }

  /** Where a delivery goes when a publication attempt leads nowhere. */
  function GiveUp(p: Phase): Phase {
    match p
    case Checking(last, tried, growing, _, Observe, _) => Executing(last, tried, growing)
    case Appending(last, growing, candidate, Observe, _, _) => Executing(last, candidate, growing)
    case _ => Done
  }

  /** Where a delivery goes when a publication succeeded. */
  function Succeed(growing: bool, candidate: Snapshot, goal: Goal): Phase {
    if goal == Observe then Executing(candidate, candidate, growing) else Finishing(candidate, goal)
  }

  /** The delivery and the history after the store has answered a claim. */
  function AfterClaimReply(w: World, o: Owner, now: Time, t: Step<ClaimResult>): World
    requires o in w.deliveries
  {
    var d := w.deliveries[o];
    if t.reply == Err(ExpiredClaim) && d.phase.Fresh? then w.At(o, LeaseExpired)
    else if t.reply.Err? || d.alias !in w.histories || d.alias !in t.store.runs then w.At(o, Done)
    else
      var h := w.histories[d.alias];
      var granted := h.grants + [Grant(o, now, now + d.lease)];
      match t.reply.value.status
      case Claimed =>
        var start := InitialSnapshot(t.store.runs[d.alias].meta.request, d.alias);
        World(t.store,
              w.deliveries[o := d.(role := Some(Original), phase := Executing(start, start, true))],
              w.histories[d.alias := h.(claimedBy := Some(o), grants := granted)])
      case Recovered =>
        World(t.store,
              w.deliveries[o := d.(role := Some(Recoverer), phase := Recovering)],
              w.histories[d.alias := h.(recovered := true, grants := granted)])
      case _ => w.At(o, Done)
  }

  /** The step function; an action that is not enabled changes nothing. */
  function Apply(w: World, act: Action): World
    requires WorldInv(w)
  {
    match act
    case CreateRun(request, a, key, now) =>
      var t := Create(w.store, request, a, key, now);
      if t.reply.Ok? then World(t.store, w.deliveries, w.histories[a := UNTOUCHED]) else w
    case FailDispatch(a, key, now) =>
      w.(store := FailQueuedDispatch(w.store, a, key, now).store)
    case Deliver(o, a, key, lease) =>
      if o in w.deliveries || !(30 <= lease <= 900) then w
      else w.With(o, Delivery(a, key, lease, None, Fresh))
    case _ =>
      if act.owner !in w.deliveries then w else Act(w, act.owner, act)
  }

  /** The steps of one delivery. */
  function Act(w: World, o: Owner, act: Action): World
    requires WorldInv(w) && o in w.deliveries
  {
    var d := w.deliveries[o];
    var a := d.alias;
    match (act, d.phase)
    case (FirstClaim(_, now), Fresh) =>
      AfterClaimReply(w, o, now, Claim(w.store, a, d.key, o, now, d.lease, None))
    case (PrepareRecovery(_, now), LeaseExpired) =>
      if a in w.store.runs then w.At(o, Prepared(RecoveryRecord(w.store.runs[a].meta, now))) else w.At(o, Done)
    case (RecoveryClaim(_, now), Prepared(recovery)) =>
      AfterClaimReply(w, o, now, Claim(w.store, a, d.key, o, now, d.lease, Some(recovery)))
    case (Heartbeat(_, now), _) =>
      var t := Renew(w.store, a, o, now, d.lease);
      if t.reply == Ok(true) && a in w.histories then
        var h := w.histories[a];
        World(t.store, w.deliveries, w.histories[a := h.(grants := h.grants + [Grant(o, now, now + d.lease)])])
      else w
    case (LoadForFailure(_), Recovering) =>
      if a !in w.store.runs then w.At(o, Done)
      else
        assert RunInv(a, w.store.runs[a]);
        (match Load(w.store.runs[a])
         case Err(_) => w.At(o, Done)
         case Ok(x) => w.At(o, Executing(FailedSnapshot(x), FailedSnapshot(x), false)))
    case (BeginPublish(_, c), Executing(last, tried, growing)) =>
      if d.role == Some(Original) && a in w.store.runs && ValidCopy(c) && CanFollow(last, c)
      then w.At(o, Checking(last, tried, growing, c, Observe, w.store.runs[a].meta))
      else w
    case (BeginBind(_, goal), Executing(last, tried, growing)) =>
      if Ready(last, goal) && (d.role == Some(Recoverer) ==> goal == BindFailure) && a in w.store.runs
      then w.At(o, Checking(last, tried, growing, last, goal, w.store.runs[a].meta))
      else w.At(o, Done)
    case (Check(_), Checking(last, tried, growing, c, goal, read)) =>
      if a !in w.store.runs then w.At(o, GiveUp(d.phase))
      else
        assert RunInv(a, w.store.runs[a]);
        (match PlanPublish(a, read, Load(w.store.runs[a]), c)
         case Refused(_) => w.At(o, GiveUp(d.phase))
         case AlreadyBound => w.At(o, Succeed(growing && CanFollow(tried, c), c, goal))
         case AppendRange(first, upTo) =>
           w.At(o, Appending(last, growing && CanFollow(tried, c), c, goal, first, upTo)))
    case (AppendNext(_, now), Appending(last, growing, c, goal, next, upTo)) =>
      if !(ValidSnapshot(c) && 1 <= next <= upTo <= |c.events|) then w
      else
        var t := Append(w.store, a, o, CutRecord(c, next), now);
        if t.reply.Err? then w.At(o, GiveUp(d.phase))
        else w.(store := t.store).At(o, Appending(last, growing, c, goal, next + 1, upTo))
    case (Published(_), Appending(last, growing, c, goal, next, upTo)) =>
      if next == upTo + 1 then w.At(o, Succeed(growing, c, goal)) else w
    case (FinishRun(_, now), Finishing(c, goal)) =>
      (match BindingOf(c, goal)
       case None => w.At(o, Done)
       case Some(b) =>
         var t := Finish(w.store, a, o, b, now);
         if t.reply == Ok(true) && a in w.histories then
           World(t.store, w.deliveries[o := d.(phase := Done)],
                 w.histories[a := w.histories[a].(finishedBy := Some(o), bound := Some(c))])
         else w.At(o, Done))
    case (Abort(_), _) => if d.phase.Checking? || d.phase.Appending? then w.At(o, GiveUp(d.phase)) else w
    case (Abandon(_), _) => w.At(o, Done)
    case _ => w
  }

  // ---- The invariant ----

  /** What one delivery guarantees by itself. */
  predicate DeliveryInv(s: Store, d: Delivery) {
    && 30 <= d.lease <= 900
    && (d.role.None? ==> d.phase.Fresh? || d.phase.LeaseExpired? || d.phase.Prepared? || d.phase.Done?)
    && (d.role.Some? ==> !d.phase.Fresh? && !d.phase.LeaseExpired? && !d.phase.Prepared?)
    && (d.role == Some(Recoverer) ==> (d.phase.Checking? || d.phase.Appending? || d.phase.Finishing?) ==>
        d.phase.goal == BindFailure)
    && (d.role == Some(Recoverer) && d.phase.Executing? ==> !d.phase.growing)
    && (d.role == Some(Original) ==> !d.phase.Recovering?)
    && (d.phase.Prepared? ==> PreparedInv(s, d.alias, d.phase.recovery))
    && (d.phase.Checking? || d.phase.Appending? ==>
          d.phase.goal != Observe ==> Ready(d.phase.candidate, d.phase.goal))
    && (d.phase.Finishing? ==> Ready(d.phase.candidate, d.phase.goal))
    && (d.phase.Executing? || d.phase.Checking? || d.phase.Appending? ==> Belongs(s, d.alias, d.phase.last))
    && (d.phase.Checking? || d.phase.Appending? ==> Belongs(s, d.alias, d.phase.candidate))
  }

  /** A valid snapshot of the run. */
  predicate Belongs(s: Store, a: Alias, c: Snapshot) {
    a in s.runs && ValidCopy(c) && c.alias == a && c.request == s.runs[a].meta.request
  }

  /** A prepared recovery record is inert and fits the run unless the run has grown since it was read. */
  predicate PreparedInv(s: Store, a: Alias, r: TimelineRecord) {
    && a in s.runs
    && r.event.effect.Inert? && r.event.persistedOrdinal.None? && r.conversations == []
    && r.ordinal <= s.runs[a].meta.timelineCount + 1
    && (r.ordinal == s.runs[a].meta.timelineCount + 1 ==> r.lifecycle == s.runs[a].meta.lifecycleStage)
  }

  /** What the delivery that holds the claim knows about the stored timeline. */
  predicate HolderInv(a: Alias, run: Run, p: Phase)
    requires GapFree(run.timeline, run.meta.timelineCount)
  {
    match p
    case Executing(_, tried, growing) => growing ==> HeldCut(run, tried)
    case Checking(_, tried, growing, _, _, _) => growing ==> HeldCut(run, tried)
    case Appending(_, growing, c, goal, next, upTo) =>
      && 1 <= next <= upTo + 1 && upTo <= |c.events|
      && CutAt(a, run, c, next - 1)
      && (growing ==> HeldBack(c, upTo))
      && (goal != Observe ==> upTo == |c.events|)
    case Finishing(c, _) => CutAt(a, run, c, |c.events|)
    case _ => true
  }

  predicate RunOk(a: Alias, run: Run, h: History, ds: map<Owner, Delivery>) {
    && RunInv(a, run)
    && SoundRecords(Records(run))
    && match run.meta.state
       case Queued => Records(run) == [] && h == UNTOUCHED
       case Running =>
         && run.meta.claimOwner.Some? && run.meta.claimOwner.value in ds
         && var holder := run.meta.claimOwner.value;
            && ds[holder].alias == a
            && ds[holder].role == Some(if h.recovered then Recoverer else Original)
            && (!h.recovered ==> h.claimedBy == Some(holder))
            && h.finishedBy.None?
            && HolderInv(a, run, ds[holder].phase)
       case Complete =>
         && !h.recovered && h.finishedBy.Some? && h.finishedBy == h.claimedBy
         && h.bound.Some? && Load(run) == Ok(h.bound.value)
         && CompletionBinding(h.bound.value) == Some(BindingFromMetadata(run.meta))
       case Failed => true
  }

  predicate RunsOk(w: World) {
    forall a :: a in w.store.runs ==> a in w.histories && RunOk(a, w.store.runs[a], w.histories[a], w.deliveries)
  }

  predicate DeliveriesOk(w: World) {
    forall o :: o in w.deliveries ==> DeliveryInv(w.store, w.deliveries[o])
  }

  predicate WorldInv(w: World) {
    StoreInv(w.store) && RunsOk(w) && DeliveriesOk(w)
  }

  // ---- Framing: one run and one delivery change at a time ----

  /** A prepared record stays prepared while its run evolves. */
  lemma PreparedSurvives(s: Store, t: Store, a: Alias, r: TimelineRecord)
    requires PreparedInv(s, a, r) && Evolves(s, t)
    ensures PreparedInv(t, a, r)
  {
    assert RunEvolves(s.runs[a], t.runs[a]);
  }

  lemma BelongsSurvives(s: Store, t: Store, a: Alias, c: Snapshot)
    requires Evolves(s, t) && Belongs(s, a, c)
    ensures Belongs(t, a, c)
  {
    hide ValidCopy;
    assert RunEvolves(s.runs[a], t.runs[a]);
  }

  lemma DeliverySurvives(s: Store, t: Store, d: Delivery)
    requires DeliveryInv(s, d) && Evolves(s, t)
    ensures DeliveryInv(t, d)
  {
    hide PreparedInv, Ready, BindingOf, Evolves, Belongs;
    if d.phase.Executing? || d.phase.Checking? || d.phase.Appending? {
      BelongsSurvives(s, t, d.alias, d.phase.last);
    }
    if d.phase.Checking? || d.phase.Appending? {
      BelongsSurvives(s, t, d.alias, d.phase.candidate);
    }
    if d.phase.Prepared? {
      PreparedSurvives(s, t, d.alias, d.phase.recovery);
    }
  }

  lemma DeliveriesSurvive(w: World, t: Store)
    requires DeliveriesOk(w) && Evolves(w.store, t)
    ensures DeliveriesOk(w.(store := t))
  {
    hide DeliveryInv, Evolves;
    forall o | o in w.deliveries ensures DeliveryInv(t, w.deliveries[o]) {
      DeliverySurvives(w.store, t, w.deliveries[o]);
    }
  }

  /** A run is indifferent to deliveries that do not hold its claim. */
  lemma OtherDelivery(a: Alias, run: Run, h: History, ds: map<Owner, Delivery>, o: Owner, d: Delivery)
    requires RunOk(a, run, h, ds)
    requires run.meta.state == RunState.Running && run.meta.claimOwner == Some(o) ==>
               d.alias == a && d.role == ds[o].role && HolderInv(a, run, d.phase)
    ensures RunOk(a, run, h, ds[o := d])
  {
    hide RunInv, HolderInv, SoundRecords, Load, CompletionBinding;
  }

  /** A local step: the delivery moves to phase p, the store stays. */
  lemma Local(w: World, o: Owner, p: Phase)
    requires WorldInv(w) && o in w.deliveries
    requires DeliveryInv(w.store, w.deliveries[o].(phase := p))
    requires var a := w.deliveries[o].alias;
             a in w.store.runs && w.store.runs[a].meta.claimOwner == Some(o) ==>
               RunInv(a, w.store.runs[a]) && HolderInv(a, w.store.runs[a], p)
    ensures WorldInv(w.At(o, p))
  {
    hide StoreInv, RunInv, HolderInv, DeliveryInv, RunOk;
    var d := w.deliveries[o].(phase := p);
    forall b | b in w.store.runs ensures RunOk(b, w.store.runs[b], w.histories[b], w.deliveries[o := d]) {
      HolderIsBound(b, w.store.runs[b], w.histories[b], w.deliveries);
      OtherDelivery(b, w.store.runs[b], w.histories[b], w.deliveries, o, d);
    }
  }

  /** The holder of a running claim is a delivery of that run. */
  lemma HolderIsBound(a: Alias, run: Run, h: History, ds: map<Owner, Delivery>)
    requires RunOk(a, run, h, ds)
    ensures RunInv(a, run)
    ensures run.meta.claimOwner.Some? ==>
      && run.meta.state == RunState.Running && run.meta.claimOwner.value in ds
      && ds[run.meta.claimOwner.value].alias == a
      && ds[run.meta.claimOwner.value].role == Some(if h.recovered then Recoverer else Original)
      && HolderInv(a, run, ds[run.meta.claimOwner.value].phase)
  {
    hide HolderInv, SoundRecords, Load, CompletionBinding, PersistedOrdinals, GapFree;
  }

  /** A step on the store: run a, the delivery o of it and its history change together. */
  lemma Global(w: World, o: Owner, d: Delivery, t: Store, h: History)
    requires WorldInv(w) && o in w.deliveries
    requires var a := w.deliveries[o].alias;
             && a in w.store.runs && a in t.runs && d.alias == a
             && t.runs == w.store.runs[a := t.runs[a]]
             && RunOk(a, t.runs[a], h, w.deliveries[o := d])
    requires StoreInv(t) && Evolves(w.store, t) && DeliveryInv(t, d)
    ensures WorldInv(World(t, w.deliveries[o := d], w.histories[w.deliveries[o].alias := h]))
  {
    hide StoreInv, RunInv, HolderInv, DeliveryInv, RunOk, Evolves;
    var a := w.deliveries[o].alias;
    DeliveriesSurvive(w, t);
    forall b | b in t.runs && b != a ensures RunOk(b, t.runs[b], w.histories[b], w.deliveries[o := d]) {
      HolderIsBound(b, w.store.runs[b], w.histories[b], w.deliveries);
      OtherDelivery(b, w.store.runs[b], w.histories[b], w.deliveries, o, d);
    }
  }

  // ---- Every action keeps the invariant ----

  lemma CreateKeeps(w: World, request: Request, a: Alias, key: string, now: Time)
    requires WorldInv(w)
    ensures WorldInv(Apply(w, CreateRun(request, a, key, now)))
  {
    hide StoreInv, RunInv, DeliveryInv, RunOk, Evolves;
    var t := Create(w.store, request, a, key, now);
    if t.reply.Ok? {
      CreateKeepsInv(w.store, request, a, key, now);
      DeliveriesSurvive(w, t.store);
      NewRunOk(request, a, key, now, w.deliveries);
    }
  }

  lemma NewRunOk(request: Request, a: Alias, key: string, now: Time, ds: map<Owner, Delivery>)
    ensures RunOk(a, Run(NewMetadata(request, a, key, now), map[]), UNTOUCHED, ds)
  {
    NewRunInv(request, a, key, now);
    var run := Run(NewMetadata(request, a, key, now), map[]);
    assert Records(run) == [];
    assert EventsOf([]) == [] && DataPointsOf([]) == [];
  }

  lemma FailDispatchKeeps(w: World, a: Alias, key: string, now: Time)
    requires WorldInv(w)
    ensures WorldInv(Apply(w, FailDispatch(a, key, now)))
  {
    hide StoreInv, RunInv, DeliveryInv, RunOk, Evolves;
    FailQueuedDispatchKeepsInv(w.store, a, key, now);
    var t := FailQueuedDispatch(w.store, a, key, now);
    if t.reply == Ok(true) {
      DeliveriesSurvive(w, t.store);
      DispatchFailedOk(a, w.store.runs[a], w.histories[a], w.deliveries, now);
    }
  }

  lemma DispatchFailedOk(a: Alias, run: Run, h: History, ds: map<Owner, Delivery>, now: Time)
    requires RunOk(a, run, h, ds) && run.meta.state == RunState.Queued
    ensures RunOk(a, run.With(AfterDispatchFailure(run.meta, now)), h, ds)
  {
    hide PersistedOrdinals, SoundHistory;
    DispatchFailedRunInv(a, run, now);
    SameRecords(a, run, run.With(AfterDispatchFailure(run.meta, now)));
  }

  lemma DeliverKeeps(w: World, o: Owner, a: Alias, key: string, lease: int)
    requires WorldInv(w)
    ensures WorldInv(Apply(w, Deliver(o, a, key, lease)))
  {
    hide StoreInv, RunInv, HolderInv, RunOk;
    if o !in w.deliveries && 30 <= lease <= 900 {
      var d := Delivery(a, key, lease, None, Fresh);
      forall b | b in w.store.runs ensures RunOk(b, w.store.runs[b], w.histories[b], w.deliveries[o := d]) {
        HolderIsBound(b, w.store.runs[b], w.histories[b], w.deliveries);
        OtherDelivery(b, w.store.runs[b], w.histories[b], w.deliveries, o, d);
      }
    }
  }

  lemma ClaimedOk(a: Alias, run: Run, h: History, ds: map<Owner, Delivery>, o: Owner, d: Delivery, now: Time,
                  lease: int)
    requires RunOk(a, run, h, ds) && run.meta.state == RunState.Queued && d.alias == a
    requires var start := InitialSnapshot(run.meta.request, a);
             d.role == Some(Original) && d.phase == Executing(start, start, true)
    ensures forall gs ::
              RunOk(a, run.With(AfterClaim(run.meta, o, now, lease)), h.(claimedBy := Some(o), grants := gs),
                    ds[o := d])
  {
    hide PersistedOrdinals, CutRecord, ConversationsAt;
    var next := run.With(AfterClaim(run.meta, o, now, lease));
    ClaimedRunInv(a, run, o, now, lease);
    SameRecords(a, run, next);
    InitialIsValid(run.meta.request, a);
    assert next.meta.timelineCount == 0;
    assert Records(next) == Cut(InitialSnapshot(run.meta.request, a), 0);
  }

  lemma InitialIsValid(request: Request, a: Alias)
    ensures ValidSnapshot(InitialSnapshot(request, a))
  {
  }

  lemma InitialBelongs(s: Store, a: Alias)
    requires a in s.runs
    ensures Belongs(s, a, InitialSnapshot(s.runs[a].meta.request, a))
  {
  }

  lemma RecoveredOk(a: Alias, run: Run, h: History, ds: map<Owner, Delivery>, o: Owner, d: Delivery, r: TimelineRecord,
                    now: Time, lease: int)
    requires RunOk(a, run, h, ds) && run.meta.state == RunState.Running && NextRecordRefusal(run.meta, r).None?
    requires r.event.effect.Inert? && r.event.persistedOrdinal.None? && r.conversations == []
    requires r.lifecycle == run.meta.lifecycleStage
    requires d.alias == a && d.role == Some(Recoverer) && d.phase == Recovering
    ensures forall gs ::
              RunOk(a, run.WithRecord(AfterRecovery(run.meta, r, o, now, lease), r),
                    h.(recovered := true, grants := gs), ds[o := d])
  {
    hide PersistedOrdinals, SoundHistory;
    var next := run.WithRecord(AfterRecovery(run.meta, r, o, now, lease), r);
    SameRecords(a, run, run);
    RecoveredRunInv(a, run, r, o, now, lease);
    InertRecordKeepsSound(Records(run), r);
  }

  /** A delivery that holds no claim may move to any phase that needs none. */
  lemma LocalBeforeClaim(w: World, o: Owner, p: Phase)
    requires WorldInv(w) && o in w.deliveries && w.deliveries[o].role.None?
    requires DeliveryInv(w.store, w.deliveries[o].(phase := p))
    ensures WorldInv(w.At(o, p))
  {
    hide StoreInv, RunInv, HolderInv, RunOk, DeliveryInv;
    var a := w.deliveries[o].alias;
    if a in w.store.runs {
      HolderIsBound(a, w.store.runs[a], w.histories[a], w.deliveries);
    }
    Local(w, o, p);
  }

  lemma ClaimKeeps(w: World, o: Owner, now: Time, recovery: Option<TimelineRecord>)
    requires WorldInv(w) && o in w.deliveries && w.deliveries[o].role.None?
    requires recovery.Some? ==> w.deliveries[o].phase == Prepared(recovery.value)
    ensures var d := w.deliveries[o];
            WorldInv(AfterClaimReply(w, o, now, Claim(w.store, d.alias, d.key, o, now, d.lease, recovery)))
  {
    hide StoreInv, RunInv, HolderInv, RunOk, Evolves, AfterRecovery, SoundRecords, Records, GapFree, InitialSnapshot;
    var d := w.deliveries[o];
    var a := d.alias;
    var t := Claim(w.store, a, d.key, o, now, d.lease, recovery);
    ClaimKeepsInv(w.store, a, d.key, o, now, d.lease, recovery);
    if t.reply.Ok? && (t.reply.value.status == Claimed || t.reply.value.status == Recovered) {
      var next := AfterClaimReply(w, o, now, t);
      var run, h := w.store.runs[a], w.histories[a];
      if t.reply.value.status == Claimed {
        ClaimedOk(a, run, h, w.deliveries, o, next.deliveries[o], now, d.lease);
        InitialBelongs(t.store, a);
      } else {
        RecoveredOk(a, run, h, w.deliveries, o, next.deliveries[o], recovery.value, now, d.lease);
      }
      Global(w, o, next.deliveries[o], t.store, next.histories[a]);
    } else {
      LocalBeforeClaim(w, o, LeaseExpired);
      LocalBeforeClaim(w, o, Done);
    }
  }

  // ---- The steps of a delivery that has claimed ----

  lemma HeartbeatKeeps(w: World, o: Owner, now: Time)
    requires WorldInv(w) && o in w.deliveries
    ensures WorldInv(Act(w, o, Heartbeat(o, now)))
  {
    hide StoreInv, RunInv, HolderInv, RunOk, Evolves, AfterRenewal, DeliveryInv, GapFree;
    var d := w.deliveries[o];
    var a := d.alias;
    var t := Renew(w.store, a, o, now, d.lease);
    RenewKeepsInv(w.store, a, o, now, d.lease);
    if t.reply == Ok(true) {
      var h := w.histories[a];
      RenewedOk(a, w.store.runs[a], h, w.deliveries, now, d.lease);
      DeliverySurvives(w.store, t.store, d);
      assert w.deliveries[o := d] == w.deliveries;
      Global(w, o, d, t.store, h.(grants := h.grants + [Grant(o, now, now + d.lease)]));
    }
  }

  lemma RenewedOk(a: Alias, run: Run, h: History, ds: map<Owner, Delivery>, now: Time, lease: int)
    requires RunOk(a, run, h, ds) && run.meta.state == RunState.Running
    ensures forall gs :: RunOk(a, run.With(AfterRenewal(run.meta, now, lease)), h.(grants := gs), ds)
  {
    hide PersistedOrdinals, SoundHistory, Cut, HeldBack, ValidCopy, CanFollow, ValidSnapshot;
    var next := run.With(AfterRenewal(run.meta, now, lease));
    RenewedRunInv(a, run, now, lease);
    SameRecords(a, run, next);
  }

  lemma LoadForFailureKeeps(w: World, o: Owner)
    requires WorldInv(w) && o in w.deliveries && w.deliveries[o].phase.Recovering?
    ensures WorldInv(Act(w, o, LoadForFailure(o)))
  {
    hide StoreInv, RunInv, RunOk, Load, GapFree;
    LocalAnywhere(w, o, Done);
    var d := w.deliveries[o];
    if d.alias in w.store.runs {
      InvOf(w.store, d.alias);
      if Load(w.store.runs[d.alias]).Ok? {
        var x := FailedSnapshot(Load(w.store.runs[d.alias]).value);
        FailedBelongs(w.store, d.alias);
        LocalAnywhere(w, o, Executing(x, x, false));
      }
    }
  }

  lemma FailedBelongs(s: Store, a: Alias)
    requires a in s.runs && RunInv(a, s.runs[a]) && Load(s.runs[a]).Ok?
    ensures Belongs(s, a, FailedSnapshot(Load(s.runs[a]).value))
  {
    hide SoundHistory, PersistedOrdinals, EventsOf, ConversationsOf, DataPointsOf;
  }

  /** A phase whose holder clause is void can be entered from anywhere. */
  lemma LocalAnywhere(w: World, o: Owner, p: Phase)
    requires WorldInv(w) && o in w.deliveries
    requires DeliveryInv(w.store, w.deliveries[o].(phase := p))
    requires p.Done? || (p.Executing? && !p.growing) || (p.Checking? && !p.growing)
    ensures WorldInv(w.At(o, p))
  {
    hide StoreInv, RunInv, RunOk, DeliveryInv, GapFree, HeldCut;
    var a := w.deliveries[o].alias;
    if a in w.store.runs {
      InvOf(w.store, a);
    }
    Local(w, o, p);
  }

  /** The holder clause of the claim holder's own phase. */
  lemma HolderKnows(w: World, o: Owner)
    requires WorldInv(w) && o in w.deliveries
    ensures var a := w.deliveries[o].alias;
            a in w.store.runs ==>
              && RunInv(a, w.store.runs[a])
              && GapFree(w.store.runs[a].timeline, w.store.runs[a].meta.timelineCount)
              && (w.store.runs[a].meta.claimOwner == Some(o) ==> HolderInv(a, w.store.runs[a], w.deliveries[o].phase))
  {
    hide StoreInv, RunInv, RunOk, DeliveryInv, GapFree, HolderInv;
    var a := w.deliveries[o].alias;
    if a in w.store.runs {
      InvOf(w.store, a);
      HolderIsBound(a, w.store.runs[a], w.histories[a], w.deliveries);
    }
  }

  lemma BeginPublishKeeps(w: World, o: Owner, c: Snapshot)
    requires WorldInv(w) && o in w.deliveries && w.deliveries[o].phase.Executing?
    ensures WorldInv(Act(w, o, BeginPublish(o, c)))
  {
    hide StoreInv, RunInv, RunOk, GapFree, HeldCut, CanFollow, ValidCopy, Ready, BindingOf, PreparedInv;
    HolderKnows(w, o);
    var d := w.deliveries[o];
    if d.alias in w.store.runs && d.role == Some(Original) {
      var m, p := w.store.runs[d.alias].meta, d.phase;
      if ValidCopy(c) && CanFollow(p.last, c) {
        FollowerBelongs(w.store, d.alias, p.last, c);
        Local(w, o, Checking(p.last, p.tried, p.growing, c, Observe, m));
      }
    }
  }

  lemma FollowerBelongs(s: Store, a: Alias, last: Snapshot, c: Snapshot)
    requires Belongs(s, a, last) && ValidCopy(c) && CanFollow(last, c)
    ensures Belongs(s, a, c)
  {
    hide ValidCopy;
  }

  lemma BeginBindKeeps(w: World, o: Owner, goal: Goal)
    requires WorldInv(w) && o in w.deliveries && w.deliveries[o].phase.Executing?
    ensures WorldInv(Act(w, o, BeginBind(o, goal)))
  {
    hide StoreInv, RunInv, RunOk, GapFree, HeldCut, CanFollow, ValidCopy, Ready, BindingOf, PreparedInv;
    LocalAnywhere(w, o, Done);
    HolderKnows(w, o);
    var d := w.deliveries[o];
    var p := d.phase;
    if d.alias in w.store.runs && Ready(p.last, goal) && (d.role == Some(Recoverer) ==> goal == BindFailure) {
      var m := w.store.runs[d.alias].meta;
      Local(w, o, Checking(p.last, p.tried, p.growing, p.last, goal, m));
    }
  }

  /** A publication attempt that leads nowhere leaves the stored timeline what it was. */
  lemma GiveUpKeeps(w: World, o: Owner)
    requires WorldInv(w) && o in w.deliveries && (w.deliveries[o].phase.Checking? || w.deliveries[o].phase.Appending?)
    ensures WorldInv(w.At(o, GiveUp(w.deliveries[o].phase)))
  {
    hide StoreInv, RunInv, RunOk, GapFree, CanFollow, Ready, BindingOf, PreparedInv, Cut, Records;
    HolderKnows(w, o);
    Local(w, o, GiveUp(w.deliveries[o].phase));
  }

  /** The decision of a publication, for a delivery that holds the claim. */
  lemma CheckedHolder(a: Alias, run: Run, h: History, ds: map<Owner, Delivery>, p: Phase)
    requires RunOk(a, run, h, ds) && GapFree(run.timeline, run.meta.timelineCount)
    requires run.meta.state == RunState.Running && p.Checking? && HolderInv(a, run, p)
    requires p.goal != Observe ==> Ready(p.candidate, p.goal)
    ensures var growing := p.growing && CanFollow(p.tried, p.candidate);
            match PlanPublish(a, p.read, Load(run), p.candidate)
            case Refused(e) => growing ==> e != PublishedRecordIsImmutable && e != WatermarkRegressed
            case AlreadyBound => HolderInv(a, run, Succeed(growing, p.candidate, p.goal))
            case AppendRange(first, upTo) =>
              HolderInv(a, run, Appending(p.last, growing, p.candidate, p.goal, first, upTo))
  {
    hide RunInv, SoundHistory, ConsecutiveRecords, Cut, HeldBack, Durable, EventsOf, ConversationsOf, DataPointsOf,
         StageOf;
    var c, k, records := p.candidate, run.meta.timelineCount, Records(run);
    SameRecords(a, run, run);
    var plan := PlanPublish(a, p.read, Load(run), c);
    var growing := p.growing && CanFollow(p.tried, c);
    if growing {
      GrowingIsNeverRefusedAsImmutable(a, run.meta, p.read, p.tried, c, k);
      if ValidSnapshot(c) {
        HeldBackCutIsShared(p.tried, c, k);
        HeldBackGrows(p.tried, c, k);
      }
    }
    if plan.AppendRange? {
      AcceptedPlanIsCut(a, run.meta, records, p.read, c);
      if growing {
        HeldBackWhilePublishing(c, k, plan.last);
      }
      FinalIsDurable(c, k);
    }
  }

  lemma FinalIsDurable(c: Snapshot, k: nat)
    ensures c.Terminal() ==> Durable(c, k) == |c.events|
    ensures CompletionBinding(c).Some? || FailureReady(c) ==> c.Terminal()
  {
  }

  lemma CheckKeeps(w: World, o: Owner)
    requires WorldInv(w) && o in w.deliveries && w.deliveries[o].phase.Checking?
    ensures WorldInv(Act(w, o, Check(o)))
  {
    hide StoreInv, RunInv, RunOk, GapFree, HolderInv, CanFollow, Ready, BindingOf, PreparedInv, PlanPublish, Load;
    GiveUpKeeps(w, o);
    HolderKnows(w, o);
    var d := w.deliveries[o];
    var a, p := d.alias, d.phase;
    if a in w.store.runs {
      var run := w.store.runs[a];
      var plan := PlanPublish(a, p.read, Load(run), p.candidate);
      var growing := p.growing && CanFollow(p.tried, p.candidate);
      if run.meta.claimOwner == Some(o) {
        HolderIsBound(a, run, w.histories[a], w.deliveries);
        CheckedHolder(a, run, w.histories[a], w.deliveries, p);
      }
      if plan.AlreadyBound? {
        Local(w, o, Succeed(growing, p.candidate, p.goal));
      } else if plan.AppendRange? {
        Local(w, o, Appending(p.last, growing, p.candidate, p.goal, plan.first, plan.last));
      }
    }
  }

  lemma AppendedOk(s: Store, a: Alias, h: History, ds: map<Owner, Delivery>, o: Owner, now: Time)
    requires StoreInv(s) && a in s.runs && o in ds && RunOk(a, s.runs[a], h, ds)
    requires s.runs[a].meta.claimOwner == Some(o)
    requires var p := ds[o].phase;
             p.Appending? && ValidSnapshot(p.candidate) && 1 <= p.next <= p.upTo <= |p.candidate.events|
    requires var p := ds[o].phase; Append(s, a, o, CutRecord(p.candidate, p.next), now).reply.Ok?
    ensures var p := ds[o].phase;
            var t := Append(s, a, o, CutRecord(p.candidate, p.next), now);
            && a in t.store.runs && t.store.runs == s.runs[a := t.store.runs[a]]
            && RunOk(a, t.store.runs[a], h, ds[o := ds[o].(phase := p.(next := p.next + 1))])
  {
    hide SlotInv, RunsInv, RunInv, Cut, CutRecord, Evolves, SoundHistory, HeldBack, Append, GapFree;
    var p := ds[o].phase;
    HolderIsBound(a, s.runs[a], h, ds);
    InvOf(s, a);
    AppendNextOfCut(s, a, o, p.candidate, p.next - 1, now);
    var t := Append(s, a, o, CutRecord(p.candidate, p.next), now);
    InvOf(t.store, a);
    CutIsSound(p.candidate, p.next);
  }

  lemma AppendNextKeeps(w: World, o: Owner, now: Time)
    requires WorldInv(w) && o in w.deliveries && w.deliveries[o].phase.Appending?
    ensures WorldInv(Act(w, o, AppendNext(o, now)))
  {
    hide StoreInv, RunInv, RunOk, GapFree, HolderInv, Ready, BindingOf, PreparedInv, Append, CutRecord, Evolves,
         ValidSnapshot;
    GiveUpKeeps(w, o);
    HolderKnows(w, o);
    var d := w.deliveries[o];
    var a, p := d.alias, d.phase;
    if ValidSnapshot(p.candidate) && 1 <= p.next <= p.upTo <= |p.candidate.events| {
      var t := Append(w.store, a, o, CutRecord(p.candidate, p.next), now);
      var moved := d.(phase := p.(next := p.next + 1));
      if t.reply.Ok? {
        AppendEffect(w.store, a, o, CutRecord(p.candidate, p.next), now);
        if w.store.runs[a].meta.claimOwner != Some(o) {
          Local(w, o, moved.phase);
        } else {
          HolderIsBound(a, w.store.runs[a], w.histories[a], w.deliveries);
          AppendKeepsInv(w.store, a, o, CutRecord(p.candidate, p.next), now);
          AppendedOk(w.store, a, w.histories[a], w.deliveries, o, now);
          DeliverySurvives(w.store, t.store, moved);
          Global(w, o, moved, t.store, w.histories[a]);
          assert w.histories[a := w.histories[a]] == w.histories;
        }
      }
    }
  }

  /** An append that is accepted either holds the claim or repeats a stored record. */
  lemma AppendEffect(s: Store, a: Alias, o: Owner, r: TimelineRecord, now: Time)
    requires Append(s, a, o, r, now).reply.Ok?
    ensures a in s.runs
    ensures Append(s, a, o, r, now).store != s ==> s.runs[a].meta.claimOwner == Some(o)
  {
  }

  lemma PublishedKeeps(w: World, o: Owner)
    requires WorldInv(w) && o in w.deliveries && w.deliveries[o].phase.Appending?
    ensures WorldInv(Act(w, o, Published(o)))
  {
    hide StoreInv, RunInv, RunOk, GapFree, Ready, BindingOf, PreparedInv, Cut, Records, ValidCopy;
    HolderKnows(w, o);
    var d := w.deliveries[o];
    var p := d.phase;
    if p.next == p.upTo + 1 {
      if d.alias in w.store.runs && w.store.runs[d.alias].meta.claimOwner == Some(o) {
        ValidOfCopy(p.candidate);
      }
      Local(w, o, Succeed(p.growing, p.candidate, p.goal));
    }
  }

  lemma ValidOfCopy(c: Snapshot)
    requires ValidCopy(c)
    ensures ValidSnapshot(c)
  {
  }

  lemma FinishedOk(s: Store, a: Alias, h: History, ds: map<Owner, Delivery>, o: Owner, now: Time, b: TerminalBinding)
    requires StoreInv(s) && a in s.runs && o in ds && ds[o].alias == a && DeliveryInv(s, ds[o])
    requires RunOk(a, s.runs[a], h, ds)
    requires ds[o].phase.Finishing? && BindingOf(ds[o].phase.candidate, ds[o].phase.goal) == Some(b)
    requires Finish(s, a, o, b, now).reply == Ok(true)
    ensures var t, c := Finish(s, a, o, b, now).store, ds[o].phase.candidate;
            && a in t.runs && t.runs == s.runs[a := t.runs[a]]
            && RunOk(a, t.runs[a], h.(finishedBy := Some(o), bound := Some(c)), ds[o := ds[o].(phase := Done)])
  {
    hide SlotInv, RunsInv, RunInv, Cut, Evolves, SoundHistory, GapFree, ValidCopy, PreparedInv, Load, AfterFinish;
    var c := ds[o].phase.candidate;
    HolderIsBound(a, s.runs[a], h, ds);
    FinishKeepsInv(s, a, o, b, now);
    FinishOfFullCut(s, a, o, c, b, now);
    var t := Finish(s, a, o, b, now).store;
    InvOf(t, a);
    FinishedState(s, a, o, b, now);
    SameRecords(a, s.runs[a], t.runs[a]);
  }

  lemma FinishedState(s: Store, a: Alias, o: Owner, b: TerminalBinding, now: Time)
    requires a in s.runs && Finish(s, a, o, b, now).reply == Ok(true)
    ensures var t := Finish(s, a, o, b, now).store;
            && s.runs[a].meta.claimOwner == Some(o) && a in t.runs && t.runs == s.runs[a := t.runs[a]]
            && t.runs[a].meta.state == b.state && t.runs[a].timeline == s.runs[a].timeline
            && t.runs[a].meta.timelineCount == s.runs[a].meta.timelineCount
            && BindingFromMetadata(t.runs[a].meta) == b
  {
  }

  lemma FinishKeeps(w: World, o: Owner, now: Time)
    requires WorldInv(w) && o in w.deliveries && w.deliveries[o].phase.Finishing?
    ensures WorldInv(Act(w, o, FinishRun(o, now)))
  {
    hide StoreInv, RunInv, RunOk, GapFree, HolderInv, Finish, Evolves, PreparedInv, Ready, BindingOf;
    LocalAnywhere(w, o, Done);
    var d := w.deliveries[o];
    var a := d.alias;
    var b := BindingOf(d.phase.candidate, d.phase.goal);
    if b.Some? && Finish(w.store, a, o, b.value, now).reply == Ok(true) {
      FinishKnown(w.store, a, o, b.value, now);
      FinishKeepsInv(w.store, a, o, b.value, now);
      FinishedOk(w.store, a, w.histories[a], w.deliveries, o, now, b.value);
      Global(w, o, d.(phase := Done), Finish(w.store, a, o, b.value, now).store,
             w.histories[a].(finishedBy := Some(o), bound := Some(d.phase.candidate)));
    }
  }

  lemma FinishKnown(s: Store, a: Alias, o: Owner, b: TerminalBinding, now: Time)
    requires Finish(s, a, o, b, now).reply.Ok?
    ensures a in s.runs
  {
  }

  /** Every action of every delivery, creation and dispatch failure keep the invariant. */
  lemma StepKeeps(w: World, act: Action)
    requires WorldInv(w)
    ensures WorldInv(Apply(w, act))
  {
    hide WorldInv, AfterClaimReply, Claim;
    match act
    case CreateRun(request, a, key, now) => CreateKeeps(w, request, a, key, now);
    case FailDispatch(a, key, now) => FailDispatchKeeps(w, a, key, now);
    case Deliver(o, a, key, lease) => DeliverKeeps(w, o, a, key, lease);
    case _ =>
      if act.owner in w.deliveries {
        ActKeeps(w, act.owner, act);
      }
  }

  lemma PrepareKeeps(w: World, o: Owner, now: Time)
    requires WorldInv(w) && o in w.deliveries && w.deliveries[o].phase.LeaseExpired?
    ensures WorldInv(Act(w, o, PrepareRecovery(o, now)))
  {
    hide StoreInv, RunsOk, PreparedInv, RecoveryRecord;
    var d := w.deliveries[o];
    assert DeliveryInv(w.store, d);
    if d.alias in w.store.runs {
      PreparedNow(w.store, d.alias, now);
      LocalBeforeClaim(w, o, Prepared(RecoveryRecord(w.store.runs[d.alias].meta, now)));
    } else {
      LocalBeforeClaim(w, o, Done);
    }
  }

  lemma AbandonKeeps(w: World, o: Owner)
    requires WorldInv(w) && o in w.deliveries
    ensures WorldInv(w.At(o, Done))
  {
    hide StoreInv, RunsOk, PreparedInv;
    assert DeliveryInv(w.store, w.deliveries[o]);
    LocalAnywhere(w, o, Done);
  }

  /** A delivery in front of its claim holds none. */
  lemma BeforeClaim(w: World, o: Owner)
    requires WorldInv(w) && o in w.deliveries
    ensures w.deliveries[o].phase.Fresh? || w.deliveries[o].phase.Prepared? ==> w.deliveries[o].role.None?
  {
    hide StoreInv, RunsOk, PreparedInv;
    assert DeliveryInv(w.store, w.deliveries[o]);
  }

  lemma ActKeeps(w: World, o: Owner, act: Action)
    requires WorldInv(w) && o in w.deliveries
    ensures WorldInv(Act(w, o, act))
  {
    hide StoreInv, RunsOk, RunInv, RunOk, AfterClaimReply, Claim, PreparedInv, Ready, BindingOf, Load, GapFree, Append,
         Finish, Renew, PlanPublish, CutRecord, ValidSnapshot, ValidCopy, CanFollow, RecoveryRecord, HolderInv, GiveUp,
         Succeed, DeliveryInv, DeliveriesOk, WorldInv;
    var d := w.deliveries[o];
    BeforeClaim(w, o);
    match (act, d.phase)
    case (FirstClaim(_, now), Fresh) => ClaimKeeps(w, o, now, None);
    case (PrepareRecovery(_, now), LeaseExpired) => PrepareKeeps(w, o, now);
    case (RecoveryClaim(_, now), Prepared(r)) => ClaimKeeps(w, o, now, Some(r));
    case (Heartbeat(_, now), _) => HeartbeatKeeps(w, o, now);
    case (LoadForFailure(_), Recovering) => LoadForFailureKeeps(w, o);
    case (BeginPublish(_, c), Executing(_, _, _)) => BeginPublishKeeps(w, o, c);
    case (BeginBind(_, goal), Executing(_, _, _)) => BeginBindKeeps(w, o, goal);
    case (Check(_), Checking(_, _, _, _, _, _)) => CheckKeeps(w, o);
    case (AppendNext(_, now), Appending(_, _, _, _, _, _)) => AppendNextKeeps(w, o, now);
    case (Published(_), Appending(_, _, _, _, _, _)) => PublishedKeeps(w, o);
    case (FinishRun(_, now), Finishing(_, _)) => FinishKeeps(w, o, now);
    case (Abort(_), _) =>
      if d.phase.Checking? || d.phase.Appending? {
        GiveUpKeeps(w, o);
      }
    case (Abandon(_), _) => AbandonKeeps(w, o);
    case _ =>
  }

  lemma PreparedNow(s: Store, a: Alias, now: Time)
    requires a in s.runs
    ensures PreparedInv(s, a, RecoveryRecord(s.runs[a].meta, now))
  {
  }
}
