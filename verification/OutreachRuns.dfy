/** Every interleaving of outreach steps: reads, races, replies, delivery reports and stale transactions. */
module OutreachRuns {
  import opened Basics
  import opened Domain
  import opened OutreachModel

  // ---- What every stored assignment satisfies ----

  predicate Unstarted(a: Contact) {
    (a.state == NotContacted || a.state == ContactQueued) && a.attempts == 0 && a.routeIndex == 0
  }

  /** Attempt 1 or 2 on the first route, then one attempt per later route, numbered two above its position. */
  predicate Live(a: Contact) {
    && a.routeIndex < |a.routes|
    && if a.engagement == Inform then
         || (a.state == StakeholderState.Delivered && a.routeIndex == 0 && a.attempts == 1)
         || (a.state == AlternateChannel && a.routeIndex >= 1 && a.attempts == a.routeIndex + 2)
       else
         || (a.state == AwaitingAcknowledgement && a.routeIndex == 0 && a.attempts == 1)
         || (a.state == FollowUpDue && a.routeIndex == 0 && a.attempts == 2)
         || (a.state == AlternateChannel && a.routeIndex >= 1 && a.attempts == a.routeIndex + 2)
  }

  predicate ContactOk(a: Contact) {
    && a.responseRequired == (a.engagement != Inform) && !IsInterview(a.engagement)
    && (Unstarted(a) || IsTerminal(a.state) || Live(a))
  }

  function Sends(log: seq<Event>): nat {
    if log == [] then 0 else Sends(log[..|log| - 1]) + (if log[|log| - 1].IsSend() then 1 else 0)
  }

  /** How many sends an assignment at this point can have behind it. */
  function SendBudget(a: Contact): nat {
    if a.attempts == 0 then 0
    else if a.engagement == Inform then a.routeIndex + 1
    else if a.routeIndex == 0 then (if a.attempts == 1 then 1 else 2)
    else a.routeIndex + 2
  }

  predicate UniqueKeys(log: seq<Event>) { forall i, j :: 0 <= i < j < |log| ==> KeyOf(log[i]) != KeyOf(log[j]) }

  /** Sends carry their own delivery identifier and strictly increasing attempts, none above the current one. */
  predicate SendsOk(log: seq<Event>, attempts: nat) {
    && (forall i :: 0 <= i < |log| && log[i].IsSend() ==>
          log[i].delivery == DigestOf((log[i].attempt, log[i].index, log[i].route)) && 1 <= log[i].attempt <= attempts)
    && (forall i, j :: 0 <= i < j < |log| && log[i].IsSend() && log[j].IsSend() ==> log[i].attempt < log[j].attempt)
  }

  /** What an event says about the assignment that logged it: a reminder was attempt 2, a due alternate attempt 3, and
      whoever gave up has ended. */
  predicate Told(e: Event, ended: bool) {
    match e
    case ReminderSent(_, attempt, _, _) => attempt == 2
    case AlternateSent(_, attempt, _, _, None) => attempt == 3
    case GaveUp(_, _) => ended
    case _ => true
  }

  predicate AllTold(log: seq<Event>, ended: bool) { forall i :: 0 <= i < |log| ==> Told(log[i], ended) }

  predicate StoredOk(s: Stored) {
    && ContactOk(s.contact) && UniqueKeys(s.log) && SendsOk(s.log, s.contact.attempts)
    && Sends(s.log) <= SendBudget(s.contact) && AllTold(s.log, IsTerminal(s.contact.state))
    && (s.contact.attempts > 0 ==> s.contact.routeIndex < |s.contact.routes|)
    && (Unstarted(s.contact) ==> s.log == [])
    && (IsTerminal(s.contact.state) && s.contact.attempts == 0 ==> s.contact.routes == [])
    && (s.contact.attempts > 0 ==> HasKey(s.log, PrimaryKey))
  }

  // ---- What every prepared draft satisfies ----

  /** Routes left and reminder left; nothing once the assignment has ended. */
  function Measure(a: Contact): nat {
    if IsTerminal(a.state) || a.routeIndex >= |a.routes| then 0
    else |a.routes| - a.routeIndex + (if a.attempts == 1 && a.engagement != Inform then 1 else 0)
  }

  /** The draft of a started assignment: it keeps the shape, at most one send, numbered by its attempt, and an
      escalation has less left to do. */
  predicate StartedDraft(d: Draft) {
    var a, b := d.expected, d.updated;
    && ContactOk(a) && !Unstarted(a) && !IsTerminal(a.state) && ContactOk(b) && !Unstarted(b)
    && b.engagement == a.engagement && b.routes == a.routes
    && (d.escalates ==> Measure(b) < Measure(a)) && (!d.escalates ==> Measure(b) <= Measure(a))
    && |d.events| <= 2 && AllTold(d.events, IsTerminal(b.state))
    && (forall i :: 0 <= i < |d.events| ==> KeyOf(d.events[i]) != PrimaryKey)
    && (if |d.events| > 0 && d.events[|d.events| - 1].IsSend() then
          var e := d.events[|d.events| - 1];
          && b.attempts > a.attempts && e.attempt == b.attempts && e.delivery == DigestOf((e.attempt, e.index, e.route))
          && SendBudget(b) >= SendBudget(a) + 1 && b.routeIndex < |b.routes|
        else b.attempts == a.attempts && b.routeIndex == a.routeIndex)
    && (|d.events| == 2 ==> !d.events[0].IsSend())
  }

  /** Giving up on an assignment that never had a route. */
  predicate RoutelessDraft(d: Draft) {
    && ContactOk(d.expected) && Unstarted(d.expected) && d.expected.routes == []
    && d.updated
      == d.expected.(state := StakeholderState.DeliveryFailed, nextActionAt := None,
                     completedAt := d.updated.completedAt)
    && d.events == [GaveUp(true, 0)] && d.escalates
  }

  predicate DraftOk(d: Draft) { StartedDraft(d) || RoutelessDraft(d) }

  /** Nothing but a draft: no transition of the state machine is refused. */
  predicate Sound(p: Prepared, a: Contact) {
    p.Ok? && (p.value.Some? ==> p.value.value.expected == a && StartedDraft(p.value.value))
  }

  lemma GiveUpIsSound(a: Contact, undeliverable: bool, now: Time)
    requires ContactOk(a) && Live(a) && (!undeliverable ==> a.state == FollowUpDue || a.state == AlternateChannel)
    ensures Sound(GiveUpDraft(a, undeliverable, now), a)
    ensures var p := GiveUpDraft(a, undeliverable, now).value;
            p.Some? && p.value.escalates
            && p.value.updated.state == if undeliverable then StakeholderState.DeliveryFailed else Unreachable
  {
  }

  /** The assignment waits for an answer that is overdue. */
  predicate Overdue(a: Contact, now: Time) {
    !IsTerminal(a.state) && a.engagement != Inform && (a.nextActionAt.None? || a.nextActionAt.value <= now)
  }

  /** The next send of the time-driven step has no registered route now. */
  predicate Stalled(a: Contact, resolves: Resolver) {
    || (a.attempts == 1 && !resolves(0))
    || (a.attempts == 2 && |a.routes| > 1 && !resolves(1))
  }

  /** The time-driven step of a started or finished assignment never raises, and acts exactly on an overdue assignment
      that is not stalled: a reminder, then one alternate route if there is one, then the end. */
  lemma DueIsSound(a: Contact, resolves: Resolver, w: Windows, now: Time)
    requires ContactOk(a) && !Unstarted(a)
    ensures Sound(DueDraft(a, resolves, w, now), a)
    ensures var p := DueDraft(a, resolves, w, now).value;
            && (p.Some? <==> Overdue(a, now) && !Stalled(a, resolves))
            && (p.Some? ==>
                  var b := p.value.updated;
                  && p.value.escalates
                  && if a.attempts == 1 then b.state == FollowUpDue && b.attempts == 2 && b.routeIndex == 0
                     else if a.attempts == 2 && |a.routes| > 1 then
                       b.state == AlternateChannel && b.attempts == 3 && b.routeIndex == 1
                     else b.state == Unreachable)
  {
    hide GiveUpDraft;
    if !IsTerminal(a.state) && a.engagement != Inform {
      if a.attempts >= 2 {
        GiveUpIsSound(a, false, now);
      }
    }
  }

  lemma SuccessIsSound(a: Contact, log: seq<Event>, d: DeliveryId, resolves: Resolver, now: Time)
    requires ContactOk(a)
    ensures Sound(SuccessDraft(a, log, d, resolves, now), a)
    ensures var p := SuccessDraft(a, log, d, resolves, now).value;
            && (p.Some? <==> Reportable(a, log, d, resolves))
            && (p.Some? ==>
                  && p.value.events == [DeliveryConfirmed(d)]
                  && (if a.engagement == Inform then p.value.updated.state
                      == StakeholderState.Complete else p.value.updated == a))
  {
    hide MatchesCurrentAttempt;
  }

  function Advanced(a: Contact, w: Windows, now: Time): Contact {
    a.(state := AlternateChannel, routeIndex := a.routeIndex + 1,
       attempts := if a.attempts + 1 >= 3 then a.attempts + 1 else 3,
       lastDeliveryAt := Some(now), completedAt := None,
       nextActionAt := if a.engagement == Inform then None else Some(now + w.acknowledgement))
  }

  lemma AdvanceShape(a: Contact, d: DeliveryId, w: Windows, now: Time)
    requires ContactOk(a) && Live(a) && a.routeIndex + 1 < |a.routes|
    ensures var b := Advanced(a, w, now);
            AdvanceDraft(a, d, w, now)
            == Ok(Some(Draft(a, b, [DeliveryRefused(d),
                                    AlternateSent(DeliveryOf(b), b.attempts, b.routeIndex, a.routes[b.routeIndex],
                                                  Some(d))], true)))
  {
  }

  lemma AdvancedIsOk(a: Contact, w: Windows, now: Time)
    requires ContactOk(a) && Live(a) && a.routeIndex + 1 < |a.routes|
    ensures var b := Advanced(a, w, now);
            && ContactOk(b) && Live(b) && !Unstarted(b) && Measure(b) < Measure(a)
            && b.attempts > a.attempts && SendBudget(b) >= SendBudget(a) + 1
  {
  }

  lemma AdvanceIsSound(a: Contact, d: DeliveryId, w: Windows, now: Time)
    requires ContactOk(a) && Live(a) && a.routeIndex + 1 < |a.routes|
    ensures Sound(AdvanceDraft(a, d, w, now), a)
    ensures var p := AdvanceDraft(a, d, w, now).value;
            p.Some? && |p.value.events| == 2 && p.value.events[0] == DeliveryRefused(d)
            && p.value.updated.state == AlternateChannel && p.value.updated.routeIndex == a.routeIndex + 1
  {
    hide AdvanceDraft, Live, ContactOk, Measure, SendBudget;
    AdvanceShape(a, d, w, now);
    AdvancedIsOk(a, w, now);
    LiveIsStarted(a);
  }

  lemma LiveIsStarted(a: Contact)
    requires Live(a)
    ensures !Unstarted(a) && !IsTerminal(a.state)
  {
  }

  lemma ExhaustIsSound(a: Contact, d: DeliveryId, now: Time)
    requires ContactOk(a) && Live(a)
    ensures Sound(ExhaustDraft(a, d, now), a)
    ensures var p := ExhaustDraft(a, d, now).value;
            p.Some? && p.value.events == [DeliveryRefused(d), RoutesExhausted(d)]
            && p.value.updated.state == StakeholderState.DeliveryFailed
  {
  }

  lemma FailureIsSound(a: Contact, log: seq<Event>, d: DeliveryId, resolves: Resolver, w: Windows, now: Time)
    requires ContactOk(a)
    ensures Sound(FailureDraft(a, log, d, resolves, w, now), a)
    ensures var p := FailureDraft(a, log, d, resolves, w, now).value;
            && (p.Some? <==>
                Reportable(a, log, d, resolves) && (a.routeIndex + 1 < |a.routes| ==> resolves(a.routeIndex + 1)))
            && (p.Some? ==>
                  && |p.value.events| == 2 && p.value.events[0] == DeliveryRefused(d)
                  && if a.routeIndex + 1 < |a.routes|
                     then p.value.updated.state == AlternateChannel && p.value.updated.routeIndex == a.routeIndex + 1
                     else p.value.updated.state == StakeholderState.DeliveryFailed)
  {
    hide MatchesCurrentAttempt, AdvanceDraft, ExhaustDraft, Sound, Live, ContactOk;
    if Reportable(a, log, d, resolves) {
      ReportableIsLive(a, log, d, resolves);
      ExhaustIsSound(a, d, now);
      if a.routeIndex + 1 < |a.routes| {
        AdvanceIsSound(a, d, w, now);
      }
    }
    NothingIsSound(a);
  }

  lemma ReportableIsLive(a: Contact, log: seq<Event>, d: DeliveryId, resolves: Resolver)
    requires ContactOk(a) && Reportable(a, log, d, resolves)
    ensures Live(a)
  {
    hide MatchesCurrentAttempt;
  }

  lemma NothingIsSound(a: Contact)
    ensures Sound(Ok(None), a)
  {
  }

  lemma AnswerIsSound(a: Contact, log: seq<Event>, message: MessageId, authentic: bool, now: Time)
    requires ContactOk(a)
    ensures Sound(AnswerDraft(a, log, message, authentic, now), a)
    ensures var p := AnswerDraft(a, log, message, authentic, now).value;
            && (p.Some? <==> authentic && a.engagement != Inform && Live(a) && !HasKey(log, AnswerKey(message)))
            && (p.Some? ==> p.value.updated.state == StakeholderState.Complete && p.value.events == [Answered(message)])
  {
    hide HasKey;
  }

  /** Before the first contact the time-driven step raises, exactly when it is due and has a route to try. */
  lemma DueRaisesExactly(a: Contact, resolves: Resolver, w: Windows, now: Time)
    requires ContactOk(a)
    ensures DueDraft(a, resolves, w, now).Err? <==>
              Unstarted(a) && a.engagement != Inform && a.routes != []
                && (a.nextActionAt.None? || a.nextActionAt.value <= now)
  {
    if !Unstarted(a) {
      DueIsSound(a, resolves, w, now);
    }
  }

  // ---- Transactions ----

  lemma {:induction false} SendsJoin(log: seq<Event>, events: seq<Event>)
    ensures Sends(log + events) == Sends(log) + Sends(events)
  {
    if events == [] {
      assert log + events == log;
    } else {
      assert (log + events)[..|log + events| - 1] == log + events[..|events| - 1];
      SendsJoin(log, events[..|events| - 1]);
    }
  }

  lemma KeysJoin(log: seq<Event>, events: seq<Event>)
    requires UniqueKeys(log) && FreshKeys(log, events)
    ensures UniqueKeys(log + events)
  {
    var all := log + events;
    forall i, j | 0 <= i < j < |all| ensures KeyOf(all[i]) != KeyOf(all[j]) {
      if j >= |log| {
        var k := j - |log|;
        assert all[j] == events[k] && !HasKey(log, KeyOf(events[k])) && !HasKey(events[..k], KeyOf(events[k]));
        if i >= |log| {
          assert events[..k][i - |log|] == all[i];
        } else {
          assert log[i] == all[i];
        }
      }
    }
  }

  lemma SendsOfDraft(d: Draft)
    requires StartedDraft(d)
    ensures Sends(d.events) == if |d.events| > 0 && d.events[|d.events| - 1].IsSend() then 1 else 0
    ensures Sends(d.events) + SendBudget(d.expected) <= SendBudget(d.updated)
    ensures forall i :: 0 <= i < |d.events| && d.events[i].IsSend() ==> i == |d.events| - 1
  {
    hide Measure, Live;
    var n := |d.events|;
    assert Sends([]) == 0;
    if n == 1 {
      assert d.events[..0] == [];
    } else if n == 2 {
      assert d.events[..1][..0] == [];
      assert Sends(d.events[..1]) == 0;
    }
  }

  lemma SendsOkJoin(log: seq<Event>, d: Draft)
    requires StartedDraft(d) && SendsOk(log, d.expected.attempts)
    ensures SendsOk(log + d.events, d.updated.attempts)
  {
    hide Measure, Live, ContactOk;
    SendsOfDraft(d);
    var all, n := log + d.events, |log| + |d.events| - 1;
    forall i | 0 <= i < |all| && all[i].IsSend()
      ensures all[i].delivery == DigestOf((all[i].attempt, all[i].index, all[i].route))
              && 1 <= all[i].attempt <= d.updated.attempts
      ensures i >= |log| ==> i == n && all[i].attempt == d.updated.attempts > d.expected.attempts
    {
      if i >= |log| {
        assert all[i] == d.events[i - |log|];
      }
    }
  }

  lemma KeyStays(log: seq<Event>, events: seq<Event>, key: EventKey)
    requires HasKey(log, key)
    ensures HasKey(log + events, key)
  {
    var i :| 0 <= i < |log| && KeyOf(log[i]) == key;
    assert (log + events)[i] == log[i];
  }

  /** What is left to do, counting a start that has not happened yet. */
  function Potential(a: Contact): nat { if Unstarted(a) then |a.routes| + 1 else Measure(a) }

  lemma StartedCommitKeeps(s: Stored, d: Draft)
    requires StoredOk(s) && StartedDraft(d) && s.contact == d.expected && FreshKeys(s.log, d.events)
    ensures StoredOk(Stored(d.updated, s.log + d.events))
  {
    hide Measure, Live, FreshKeys, KeyOf, UniqueKeys, SendsOk, Sends, HasKey;
    KeysJoin(s.log, d.events);
    SendsOfDraft(d);
    SendsJoin(s.log, d.events);
    SendsOkJoin(s.log, d);
    StartedOrDone(d);
    KeyStays(s.log, d.events, PrimaryKey);
  }

  lemma OneEnding(e: Event)
    requires e.GaveUp?
    ensures UniqueKeys([e]) && SendsOk([e], 0) && Sends([e]) == 0 && AllTold([e], true)
  {
    assert [e][..0] == [] && Sends([]) == 0;
  }

  lemma RoutelessCommitKeeps(s: Stored, d: Draft)
    requires StoredOk(s) && RoutelessDraft(d) && s.contact == d.expected
    ensures StoredOk(Stored(d.updated, s.log + d.events))
  {
    hide Measure, HasKey, UniqueKeys, SendsOk, Sends, AllTold;
    assert s.log + d.events == d.events;
    OneEnding(d.events[0]);
  }

  /** A transaction that takes effect found exactly the snapshot its draft was made from, so the store stays what it is,
      and an escalation leaves less to do. */
  lemma CommitKeeps(s: Stored, d: Draft, goes: bool)
    requires StoredOk(s) && DraftOk(d)
    ensures var t := Commit(s, d, goes);
            && StoredOk(t) && t.contact.routes == s.contact.routes && t.contact.engagement == s.contact.engagement
            && Potential(t.contact) <= Potential(s.contact)
            && (t != s && d.escalates ==> Potential(t.contact) < Potential(s.contact))
            && (IsTerminal(s.contact.state) ==> t == s)
  {
    hide FreshKeys, UniqueKeys, SendsOk, Sends, HasKey, Live;
    if goes && s.contact == d.expected && FreshKeys(s.log, d.events) {
      if StartedDraft(d) {
        StartedCommitKeeps(s, d);
      } else {
        RoutelessCommitKeeps(s, d);
      }
    }
  }

  lemma StartedOrDone(d: Draft)
    requires StartedDraft(d)
    ensures d.expected.attempts > 0
  {
  }

  /** A start is saved over whatever is stored then; only the key of its event keeps a second one out. */
  function CommitStart(s: Stored, d: Draft, goes: bool): Stored { Commit(s, d.(expected := s.contact), goes) }

  predicate StartOk(d: Draft) {
    && ContactOk(d.updated) && Live(d.updated) && d.updated.attempts == 1 && d.updated.routeIndex == 0
    && d.events == [PrimarySent(DigestOf((1, 0, d.updated.routes[0])), 1, 0, d.updated.routes[0])]
  }

  lemma StartIsSound(a: Contact, resolves: Resolver, w: Windows, now: Time)
    ensures var p := PrepareStart(a, resolves, w, now);
            && p.Ok?
            && (p.value.Some? <==>
                  && a.responseRequired == (a.engagement != Inform) && !IsInterview(a.engagement)
                  && (a.state == NotContacted || a.state == ContactQueued) && a.routes != [] && resolves(0))
            && (p.value.Some? ==> StartOk(p.value.value) && p.value.value.updated.routes == a.routes
                                        && p.value.value.updated.engagement == a.engagement)
  {
  }

  lemma FirstStart(s: Stored, d: Draft)
    requires StoredOk(s) && StartOk(d) && Unstarted(s.contact)
    ensures StoredOk(Stored(d.updated, s.log + d.events))
  {
    hide UniqueKeys, HasKey, SendsOk;
    assert s.log + d.events == d.events;
    assert d.events[..0] == [] && Sends([]) == 0 && Sends(d.events) == 1;
    PrimaryPresent(d.events);
    OneSendIsOk(d.events);
  }

  lemma OneSendIsOk(events: seq<Event>)
    requires |events| == 1 && events[0].PrimarySent? && events[0].attempt == 1
    requires events[0].delivery == DigestOf((1, events[0].index, events[0].route))
    ensures SendsOk(events, 1)
  {
  }

  lemma StartUsesPotential(a: Contact, b: Contact)
    requires Unstarted(a) && Live(b) && b.attempts == 1 && b.routes == a.routes
    ensures Potential(b) <= Potential(a)
  {
  }

  /** A second start never takes effect. */
  lemma CommitStartKeeps(s: Stored, d: Draft, goes: bool)
    requires StoredOk(s) && StartOk(d) && d.updated.routes == s.contact.routes
             && d.updated.engagement == s.contact.engagement
    ensures StoredOk(CommitStart(s, d, goes))
    ensures !Unstarted(s.contact) ==> CommitStart(s, d, goes) == s
    ensures Potential(CommitStart(s, d, goes).contact) <= Potential(s.contact)
    ensures var t := CommitStart(s, d, goes);
            t.contact.routes == s.contact.routes && t.contact.engagement == s.contact.engagement
  {
    hide StoredOk, HasKey, Potential, Live, ContactOk;
    if Unstarted(s.contact) {
      FirstStart(s, d);
      StartUsesPotential(s.contact, d.updated);
    } else {
      StartedHasPrimary(s, d.updated);
      assert !FreshKeys(s.log, d.events) by { assert KeyOf(d.events[0]) == PrimaryKey; }
    }
  }

  lemma StartedHasPrimary(s: Stored, started: Contact)
    requires StoredOk(s) && !Unstarted(s.contact) && Live(started) && started.routes == s.contact.routes
    ensures HasKey(s.log, PrimaryKey)
  {
    hide HasKey, UniqueKeys, SendsOk, Sends;
  }

  lemma PrimaryPresent(events: seq<Event>)
    requires |events| == 1 && KeyOf(events[0]) == PrimaryKey
    ensures HasKey(events, PrimaryKey) && UniqueKeys(events)
  {
  }

  // ---- Any number of calls between their read and their transaction ----

  datatype World = World(stored: Stored, drafts: seq<Draft>, starts: seq<Draft>)
  {
    function Contact(): Contact { stored.contact }

    function Begun(p: Prepared): World {
      if p.Ok? && p.value.Some? then this.(drafts := drafts + [p.value.value]) else this
    }
  }

  datatype Move =
    | BeginStart(resolves: Resolver, windows: Windows, now: Time)
    | BeginDue(resolves: Resolver, windows: Windows, now: Time)
    | BeginSuccess(delivery: DeliveryId, resolves: Resolver, now: Time)
    | BeginFailure(delivery: DeliveryId, resolves: Resolver, windows: Windows, now: Time)
    | BeginAnswer(message: MessageId, authentic: bool, now: Time)
    | Finish(index: nat, goes: bool)
    | FinishStart(index: nat, goes: bool)

  function Step(w: World, move: Move): World {
    var a, log := w.stored.contact, w.stored.log;
    match move
    case BeginStart(resolves, windows, now) =>
      var p := PrepareStart(a, resolves, windows, now);
      if p.Ok? && p.value.Some? then w.(starts := w.starts + [p.value.value]) else w
    case BeginDue(resolves, windows, now) => w.Begun(DueDraft(a, resolves, windows, now))
    case BeginSuccess(d, resolves, now) => w.Begun(SuccessDraft(a, log, d, resolves, now))
    case BeginFailure(d, resolves, windows, now) => w.Begun(FailureDraft(a, log, d, resolves, windows, now))
    case BeginAnswer(m, authentic, now) => w.Begun(AnswerDraft(a, log, m, authentic, now))
    case Finish(i, goes) => if i < |w.drafts| then w.(stored := Commit(w.stored, w.drafts[i], goes)) else w
    case FinishStart(i, goes) => if i < |w.starts| then w.(stored := CommitStart(w.stored, w.starts[i], goes)) else w
  }

  function Run(w: World, moves: seq<Move>): World
    decreases |moves|
  {
    if moves == [] then w else Run(Step(w, moves[0]), moves[1..])
  }

  /** The committed due and failure steps of a run. */
  function Escalations(w: World, moves: seq<Move>): nat
    decreases |moves|
  {
    if moves == [] then 0
    else
      (if moves[0].Finish? && moves[0].index < |w.drafts| && w.drafts[moves[0].index].escalates
       && Step(w, moves[0]).stored != w.stored
       then 1 else 0)
      + Escalations(Step(w, moves[0]), moves[1..])
  }

  predicate WorldInv(w: World) {
    && StoredOk(w.stored)
    && (forall i :: 0 <= i < |w.drafts| ==> DraftOk(w.drafts[i]))
    && (forall i :: 0 <= i < |w.starts| ==>
          && StartOk(w.starts[i])
          && w.starts[i].updated.routes == w.stored.contact.routes
          && w.starts[i].updated.engagement == w.stored.contact.engagement)
  }

  lemma DueDraftIsOk(a: Contact, resolves: Resolver, w: Windows, now: Time)
    requires ContactOk(a)
    ensures var p := DueDraft(a, resolves, w, now); p.Ok? && p.value.Some? ==> DraftOk(p.value.value)
  {
    if !Unstarted(a) {
      DueIsSound(a, resolves, w, now);
    }
  }

  lemma StepKeeps(w: World, move: Move)
    requires WorldInv(w)
    ensures var v := Step(w, move);
            && WorldInv(v) && v.stored.contact.routes == w.stored.contact.routes
            && Potential(v.stored.contact) <= Potential(w.stored.contact)
            && (IsTerminal(w.stored.contact.state) ==> v.stored == w.stored)
            && (move.Finish? && move.index < |w.drafts| && w.drafts[move.index].escalates && v.stored != w.stored ==>
                  Potential(v.stored.contact) < Potential(w.stored.contact))
  {
    hide StoredOk, DraftOk, StartOk, Potential, PrepareStart, DueDraft, SuccessDraft, FailureDraft, AnswerDraft, Commit,
         CommitStart;
    var a, log := w.stored.contact, w.stored.log;
    ContactOfStored(w.stored);
    match move
    case BeginStart(resolves, windows, now) => StartIsSound(a, resolves, windows, now);
    case BeginDue(resolves, windows, now) => DueDraftIsOk(a, resolves, windows, now);
    case BeginSuccess(d, resolves, now) =>
      SuccessIsSound(a, log, d, resolves, now);
      SoundIsOk(SuccessDraft(a, log, d, resolves, now), a);
    case BeginFailure(d, resolves, windows, now) =>
      FailureIsSound(a, log, d, resolves, windows, now);
      SoundIsOk(FailureDraft(a, log, d, resolves, windows, now), a);
    case BeginAnswer(m, authentic, now) =>
      AnswerIsSound(a, log, m, authentic, now);
      SoundIsOk(AnswerDraft(a, log, m, authentic, now), a);
    case Finish(i, goes) =>
      if i < |w.drafts| {
        CommitKeeps(w.stored, w.drafts[i], goes);
      }
    case FinishStart(i, goes) =>
      if i < |w.starts| {
        CommitStartKeeps(w.stored, w.starts[i], goes);
        TerminalIsNotUnstarted(w.stored.contact);
      }
  }

  lemma ContactOfStored(s: Stored)
    requires StoredOk(s)
    ensures ContactOk(s.contact)
  {
  }

  lemma TerminalIsNotUnstarted(a: Contact)
    ensures IsTerminal(a.state) ==> !Unstarted(a)
  {
  }

  lemma SoundIsOk(p: Prepared, a: Contact)
    requires Sound(p, a)
    ensures p.Ok? && (p.value.Some? ==> DraftOk(p.value.value))
  {
  }

  // ---- Theorems ----

  /** Over every interleaving the store keeps its invariant, and the committed due and failure steps use up the routes
      and the reminder: there are at most |routes| + 1 of them. */
  lemma {:induction false} EscalationEnds(w: World, moves: seq<Move>)
    requires WorldInv(w)
    ensures var v := Run(w, moves);
            && WorldInv(v) && v.stored.contact.routes == w.stored.contact.routes
            && Escalations(w, moves) + Potential(v.stored.contact) <= Potential(w.stored.contact)
            && Escalations(w, moves) <= |w.stored.contact.routes| + 1
            && (IsTerminal(w.stored.contact.state) ==> v.stored == w.stored)
    decreases |moves|
  {
    hide WorldInv, Step, Potential;
    PotentialIsBounded(w.stored.contact);
    if moves != [] {
      StepKeeps(w, moves[0]);
      EscalationEnds(Step(w, moves[0]), moves[1..]);
    }
  }

  lemma PotentialIsBounded(a: Contact)
    ensures Potential(a) <= |a.routes| + 1
  {
  }

  /** In every reachable store: the shape of attempts and routes, at most |routes| + 1 sends with distinct delivery
      identifiers, and at most one recorded result per delivery identifier. */
  lemma SendsAndResultsAreBounded(w: World, moves: seq<Move>)
    requires WorldInv(w)
    ensures var s := Run(w, moves).stored;
            && ContactOk(s.contact) && Sends(s.log) <= |s.contact.routes| + 1
            && (forall i, j :: 0 <= i < j < |s.log| && s.log[i].IsSend() && s.log[j].IsSend() ==>
                s.log[i].delivery != s.log[j].delivery)
            && (forall i, j, d :: 0 <= i < j < |s.log| && KeyOf(s.log[i]) == ResultKey(d) ==>
                KeyOf(s.log[j]) != ResultKey(d))
  {
    hide Run, Escalations, Live, KeyOf, HasKey, Sends;
    EscalationEnds(w, moves);
  }

  /** In every reachable store no report and no answer is refused by the state machine, and the time-driven step only
      before the first contact. */
  lemma ReportsNeverRaise(w: World, moves: seq<Move>, d: DeliveryId, resolves: Resolver, windows: Windows, now: Time,
                          m: MessageId)
    requires WorldInv(w)
    ensures var s := Run(w, moves).stored;
            && SuccessDraft(s.contact, s.log, d, resolves, now).Ok?
            && FailureDraft(s.contact, s.log, d, resolves, windows, now).Ok?
            && AnswerDraft(s.contact, s.log, m, true, now).Ok?
            && (DueDraft(s.contact, resolves, windows, now).Err? ==> Unstarted(s.contact))
  {
    hide Run, Escalations, SuccessDraft, FailureDraft, AnswerDraft, DueDraft, StoredOk;
    EscalationEnds(w, moves);
    var s := Run(w, moves).stored;
    ContactOfStored(s);
    SuccessIsSound(s.contact, s.log, d, resolves, now);
    FailureIsSound(s.contact, s.log, d, resolves, windows, now);
    AnswerIsSound(s.contact, s.log, m, true, now);
    DueRaisesExactly(s.contact, resolves, windows, now);
  }

  // ---- Progress ----

  /** One due step that nobody races. */
  function DueOnce(s: Stored, resolves: Resolver, w: Windows, now: Time): Stored {
    match DueDraft(s.contact, resolves, w, now)
    case Ok(Some(d)) => Commit(s, d, true)
    case _ => s
  }

  function DueRun(s: Stored, resolves: Resolver, w: Windows, times: seq<Time>): Stored
    decreases |times|
  {
    if times == [] then s else DueRun(DueOnce(s, resolves, w, times[0]), resolves, w, times[1..])
  }

  /** Every step comes when the assignment is due. */
  predicate Punctual(s: Stored, resolves: Resolver, w: Windows, times: seq<Time>)
    decreases |times|
  {
    times == []
    || (&& (s.contact.nextActionAt.Some? ==> s.contact.nextActionAt.value <= times[0])
        && Punctual(DueOnce(s, resolves, w, times[0]), resolves, w, times[1..]))
  }

  /** Reminder, alternate route, end: the due steps an answerable assignment has before it. */
  function TurnsLeft(a: Contact): nat {
    if IsTerminal(a.state) then 0
    else if a.attempts == 1 then (if |a.routes| > 1 then 3 else 2)
    else if a.attempts == 2 && |a.routes| > 1 then 2
    else 1
  }

  predicate AllResolve(a: Contact, resolves: Resolver) { forall i: nat :: i < |a.routes| ==> resolves(i) }

  /** The events of the due step: their number is above the current attempt, or they end the assignment. */
  predicate IsNext(e: Event, attempts: nat) {
    || (e.ReminderSent? && e.attempt == 2 && attempts < 2)
    || (e.AlternateSent? && e.failed.None? && e.attempt == 3 && attempts < 3)
    || e.GaveUp?
  }

  lemma DueEvents(a: Contact, resolves: Resolver, w: Windows, now: Time)
    requires ContactOk(a) && !Unstarted(a)
    ensures var p := DueDraft(a, resolves, w, now);
            p.Ok? && p.value.Some? ==>
              |p.value.value.events| == 1 && IsNext(p.value.value.events[0], a.attempts) && !IsTerminal(a.state)
  {
    hide Transition, Live;
  }

  lemma NextIsNew(log: seq<Event>, attempts: nat, e: Event)
    requires SendsOk(log, attempts) && AllTold(log, false) && IsNext(e, attempts)
    ensures FreshKeys(log, [e])
  {
    forall i | 0 <= i < |log| ensures KeyOf(log[i]) != KeyOf(e) {
      assert Told(log[i], false);
    }
  }

  /** The event of a due step is new. */
  lemma DueIsNew(s: Stored, resolves: Resolver, w: Windows, now: Time)
    requires StoredOk(s) && !Unstarted(s.contact)
    ensures var p := DueDraft(s.contact, resolves, w, now);
            p.Ok? && p.value.Some? ==> FreshKeys(s.log, p.value.value.events)
  {
    hide UniqueKeys, Sends, SendBudget, ContactOk, Live, DueDraft, FreshKeys, AllTold, SendsOk, IsNext;
    var p := DueDraft(s.contact, resolves, w, now);
    DueEvents(s.contact, resolves, w, now);
    if p.Ok? && p.value.Some? {
      var events := p.value.value.events;
      assert events == [events[0]];
      NextIsNew(s.log, s.contact.attempts, events[0]);
    }
  }

  lemma DueStepProgress(s: Stored, resolves: Resolver, w: Windows, now: Time)
    requires StoredOk(s) && Live(s.contact) && s.contact.engagement != Inform && AllResolve(s.contact, resolves)
    requires s.contact.nextActionAt.Some? ==> s.contact.nextActionAt.value <= now
    ensures var t := DueOnce(s, resolves, w, now);
            && StoredOk(t) && t.contact.engagement != Inform && t.contact.routes == s.contact.routes
            && (Live(t.contact) || t.contact.state == Unreachable) && TurnsLeft(t.contact) < TurnsLeft(s.contact)
  {
    hide StoredOk, DueDraft, FreshKeys, HasKey;
    ContactOfStored(s);
    LiveIsStarted(s.contact);
    DueIsSound(s.contact, resolves, w, now);
    DueIsNew(s, resolves, w, now);
    var d := DueDraft(s.contact, resolves, w, now).value.value;
    CommitKeeps(s, d, true);
    ContactOfStored(DueOnce(s, resolves, w, now));
  }

  /** Unraced due steps on resolving routes end a waiting assignment, in as many turns as it has left. */
  lemma {:induction false} DueRunEnds(s: Stored, resolves: Resolver, w: Windows, times: seq<Time>)
    requires StoredOk(s) && Live(s.contact) && s.contact.engagement != Inform && AllResolve(s.contact, resolves)
    requires Punctual(s, resolves, w, times) && |times| >= TurnsLeft(s.contact)
    ensures DueRun(s, resolves, w, times).contact.state == Unreachable
    decreases |times|
  {
    hide StoredOk, DueOnce, Live, ContactOk;
    LiveIsStarted(s.contact);
    DueStepProgress(s, resolves, w, times[0]);
    var t := DueOnce(s, resolves, w, times[0]);
    if t.contact.state == Unreachable {
      EndedStaysEnded(t, resolves, w, times[1..]);
    } else {
      DueRunEnds(t, resolves, w, times[1..]);
    }
  }

  lemma {:induction false} EndedStaysEnded(s: Stored, resolves: Resolver, w: Windows, times: seq<Time>)
    requires IsTerminal(s.contact.state)
    ensures DueRun(s, resolves, w, times) == s
    decreases |times|
  {
    if times != [] {
      EndedStaysEnded(s, resolves, w, times[1..]);
    }
  }

  /** A new assignment with a route and no planned time: the due step raises. */
  lemma NewAssignmentRaises(resolves: Resolver, w: Windows, now: Time)
    ensures var a := Contact(Acknowledge, true, NotContacted, ["email"], 0, 0, None, None, None, None);
            ContactOk(a) && DueDraft(a, resolves, w, now) == Err(InvalidTransition)
  {
    var a := Contact(Acknowledge, true, NotContacted, ["email"], 0, 0, None, None, None, None);
    DueRaisesExactly(a, resolves, w, now);
  }

  /** A new assignment. */
  lemma NewAssignmentIsOk(engagement: EngagementType, routes: seq<RouteId>)
    requires !IsInterview(engagement)
    ensures WorldInv(World(Stored(Contact(engagement, engagement != Inform, NotContacted, routes, 0, 0, None, None,
                                          None, None), []), [], []))
  {
  }
}
