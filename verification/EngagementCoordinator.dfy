/** The coordinator's calls: read a snapshot, prepare, and save by compare-and-save while others save too. */
module EngagementCoordinator {
  import opened Basics
  import opened Domain
  import opened OutreachModel
  import opened OutreachRuns

  const CAS_ATTEMPTS: nat := 3

  lemma KeyInJoin(log: seq<Event>, events: seq<Event>, key: EventKey)
    ensures HasKey(log + events, key) <==> HasKey(log, key) || HasKey(events, key)
  {
    var all := log + events;
    if HasKey(all, key) {
      var i :| 0 <= i < |all| && KeyOf(all[i]) == key;
      if i < |log| {
        assert KeyOf(log[i]) == key;
      } else {
        assert KeyOf(events[i - |log|]) == key;
      }
    }
    if HasKey(log, key) {
      KeyStays(log, events, key);
    }
    if HasKey(events, key) {
      var i :| 0 <= i < |events| && KeyOf(events[i]) == key;
      assert KeyOf(all[|log| + i]) == key;
    }
  }

  // ---- What others save in between ----

  function CommitAll(s: Stored, others: seq<Draft>): Stored
    decreases |others|
  {
    if others == [] then s else Commit(CommitAll(s, others[..|others| - 1]), others[|others| - 1], true)
  }

  predicate AllOk(others: seq<Draft>) { forall i :: 0 <= i < |others| ==> DraftOk(others[i]) }

  lemma {:induction false} CommitAllKeeps(s: Stored, others: seq<Draft>)
    requires StoredOk(s) && AllOk(others)
    ensures var t := CommitAll(s, others);
            && StoredOk(t) && t.contact.routes == s.contact.routes && t.contact.engagement == s.contact.engagement
            && Potential(t.contact) <= Potential(s.contact) && (IsTerminal(s.contact.state) ==> t == s)
            && s.log <= t.log
    decreases |others|
  {
    hide StoredOk, DraftOk, Potential;
    if others != [] {
      var rest := others[..|others| - 1];
      CommitAllKeeps(s, rest);
      CommitKeeps(CommitAll(s, rest), others[|others| - 1], true);
    }
  }

  /** The transaction finds the snapshot its draft was made from, with every event new. */
  predicate Lands(s: Stored, d: Draft, goes: bool) { goes && s.contact == d.expected && FreshKeys(s.log, d.events) }

  // ---- An answer, tried against others ----

  datatype Tried = Tried(stored: Stored, recorded: bool)

  /** At most one try per element of others; a try that finds the snapshot changed, or the mandate stopped, is followed
      by the next. */
  function TryAnswer(s: Stored, message: MessageId, authentic: bool, now: Time, others: seq<seq<Draft>>,
                     goes: bool): Tried
    decreases |others|
  {
    if others == [] then Tried(s, false)
    else
      match AnswerDraft(s.contact, s.log, message, authentic, now)
      case Ok(Some(d)) =>
        var t := CommitAll(s, others[0]);
        if Lands(t, d, goes) then Tried(Commit(t, d, goes), true)
        else TryAnswer(t, message, authentic, now, others[1..], goes)
      case _ => Tried(s, false)
  }

  /** What is stored when try k begins. */
  function BeforeTry(s: Stored, others: seq<seq<Draft>>, k: nat): Stored
    requires k <= |others|
  {
    if k == 0 then s else CommitAll(BeforeTry(s, others, k - 1), others[k - 1])
  }

  /** The assignment waits for this very answer. */
  predicate Awaits(s: Stored, message: MessageId, authentic: bool) {
    authentic && s.contact.engagement != Inform && Live(s.contact) && !HasKey(s.log, AnswerKey(message))
  }

  /** Try k meets an assignment that waits for the answer, and nobody changes it before its transaction. */
  predicate Undisturbed(s: Stored, message: MessageId, authentic: bool, others: seq<seq<Draft>>, k: nat)
    requires k < |others|
  {
    var before, after := BeforeTry(s, others, k), BeforeTry(s, others, k + 1);
    Awaits(before, message, authentic) && after.contact == before.contact && !HasKey(after.log, AnswerKey(message))
  }

  predicate SomeUndisturbed(s: Stored, message: MessageId, authentic: bool, others: seq<seq<Draft>>) {
    exists k :: 0 <= k < |others| && Undisturbed(s, message, authentic, others, k)
  }

  lemma {:induction false} BeforeLaterTry(s: Stored, others: seq<seq<Draft>>, k: nat)
    requires 1 <= k <= |others|
    ensures BeforeTry(s, others, k) == BeforeTry(CommitAll(s, others[0]), others[1..], k - 1)
  {
    if k > 1 {
      BeforeLaterTry(s, others, k - 1);
      assert others[1..][k - 2] == others[k - 1];
    }
  }

  /** Whether some try is undisturbed: the first one, or a later one. */
  lemma FirstOrLater(s: Stored, message: MessageId, authentic: bool, others: seq<seq<Draft>>)
    requires others != []
    ensures SomeUndisturbed(s, message, authentic, others) <==>
              Undisturbed(s, message, authentic, others, 0)
              || SomeUndisturbed(CommitAll(s, others[0]), message, authentic, others[1..])
  {
    var t, rest := CommitAll(s, others[0]), others[1..];
    forall k | 1 <= k < |others|
      ensures Undisturbed(s, message, authentic, others, k) <==> Undisturbed(t, message, authentic, rest, k - 1)
    {
      BeforeLaterTry(s, others, k);
      BeforeLaterTry(s, others, k + 1);
    }
    if SomeUndisturbed(s, message, authentic, others) {
      var k :| 0 <= k < |others| && Undisturbed(s, message, authentic, others, k);
      if k > 0 {
        assert Undisturbed(t, message, authentic, rest, k - 1);
      }
    }
    if SomeUndisturbed(t, message, authentic, rest) {
      var k :| 0 <= k < |rest| && Undisturbed(t, message, authentic, rest, k);
      assert Undisturbed(s, message, authentic, others, k + 1);
    }
  }

  /** An assignment that does not wait for the answer never will. */
  lemma {:induction false} NeverAwaitsAgain(s: Stored, message: MessageId, authentic: bool, others: seq<Draft>)
    requires StoredOk(s) && AllOk(others) && !Awaits(s, message, authentic)
    ensures !Awaits(CommitAll(s, others), message, authentic)
    decreases |others|
  {
    hide StoredOk, HasKey;
    if others != [] {
      var rest, last := others[..|others| - 1], others[|others| - 1];
      var t := CommitAll(s, rest);
      NeverAwaitsAgain(s, message, authentic, rest);
      CommitAllKeeps(s, rest);
      StillNotAwaiting(t, message, authentic, last);
    }
  }

  lemma StillNotAwaiting(s: Stored, message: MessageId, authentic: bool, d: Draft)
    requires StoredOk(s) && DraftOk(d) && !Awaits(s, message, authentic)
    ensures !Awaits(Commit(s, d, true), message, authentic)
  {
    hide HasKey, FreshKeys, UniqueKeys, SendsOk, Sends, AllTold;
    if s.contact == d.expected && FreshKeys(s.log, d.events) && HasKey(s.log, AnswerKey(message)) {
      KeyStays(s.log, d.events, AnswerKey(message));
    }
  }

  lemma {:induction false} NobodyDisturbsNothing(s: Stored, message: MessageId, authentic: bool,
                                                 others: seq<seq<Draft>>, k: nat)
    requires StoredOk(s) && (forall i :: 0 <= i < |others| ==> AllOk(others[i])) && !Awaits(s, message, authentic)
             && k <= |others|
    ensures StoredOk(BeforeTry(s, others, k)) && !Awaits(BeforeTry(s, others, k), message, authentic)
  {
    hide StoredOk, Awaits, AllOk;
    if k > 0 {
      NobodyDisturbsNothing(s, message, authentic, others, k - 1);
      CommitAllKeeps(BeforeTry(s, others, k - 1), others[k - 1]);
      NeverAwaitsAgain(BeforeTry(s, others, k - 1), message, authentic, others[k - 1]);
    }
  }

  /** An answer is recorded exactly when the mandate is live and one of the tries is undisturbed; the engagement is
      complete then. */
  lemma {:induction false} AnswerIsRecordedExactly(s: Stored, message: MessageId, authentic: bool, now: Time,
                                                   others: seq<seq<Draft>>, goes: bool)
    requires StoredOk(s) && (forall i :: 0 <= i < |others| ==> AllOk(others[i]))
    ensures var r := TryAnswer(s, message, authentic, now, others, goes);
            && (r.recorded <==> goes && SomeUndisturbed(s, message, authentic, others))
            && (r.recorded ==>
                r.stored.contact.state == StakeholderState.Complete && HasKey(r.stored.log, AnswerKey(message)))
    decreases |others|
  {
    hide StoredOk, AnswerDraft, AllOk, SomeUndisturbed, HasKey, Live, FreshKeys;
    if others == [] {
      assert !SomeUndisturbed(s, message, authentic, others) by { NoTry(s, message, authentic); }
    } else {
      ContactOfStored(s);
      AnswerIsSound(s.contact, s.log, message, authentic, now);
      FirstOrLater(s, message, authentic, others);
      var t := CommitAll(s, others[0]);
      CommitAllKeeps(s, others[0]);
      AnswerIsRecordedExactly(t, message, authentic, now, others[1..], goes);
      if Awaits(s, message, authentic) {
        OneKeyIsFresh(t.log, message);
        AnswerIsLast(t.log + [Answered(message)], message);
      } else {
        NoTryIsUndisturbed(s, message, authentic, others);
      }
    }
  }

  lemma NoTry(s: Stored, message: MessageId, authentic: bool)
    ensures !SomeUndisturbed(s, message, authentic, [])
  {
  }

  lemma NoTryIsUndisturbed(s: Stored, message: MessageId, authentic: bool, others: seq<seq<Draft>>)
    requires StoredOk(s) && (forall i :: 0 <= i < |others| ==> AllOk(others[i])) && !Awaits(s, message, authentic)
    ensures !SomeUndisturbed(s, message, authentic, others)
  {
    hide StoredOk, Awaits, AllOk;
    forall k | 0 <= k < |others| ensures !Undisturbed(s, message, authentic, others, k) {
      NobodyDisturbsNothing(s, message, authentic, others, k);
    }
  }

  lemma OneKeyIsFresh(log: seq<Event>, message: MessageId)
    ensures FreshKeys(log, [Answered(message)]) <==> !HasKey(log, AnswerKey(message))
  {
    assert [Answered(message)][..0] == [];
  }

  lemma AnswerIsLast(log: seq<Event>, message: MessageId)
    requires |log| > 0 && log[|log| - 1] == Answered(message)
    ensures HasKey(log, AnswerKey(message))
  {
  }

  class Coordinator {
    var contact: Contact
    var log: seq<Event>

    function State(): Stored
      reads this
    {
      Stored(contact, log)
    }

    ghost predicate Valid()
      reads this
    {
      StoredOk(State())
    }

    constructor (engagement: EngagementType, routes: seq<RouteId>)
      requires !IsInterview(engagement)
      ensures Valid()
              && State()
                == Stored(Contact(engagement, engagement != Inform, NotContacted, routes, 0, 0, None, None, None, None),
                          [])
    {
      contact, log := Contact(engagement, engagement != Inform, NotContacted, routes, 0, 0, None, None, None, None), [];
    }

    /** Saves the assignment and appends every event once, or rolls both back. */
    method SaveAssignmentEvents(d: Draft, goes: bool) returns (saved: bool)
      requires Valid() && DraftOk(d)
      modifies this
      ensures Valid() && State() == Commit(old(State()), d, goes)
      ensures saved <==> Lands(old(State()), d, goes)
    {
      hide StoredOk, DraftOk, HasKey, KeyOf;
      CommitKeeps(State(), d, goes);
      if !goes || contact != d.expected { return false; }
      var wasContact, wasLog := contact, log;
      contact := d.updated;
      for i := 0 to |d.events|
        invariant contact == d.updated && log == wasLog + d.events[..i]
        invariant forall k :: 0 <= k < i ==>
                    !HasKey(wasLog, KeyOf(d.events[k])) && !HasKey(d.events[..k], KeyOf(d.events[k]))
      {
        KeyInJoin(wasLog, d.events[..i], KeyOf(d.events[i]));
        if HasKey(log, KeyOf(d.events[i])) {
          contact, log := wasContact, wasLog;
          return false;
        }
        assert d.events[..i + 1] == d.events[..i] + [d.events[i]];
        log := log + [d.events[i]];
      }
      assert d.events[..|d.events|] == d.events;
      saved := true;
    }

    /** What others save between this call's read and its transaction. */
    method Meddle(others: seq<Draft>)
      requires Valid() && AllOk(others)
      modifies this
      ensures Valid() && State() == CommitAll(old(State()), others)
    {
      hide StoredOk, DraftOk, Commit;
      for i := 0 to |others|
        invariant Valid() && State() == CommitAll(old(State()), others[..i])
      {
        assert others[..i + 1][..i] == others[..i];
        var saved := SaveAssignmentEvents(others[i], true);
      }
      assert others[..|others|] == others;
    }

    /** The due step: what it prepared from its snapshot is saved exactly when nobody changed the snapshot, and nothing
        else is. It raises only on an assignment that was never contacted. */
    method ProcessDueAssignment(resolves: Resolver, w: Windows, now: Time, others: seq<Draft>, goes: bool)
      returns (r: Result<bool, TransitionError>)
      requires Valid() && AllOk(others)
      modifies this
      ensures Valid()
      ensures r.Err? ==> old(Unstarted(contact))
      ensures r == Ok(true) ==> Potential(contact) < old(Potential(contact))
      ensures match DueDraft(old(contact), resolves, w, now)
              case Err(e) => r == Err(e) && State() == old(State())
              case Ok(None) => r == Ok(false) && State() == old(State())
              case Ok(Some(d)) =>
                var s := CommitAll(old(State()), others);
                State() == Commit(s, d, goes) && r == Ok(Lands(s, d, goes))
    {
      hide StoredOk, DraftOk, DueDraft, Potential, Commit, FreshKeys;
      ContactOfStored(State());
      DueRaisesExactly(contact, resolves, w, now);
      DueDraftIsOk(contact, resolves, w, now);
      var prepared := DueDraft(contact, resolves, w, now);
      if prepared.Err? { return Err(prepared.error); }
      if prepared.value.None? { return Ok(false); }
      DueEscalates(contact, resolves, w, now);
      CommitAllKeeps(State(), others);
      Meddle(others);
      CommitKeeps(State(), prepared.value.value, goes);
      EscalationCounts(State(), prepared.value.value, goes);
      var saved := SaveAssignmentEvents(prepared.value.value, goes);
      r := Ok(saved);
    }

    /** An answer is retried while others win the race, at most three times. */
    method RecordAnswer(message: MessageId, authentic: bool, now: Time, others: seq<seq<Draft>>, goes: bool)
      returns (recorded: bool)
      requires Valid() && |others| == CAS_ATTEMPTS && forall i :: 0 <= i < |others| ==> AllOk(others[i])
      modifies this
      ensures Valid()
      ensures Tried(State(), recorded) == TryAnswer(old(State()), message, authentic, now, others, goes)
      ensures recorded <==> goes && SomeUndisturbed(old(State()), message, authentic, others)
      ensures recorded ==> contact.state == StakeholderState.Complete && HasKey(log, AnswerKey(message))
    {
      hide StoredOk, DraftOk, AnswerDraft, HasKey, FreshKeys, Live, AllOk, SomeUndisturbed, CommitAll;
      AnswerIsRecordedExactly(State(), message, authentic, now, others, goes);
      for i := 0 to CAS_ATTEMPTS
        invariant Valid()
        invariant TryAnswer(old(State()), message, authentic, now, others, goes)
                  == TryAnswer(State(), message, authentic, now, others[i..], goes)
      {
        ContactOfStored(State());
        AnswerIsSound(contact, log, message, authentic, now);
        var prepared := AnswerDraft(contact, log, message, authentic, now);
        if prepared.value.None? { return false; }
        var draft := prepared.value.value;
        SoundIsOk(prepared, contact);
        assert others[i..][0] == others[i] && others[i..][1..] == others[i + 1..];
        Meddle(others[i]);
        var saved := SaveAssignmentEvents(draft, goes);
        if saved { return true; }
      }
      recorded := false;
    }
  }

  lemma DueEscalates(a: Contact, resolves: Resolver, w: Windows, now: Time)
    ensures var p := DueDraft(a, resolves, w, now);
            p.Ok? && p.value.Some? ==> p.value.value.escalates && p.value.value.events != []
  {
  }

  /** A saved escalation changes the store. */
  lemma EscalationCounts(s: Stored, d: Draft, goes: bool)
    ensures Lands(s, d, goes) && d.events != [] ==> Commit(s, d, goes) != s
  {
    if Lands(s, d, goes) {
      assert |s.log + d.events| == |s.log| + |d.events|;
    }
  }
}
