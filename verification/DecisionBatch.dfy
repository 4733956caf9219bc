/** A batch of subject invitations: what it keeps, and why it equals issuing them one subject at a time. */
module DecisionBatch {
  import opened Basics
  import opened DecisionModel
  import opened DecisionInvitations

  /** Both dictionaries hold the same open record for the subject. */
  predicate Untouched(a: Invites, b: Invites, k: SubjectKey) {
    && (k in a.active <==> k in b.active)
    && (k in a.active ==>
          && a.active[k] == b.active[k] && a.active[k] in a.subjects && a.active[k] in b.subjects
          && a.subjects[a.active[k]] == b.subjects[a.active[k]])
  }

  /** One turn touches no other subject and no generic invitation. */
  ghost predicate TouchesOnly(a: Invites, b: Invites, k: SubjectKey) {
    && b.generic == a.generic && b.schema == a.schema
    && forall other :: other != k && Untouched(a, a, other) ==> Untouched(a, b, other)
  }

  lemma SelfUntouched(a: Invites)
    requires ActiveOk(a)
    ensures forall k :: Untouched(a, a, k)
  {
  }

  lemma UntouchedTransitive(a: Invites, b: Invites, c: Invites, k: SubjectKey)
    requires Untouched(a, b, k) && Untouched(b, c, k)
    ensures Untouched(a, c, k)
  {
  }

  lemma IssueTouchesOnly(inv: Invites, id: InvitationId, r: SubjectRecord)
    requires id !in inv.subjects
    ensures TouchesOnly(inv, inv.Issue(id, r), (r.org, r.subject))
  {
  }

  lemma CloseTouchesOnly(inv: Invites, id: InvitationId, status: InvitationStatus)
    requires ActiveOk(inv) && id in inv.subjects && inv.subjects[id].digest in inv.index
             && inv.subjects[id].status == Open
    ensures TouchesOnly(inv, inv.Close(id, status), (inv.subjects[id].org, inv.subjects[id].subject))
  {
    var b, k := inv.Close(id, status), (inv.subjects[id].org, inv.subjects[id].subject);
    forall other | other != k && Untouched(inv, inv, other) ensures Untouched(inv, b, other) {
      if other in inv.active {
        assert inv.active[other] != id;
      }
    }
  }

  // ---- One turn ----

  /** The same open record read from either dictionary. */
  lemma SameRelation(a: Invites, b: Invites, org: OrganizationId, subject: SubjectId)
    requires InvitesInv(a) && InvitesInv(b) && Untouched(a, b, (org, subject))
    ensures Relation(a, org, subject) == Relation(b, org, subject)
    ensures var r := Relation(a, org, subject);
            r.Ok? && (r.value.Some? ==> r.value.value in a.subjects && r.value.value in b.subjects
                                        && a.subjects[r.value.value] == b.subjects[r.value.value])
  {
    hide InvitesInv, Relation, RecordOk, Invites.OpenFor;
    RelationNeverRaises(a, org, subject);
    RelationNeverRaises(b, org, subject);
  }

  lemma DrawKeeps(draft: Draft, subject: SubjectId, order: Issue, existing: Option<InvitationId>, sequence: nat,
                  ids: Identifiers)
    requires InvitesInv(draft.invites) && order.org in draft.invites.schema && !Privileged(order.role)
    requires (order.org, subject) !in draft.invites.active
    requires match existing
             case None => sequence == 0
             case Some(p) =>
               && p in draft.invites.subjects && sequence > 0
               && draft.invites.subjects[p].(digest := DigestOf(""), expiresAt := 0, delivery := Pending, route := None,
                                             retryOf := None)
                  == SubjectRecord(order.org, subject, order.role, DigestOf(""), 0, Pending, None, sequence - 1, None,
                                   Revoked)
    requires Draw(draft, subject, order, existing, sequence, ids).Ok?
    ensures var next := Draw(draft, subject, order, existing, sequence, ids).value;
            && InvitesInv(next.invites) && TouchesOnly(draft.invites, next.invites, (order.org, subject))
            && next.created == draft.created + 1 && |next.grants| == |draft.grants| + 1 && draft.grants <= next.grants
            && next.grants[|draft.grants|].subject == subject && next.grants[|draft.grants|].token.Some?
  {
    hide InvitesInv, Invites.IsFresh;
    var (id, token) := ids(draft.created);
    var r := NewRecord(subject, order, existing, sequence, TokenDigest(token).value);
    FreshId(draft.invites, id, r.digest);
    IssueKeeps(draft.invites, id, r);
    IssueTouchesOnly(draft.invites, id, r);
  }

  lemma FreshId(inv: Invites, id: InvitationId, d: Digest<string>)
    requires inv.IsFresh(id, d)
    ensures id !in inv.subjects
  {
  }

  /** What one turn of the batch leaves behind. */
  lemma IssueOneKeeps(stored: Invites, draft: Draft, subject: SubjectId, order: Issue, ids: Identifiers)
    requires InvitesInv(stored) && InvitesInv(draft.invites) && Untouched(stored, draft.invites, (order.org, subject))
    requires order.org in draft.invites.schema && !Privileged(order.role)
    requires IssueOne(stored, draft, subject, order, ids).Ok?
    ensures var next := IssueOne(stored, draft, subject, order, ids).value;
            && InvitesInv(next.invites)
            && next.invites.generic == draft.invites.generic && next.invites.schema == draft.invites.schema
            && (forall k :: k != (order.org, subject) ==> Untouched(draft.invites, next.invites, k))
            && |next.grants| == |draft.grants| + 1 && draft.grants <= next.grants
            && next.grants[|draft.grants|].subject == subject
            && (if next.grants[|draft.grants|].token.Some? then next.created == draft.created + 1
                else next.created == draft.created && next.invites == draft.invites)
  {
    hide InvitesInv, Relation, Invites.OpenFor, Draw, Untouched;
    RelationNeverRaises(stored, order.org, subject);
    SameRelation(stored, draft.invites, order.org, subject);
    RelationNeverRaises(draft.invites, order.org, subject);
    SelfUntouchedOf(draft.invites);
    match Relation(stored, order.org, subject).value
    case None =>
      DrawKeeps(draft, subject, order, None, 0, ids);
    case Some(id) =>
      var r := stored.subjects[id];
      if !Reusable(r, order) {
        CloseKeeps(draft.invites, id, Revoked);
        CloseTouchesOnlyOf(draft.invites, id);
        var closed := draft.(invites := draft.invites.Close(id, Revoked));
        SelfUntouchedOf(closed.invites);
        DrawKeeps(closed, subject, order, Some(id), r.retrySequence + 1, ids);
        var next := IssueOne(stored, draft, subject, order, ids).value;
        forall k | k != (order.org, subject) ensures Untouched(draft.invites, next.invites, k) {
          UntouchedTransitive(draft.invites, closed.invites, next.invites, k);
        }
      }
  }

  lemma SelfUntouchedOf(a: Invites)
    requires InvitesInv(a)
    ensures forall k :: Untouched(a, a, k)
  {
    SelfUntouched(a);
  }

  lemma CloseTouchesOnlyOf(inv: Invites, id: InvitationId)
    requires InvitesInv(inv) && id in inv.subjects && inv.subjects[id].digest in inv.index
             && inv.subjects[id].status == Open
    ensures TouchesOnly(inv, inv.Close(id, Revoked), (inv.subjects[id].org, inv.subjects[id].subject))
  {
    CloseTouchesOnly(inv, id, Revoked);
  }

  /** The decision of a turn is the same whether it reads the stored or the updated dictionaries. */
  lemma DecisionIsLocal(stored: Invites, draft: Draft, subject: SubjectId, order: Issue, ids: Identifiers)
    requires InvitesInv(stored) && InvitesInv(draft.invites) && Untouched(stored, draft.invites, (order.org, subject))
    ensures IssueOne(stored, draft, subject, order, ids) == IssueOne(draft.invites, draft, subject, order, ids)
  {
    hide InvitesInv, Relation, Draw, Reusable, Replaceable, Compatible;
    SameRelation(stored, draft.invites, order.org, subject);
  }

  /** The identifiers left after n have been drawn. */
  function Later(ids: Identifiers, n: nat): Identifiers { (i: nat) => ids(n + i) }

  /** The result of a draft that starts elsewhere. */
  function Shifted(r: Result<Draft, DecisionError>, grants: seq<Grant>, created: nat): Result<Draft, DecisionError> {
    match r
    case Err(e) => Err(e)
    case Ok(d) => Ok(Draft(d.invites, grants + d.grants, created + d.created))
  }

  lemma DrawAlone(draft: Draft, subject: SubjectId, order: Issue, existing: Option<InvitationId>, sequence: nat,
                  ids: Identifiers)
    ensures Draw(draft, subject, order, existing, sequence, ids)
            == Shifted(Draw(Draft(draft.invites, [], 0), subject, order, existing, sequence, Later(ids, draft.created)),
                       draft.grants, draft.created)
  {
    hide Invites.IsFresh;
    assert Later(ids, draft.created)(0) == ids(draft.created);
    assert forall g: Grant :: [] + [g] == [g];
  }

  /** A turn after others is the same turn alone, with its identifiers drawn later. */
  lemma TurnAlone(draft: Draft, subject: SubjectId, order: Issue, ids: Identifiers)
    ensures IssueOne(draft.invites, draft, subject, order, ids)
            == Shifted(IssueOne(draft.invites, Draft(draft.invites, [], 0), subject, order, Later(ids, draft.created)),
                       draft.grants, draft.created)
  {
    hide Relation, Reusable, Replaceable, Compatible, Draw;
    var relation := Relation(draft.invites, order.org, subject);
    if relation.Ok? {
      if relation.value.None? {
        DrawAlone(draft, subject, order, None, 0, ids);
      } else if relation.value.value in draft.invites.subjects {
        var id := relation.value.value;
        var r := draft.invites.subjects[id];
        if Reusable(r, order) {
          assert [] + [GrantOf(id, r, None)] == [GrantOf(id, r, None)];
        } else if r.digest in draft.invites.index {
          DrawAlone(draft.(invites := draft.invites.Close(id, Revoked)), subject, order, Some(id), r.retrySequence + 1,
                    ids);
        }
      }
    }
  }

  // ---- The batch ----

  predicate AllDistinct(subjects: seq<SubjectId>) {
    forall i, j :: 0 <= i < j < |subjects| ==> subjects[i] != subjects[j]
  }

  /** The work of a batch so far; grants line up with the subjects. */
  lemma {:induction false} IssueAllKeeps(stored: Invites, subjects: seq<SubjectId>, order: Issue, ids: Identifiers)
    requires InvitesInv(stored) && order.org in stored.schema && !Privileged(order.role) && AllDistinct(subjects)
    requires IssueAll(stored, Draft(stored, [], 0), subjects, order, ids).Ok?
    ensures var next := IssueAll(stored, Draft(stored, [], 0), subjects, order, ids).value;
            && InvitesInv(next.invites) && next.invites.schema == stored.schema
            && (forall k: SubjectKey :: k.0 != order.org || k.1 !in subjects ==> Untouched(stored, next.invites, k))
            && |next.grants| == |subjects|
            && (forall i :: 0 <= i < |subjects| ==> next.grants[i].subject == subjects[i])
            && (next.created == 0 ==> next.invites == stored)
    decreases |subjects|
  {
    hide InvitesInv, IssueOne, Untouched;
    if subjects == [] {
      SelfUntouchedOf(stored);
    } else {
      var rest, last := subjects[..|subjects| - 1], subjects[|subjects| - 1];
      IssueAllKeeps(stored, rest, order, ids);
      var draft := IssueAll(stored, Draft(stored, [], 0), rest, order, ids).value;
      assert last !in rest;
      IssueOneKeeps(stored, draft, last, order, ids);
      var next := IssueOne(stored, draft, last, order, ids).value;
      forall k: SubjectKey | k.0 != order.org || k.1 !in subjects ensures Untouched(stored, next.invites, k) {
        assert last in subjects && (forall u :: u in rest ==> u in subjects);
        UntouchedTransitive(stored, draft.invites, next.invites, k);
      }
    }
  }

  lemma CreateSubjectInvitationsKeeps(s: State, c: Context, subjects: seq<SubjectId>, role: Role, lifetime: int,
                                      route: Option<RouteId>,
                                      required: bool, extra: bool, ids: Identifiers, now: Time)
    requires InvitesInv(s.invites)
    ensures var t := CreateSubjectInvitations(s, c, subjects, role, lifetime, route, required, extra, ids, now);
            && InvitesInv(t.state.invites)
            && (t.reply.Err? ==> t.state == s)
            && (t.reply.Ok? ==> |t.reply.value| == |subjects|
                                && forall i :: 0 <= i < |subjects| ==> t.reply.value[i].subject == subjects[i])
  {
    hide InvitesInv, IssueAll;
    var t := CreateSubjectInvitations(s, c, subjects, role, lifetime, route, required, extra, ids, now);
    if t.reply.Ok? {
      IssueAllKeeps(s.invites, subjects, Issue(c.org, role, lifetime, route, required, now), ids);
    }
  }

  /** The same subjects, one call each, every call drawing its identifiers after those before it. */
  function OneByOne(s: State, c: Context, subjects: seq<SubjectId>, role: Role, lifetime: int, route: Option<RouteId>,
                    required: bool, ids: Identifiers, now: Time): (State, Result<(seq<Grant>, nat), DecisionError>)
    decreases |subjects|
  {
    if subjects == [] then (s, Ok(([], 0)))
    else
      var (before, reply) := OneByOne(s, c, subjects[..|subjects| - 1], role, lifetime, route, required, ids, now);
      match reply
      case Err(e) => (before, Err(e))
      case Ok((grants, drawn)) =>
        var t := CreateSubjectInvitations(before, c, [subjects[|subjects| - 1]], role, lifetime, route, required, false,
                                          Later(ids, drawn), now);
        match t.reply
        case Err(e) => (t.state, Err(e))
        case Ok(one) => (t.state, Ok((grants + one, drawn + (if one != [] && one[0].token.Some? then 1 else 0))))
  }

  lemma {:induction false} LogManyKeepsMembers(a: Authority, org: OrganizationId, name: EventName, actor: Uid, n: nat,
                                               now: Time)
    ensures a.LogMany(org, name, actor, n, now).memberships == a.memberships
    ensures a.LogMany(org, name, actor, n, now).organizations == a.organizations
    ensures a.LogMany(org, name, actor, n, now).sequence == a.sequence + n
  {
    if n > 0 {
      LogManyKeepsMembers(a, org, name, actor, n - 1, now);
    }
  }

  function Worked(s: State, c: Context, draft: Draft, now: Time): State {
    s.(invites := draft.invites, authority := s.authority.LogMany(c.org, InvitationCreated, c.uid, draft.created, now))
  }

  /** A call for one subject is one turn. */
  lemma SingleCall(s: State, c: Context, subject: SubjectId, role: Role, lifetime: int, route: Option<RouteId>,
                   required: bool, ids: Identifiers, now: Time)
    requires InvitesInv(s.invites) && InputRefusal([subject], role, lifetime).None?
    requires Authorize(s, c, ManageMembers).Ok? && c.org in s.invites.schema
    ensures var t := CreateSubjectInvitations(s, c, [subject], role, lifetime, route, required, false, ids, now);
            var order := Issue(c.org, role, lifetime, route, required, now);
            var turn := IssueOne(s.invites, Draft(s.invites, [], 0), subject, order, ids);
            match turn
            case Err(e) => t == Step(s, Err(e))
            case Ok(d) =>
              && t == Step(Worked(s, c, d, now), Ok(d.grants)) && |d.grants| == 1
              && d.created == (if d.grants[0].token.Some? then 1 else 0)
  {
    hide InvitesInv, IssueOne, Authorize;
    var order := Issue(c.org, role, lifetime, route, required, now);
    var start := Draft(s.invites, [], 0);
    assert [subject][..0] == [] && [subject][|[subject]| - 1] == subject;
    assert IssueAll(s.invites, start, [], order, ids) == Ok(start);
    assert IssueAll(s.invites, start, [subject], order, ids) == IssueOne(s.invites, start, subject, order, ids);
    if IssueOne(s.invites, start, subject, order, ids).Ok? {
      SelfUntouchedOf(s.invites);
      IssueOneKeeps(s.invites, start, subject, order, ids);
    }
  }

  /** The next single call does what the next turn of the batch does. */
  lemma NextCall(s: State, c: Context, d: Draft, subject: SubjectId, role: Role, lifetime: int, route: Option<RouteId>,
                 required: bool, ids: Identifiers, now: Time)
    requires InvitesInv(s.invites) && InvitesInv(d.invites) && Untouched(s.invites, d.invites, (c.org, subject))
    requires InputRefusal([subject], role, lifetime).None?
    requires Authorize(s, c, ManageMembers).Ok? && c.org in d.invites.schema
    ensures var turn := IssueOne(s.invites, d, subject, Issue(c.org, role, lifetime, route, required, now), ids);
            var t := CreateSubjectInvitations(Worked(s, c, d, now), c, [subject], role, lifetime, route, required,
                                              false,
                                              Later(ids, d.created), now);
            match turn
            case Err(e) => t.reply == Err(e)
            case Ok(n) =>
              && t.reply.Ok? && t.state == Worked(s, c, n, now) && n.grants == d.grants + t.reply.value
              && t.reply.value != [] && n.created == d.created + (if t.reply.value[0].token.Some? then 1 else 0)
  {
    hide InvitesInv, IssueOne, CreateSubjectInvitations, Untouched;
    var order := Issue(c.org, role, lifetime, route, required, now);
    DecisionIsLocal(s.invites, d, subject, order, ids);
    TurnAlone(d, subject, order, ids);
    LogManyKeepsMembers(s.authority, c.org, InvitationCreated, c.uid, d.created, now);
    SingleCall(Worked(s, c, d, now), c, subject, role, lifetime, route, required, Later(ids, d.created), now);
    var alone := IssueOne(d.invites, Draft(d.invites, [], 0), subject, order, Later(ids, d.created));
    WorkedTwice(s, c, d, alone, if alone.Ok? then d.grants + alone.value.grants else [], now);
  }

  lemma {:induction false} PrefixIsOneByOne(s: State, c: Context, subjects: seq<SubjectId>, role: Role, lifetime: int,
                                            route: Option<RouteId>,
                                            required: bool, ids: Identifiers, now: Time)
    requires InvitesInv(s.invites) && AllDistinct(subjects) && !Privileged(role) && 60 <= lifetime <= MAX_LIFETIME
    requires Authorize(s, c, ManageMembers).Ok? && c.org in s.invites.schema
    ensures var order := Issue(c.org, role, lifetime, route, required, now);
            var batch := IssueAll(s.invites, Draft(s.invites, [], 0), subjects, order, ids);
            var (t, reply) := OneByOne(s, c, subjects, role, lifetime, route, required, ids, now);
            match batch
            case Err(e) => reply == Err(e)
            case Ok(d) => t == Worked(s, c, d, now) && reply == Ok((d.grants, d.created))
    decreases |subjects|
  {
    hide InvitesInv, IssueOne, CreateSubjectInvitations, Untouched, Authorize, Worked;
    var order, start := Issue(c.org, role, lifetime, route, required, now), Draft(s.invites, [], 0);
    if subjects == [] {
      assert Worked(s, c, start, now) == s by { NothingWorked(s, c, start, now); }
    } else {
      var rest, last := subjects[..|subjects| - 1], subjects[|subjects| - 1];
      PrefixIsOneByOne(s, c, rest, role, lifetime, route, required, ids, now);
      if IssueAll(s.invites, start, rest, order, ids).Ok? {
        var d := IssueAll(s.invites, start, rest, order, ids).value;
        assert last !in rest;
        IssueAllKeeps(s.invites, rest, order, ids);
        NextCall(s, c, d, last, role, lifetime, route, required, ids, now);
      }
    }
  }

  lemma NothingWorked(s: State, c: Context, d: Draft, now: Time)
    requires d.invites == s.invites && d.created == 0
    ensures Worked(s, c, d, now) == s
  {
  }

  lemma WorkedTwice(s: State, c: Context, d: Draft, turn: Result<Draft, DecisionError>, grants: seq<Grant>, now: Time)
    ensures turn.Ok? && turn.value.created <= 1 ==>
      Worked(Worked(s, c, d, now), c, turn.value, now)
      == Worked(s, c, Draft(turn.value.invites, grants, d.created + turn.value.created), now)
  {
    if turn.Ok? && turn.value.created == 1 {
      var a := s.authority.LogMany(c.org, InvitationCreated, c.uid, d.created, now);
      assert a.LogMany(c.org, InvitationCreated, c.uid, 1, now) == a.Log(c.org, InvitationCreated, c.uid, None, now);
    }
  }

  /** A batch succeeds exactly when one call per subject succeeds, and then with the same state and the same grants,
      although its decisions read the dictionaries as they were before the batch. */
  lemma BatchIsOneByOne(s: State, c: Context, subjects: seq<SubjectId>, role: Role, lifetime: int,
                        route: Option<RouteId>,
                        required: bool, ids: Identifiers, now: Time)
    requires InvitesInv(s.invites) && InputRefusal(subjects, role, lifetime).None?
    ensures var batch := CreateSubjectInvitations(s, c, subjects, role, lifetime, route, required, false, ids, now);
            var (t, reply) := OneByOne(s, c, subjects, role, lifetime, route, required, ids, now);
            && (batch.reply.Ok? <==> reply.Ok?)
            && (batch.reply.Ok? ==> batch.state == t && batch.reply.value == reply.value.0)
  {
    hide InvitesInv, IssueAll, OneByOne;
    if Authorize(s, c, ManageMembers).Ok? && c.org in s.invites.schema {
      var order := Issue(c.org, role, lifetime, route, required, now);
      PrefixIsOneByOne(s, c, subjects, role, lifetime, route, required, ids, now);
      if IssueAll(s.invites, Draft(s.invites, [], 0), subjects, order, ids).Ok? {
        IssueAllKeeps(s.invites, subjects, order, ids);
      }
    } else {
      UnauthorizedOneByOne(s, c, subjects, role, lifetime, route, required, ids, now);
    }
  }

  lemma {:induction false} UnauthorizedOneByOne(s: State, c: Context, subjects: seq<SubjectId>, role: Role,
                                                lifetime: int,
                                                route: Option<RouteId>, required: bool, ids: Identifiers, now: Time)
    requires subjects != [] && !(Authorize(s, c, ManageMembers).Ok? && c.org in s.invites.schema)
    ensures OneByOne(s, c, subjects, role, lifetime, route, required, ids, now).1.Err?
    decreases |subjects|
  {
    hide IssueAll, Authorize;
    if |subjects| > 1 {
      UnauthorizedOneByOne(s, c, subjects[..|subjects| - 1], role, lifetime, route, required, ids, now);
    }
  }
}
