/** What every operation keeps about memberships, owners and the audit log. */
module DecisionAuthority {
  import opened Basics
  import opened DecisionModel

  // ---- Replaying the audit log ----

  /** What the log says about one member; Broken when activations and suspensions do not alternate. */
  datatype Standing = Never | Current | Left | Broken

  function AfterEvent(was: Standing, e: AuditEvent, uid: Uid): Standing {
    if e.target != Some(uid) then was
    else
      match e.name
      case MembershipActivated => if was == Never || was == Left then Current else Broken
      case MemberSuspended => if was == Current then Left else Broken
      case _ => was
  }

  function Replay(events: seq<AuditEvent>, uid: Uid): Standing {
    if events == [] then Never else AfterEvent(Replay(events[..|events| - 1], uid), events[|events| - 1], uid)
  }

  function StandingOf(a: Authority, org: OrganizationId, uid: Uid): Standing {
    if (org, uid) !in a.memberships then Never
    else if a.memberships[(org, uid)].status == Active then Current
    else Left
  }

  /** For every organization and member, the replayed log is the stored membership. */
  ghost predicate LogTellsStanding(a: Authority) {
    forall org, uid :: Replay(a.EventsOf(org), uid) == StandingOf(a, org, uid)
  }

  lemma ReplaySnoc(events: seq<AuditEvent>, e: AuditEvent)
    ensures forall uid :: Replay(events + [e], uid) == AfterEvent(Replay(events, uid), e, uid)
  {
    assert (events + [e])[..|events|] == events;
  }

  lemma ReplayAfterLog(a: Authority, org: OrganizationId, name: EventName, actor: Uid, target: Option<Uid>, now: Time)
    ensures var b := a.Log(org, name, actor, target, now);
            && b.memberships == a.memberships && b.organizations == a.organizations
            && (forall o :: o != org ==> b.EventsOf(o) == a.EventsOf(o))
            && forall uid :: Replay(b.EventsOf(org), uid)
                             == AfterEvent(Replay(a.EventsOf(org), uid),
                                           AuditEvent(a.sequence + 1, name, actor, target, now), uid)
  {
    ReplaySnoc(a.EventsOf(org), AuditEvent(a.sequence + 1, name, actor, target, now));
  }

  // ---- Numbering ----

  predicate Recorded(audit: map<OrganizationId, seq<AuditEvent>>, id: nat) {
    exists o :: o in audit && exists i :: 0 <= i < |audit[o]| && audit[o][i].id == id
  }

  /** The ids of all stored events are exactly 1 to the sequence, each used once across all organizations. */
  ghost predicate Numbered(a: Authority) {
    && (forall o, i :: o in a.audit && 0 <= i < |a.audit[o]| ==> 1 <= a.audit[o][i].id <= a.sequence)
    && (forall id :: 1 <= id <= a.sequence ==> Recorded(a.audit, id))
    && Distinguished(a.audit)
  }

  ghost predicate Distinguished(audit: map<OrganizationId, seq<AuditEvent>>) {
    forall o, p, i, j :: o in audit && p in audit && 0 <= i < |audit[o]| && 0 <= j < |audit[p]| ==>
      audit[o][i].id == audit[p][j].id ==> o == p && i == j
  }

  lemma LogKeepsDistinguished(a: Authority, org: OrganizationId, e: AuditEvent)
    requires Distinguished(a.audit) && e.id == a.sequence + 1
    requires forall o, i :: o in a.audit && 0 <= i < |a.audit[o]| ==> a.audit[o][i].id <= a.sequence
    ensures Distinguished(a.audit[org := a.EventsOf(org) + [e]])
  {
    var b: map<OrganizationId, seq<AuditEvent>> := a.audit[org := a.EventsOf(org) + [e]];
    var n := |a.EventsOf(org)|;
    forall o: OrganizationId, p: OrganizationId, i, j | o in b && p in b && 0 <= i < |b[o]| && 0 <= j < |b[p]|
      && b[o][i].id == b[p][j].id
      ensures o == p && i == j
    {
      if !(o == org && i == n) {
        assert o in a.audit && b[o][i] == a.audit[o][i];
      }
      if !(p == org && j == n) {
        assert p in a.audit && b[p][j] == a.audit[p][j];
      }
    }
  }

  lemma LogKeepsNumbered(a: Authority, org: OrganizationId, name: EventName, actor: Uid, target: Option<Uid>, now: Time)
    requires Numbered(a)
    ensures Numbered(a.Log(org, name, actor, target, now))
  {
    hide Distinguished;
    var b := a.Log(org, name, actor, target, now);
    LogKeepsDistinguished(a, org, AuditEvent(a.sequence + 1, name, actor, target, now));
    forall id | 1 <= id <= b.sequence ensures Recorded(b.audit, id) {
      if id <= a.sequence {
        assert Recorded(a.audit, id);
        var o :| o in a.audit && exists i :: 0 <= i < |a.audit[o]| && a.audit[o][i].id == id;
        var i :| 0 <= i < |a.audit[o]| && a.audit[o][i].id == id;
        assert b.audit[o][i].id == id;
      } else {
        assert b.audit[org][|a.EventsOf(org)|].id == id;
      }
    }
  }

  // ---- The invariant ----

  predicate Rooted(a: Authority) {
    && (forall k :: k in a.memberships ==> k.0 in a.organizations)
    && (forall o :: o in a.audit ==> o in a.organizations)
  }

  predicate Owned(a: Authority) {
    forall o :: o in a.organizations ==> a.OwnedWithout(o, {})
  }

  ghost predicate AuthorityInv(a: Authority) {
    Rooted(a) && Owned(a) && LogTellsStanding(a) && Numbered(a)
  }

  // ---- Primitive steps ----

  /** An event that is about no membership. */
  lemma NoteKeeps(a: Authority, org: OrganizationId, name: EventName, actor: Uid, target: Option<Uid>, now: Time)
    requires AuthorityInv(a) && org in a.organizations
    requires name != MembershipActivated && name != MemberSuspended
    ensures AuthorityInv(a.Log(org, name, actor, target, now))
  {
    hide Numbered, Replay;
    var b := a.Log(org, name, actor, target, now);
    LogKeepsNumbered(a, org, name, actor, target, now);
    ReplayAfterLog(a, org, name, actor, target, now);
    forall o | o in b.organizations ensures b.OwnedWithout(o, {}) {
      assert a.OwnedWithout(o, {});
    }
  }

  lemma {:induction false} NotesKeep(a: Authority, org: OrganizationId, name: EventName, actor: Uid, n: nat, now: Time)
    requires AuthorityInv(a) && org in a.organizations
    requires name != MembershipActivated && name != MemberSuspended
    ensures AuthorityInv(a.LogMany(org, name, actor, n, now))
    ensures var b := a.LogMany(org, name, actor, n, now);
            b.memberships == a.memberships && b.organizations == a.organizations && b.sequence == a.sequence + n
  {
    hide AuthorityInv;
    if n > 0 {
      NotesKeep(a, org, name, actor, n - 1, now);
      NoteKeeps(a.LogMany(org, name, actor, n - 1, now), org, name, actor, None, now);
    }
  }

  /** A membership that replaces no active owner leaves every organization owned. */
  lemma WithKeepsOwned(a: Authority, org: OrganizationId, uid: Uid, m: Membership)
    requires Owned(a)
    requires m == ACTIVE_OWNER || (org, uid) !in a.memberships || a.memberships[(org, uid)] != ACTIVE_OWNER
             || a.OwnedWithout(org, {uid})
    ensures Owned(a.With(org, uid, m))
  {
    var b := a.With(org, uid, m);
    forall o | o in b.organizations ensures b.OwnedWithout(o, {}) {
      assert a.OwnedWithout(o, {});
      var k :| k in a.memberships && k.0 == o && k.1 !in {} && a.memberships[k] == ACTIVE_OWNER;
      if k == (org, uid) && m != ACTIVE_OWNER {
        var other :| other in a.memberships && other.0 == org && other.1 !in {uid}
            && a.memberships[other] == ACTIVE_OWNER;
        assert b.memberships[other] == ACTIVE_OWNER;
      } else {
        assert b.memberships[k] == ACTIVE_OWNER;
      }
    }
  }

  lemma LogKeepsOwned(a: Authority, org: OrganizationId, name: EventName, actor: Uid, target: Option<Uid>, now: Time)
    requires Owned(a)
    ensures Owned(a.Log(org, name, actor, target, now))
  {
    forall o | o in a.organizations ensures a.Log(org, name, actor, target, now).OwnedWithout(o, {}) {
      assert a.OwnedWithout(o, {});
    }
  }

  lemma ActivateKeeps(a: Authority, org: OrganizationId, uid: Uid, role: Role, now: Time)
    requires AuthorityInv(a) && org in a.organizations && !a.IsActive(org, uid)
    ensures AuthorityInv(a.Activate(org, uid, role, now))
  {
    hide Numbered, Replay, Owned;
    var b := a.With(org, uid, Membership(role, Active));
    var c := b.Log(org, InvitationAccepted, uid, Some(uid), now);
    WithKeepsOwned(a, org, uid, Membership(role, Active));
    SameLogSameNumbers(a, b);
    LogKeepsOwned(b, org, InvitationAccepted, uid, Some(uid), now);
    LogKeepsOwned(c, org, MembershipActivated, uid, Some(uid), now);
    LogKeepsNumbered(b, org, InvitationAccepted, uid, Some(uid), now);
    LogKeepsNumbered(c, org, MembershipActivated, uid, Some(uid), now);
    ReplayAfterLog(b, org, InvitationAccepted, uid, Some(uid), now);
    ReplayAfterLog(c, org, MembershipActivated, uid, Some(uid), now);
  }

  lemma SameLogSameNumbers(a: Authority, b: Authority)
    requires Numbered(a) && b.audit == a.audit && b.sequence == a.sequence
    ensures Numbered(b) && forall o :: b.EventsOf(o) == a.EventsOf(o)
  {
  }

  lemma SuspendKeeps(a: Authority, org: OrganizationId, uid: Uid, actor: Uid, now: Time)
    requires AuthorityInv(a) && a.IsActive(org, uid)
    requires a.memberships[(org, uid)].role == Owner ==> a.OwnedWithout(org, {uid})
    ensures AuthorityInv(a.Suspend(org, uid, actor, now))
  {
    hide Numbered, Replay, Owned;
    var m := a.memberships[(org, uid)].(status := Suspended);
    var b := a.With(org, uid, m);
    WithKeepsOwned(a, org, uid, m);
    SameLogSameNumbers(a, b);
    LogKeepsOwned(b, org, MemberSuspended, actor, Some(uid), now);
    LogKeepsNumbered(b, org, MemberSuspended, actor, Some(uid), now);
    ReplayAfterLog(b, org, MemberSuspended, actor, Some(uid), now);
  }

  lemma ChangeRoleKeeps(a: Authority, org: OrganizationId, uid: Uid, role: Role, actor: Uid, now: Time)
    requires AuthorityInv(a) && a.IsActive(org, uid)
    requires a.memberships[(org, uid)].role == Owner && role != Owner ==> a.OwnedWithout(org, {uid})
    ensures var changed := a.With(org, uid, a.memberships[(org, uid)].(role := role));
            AuthorityInv(changed.Log(org, MemberRoleChanged, actor, Some(uid), now))
  {
    hide Numbered, Replay, Owned;
    var m := a.memberships[(org, uid)].(role := role);
    var b := a.With(org, uid, m);
    WithKeepsOwned(a, org, uid, m);
    SameLogSameNumbers(a, b);
    LogKeepsOwned(b, org, MemberRoleChanged, actor, Some(uid), now);
    LogKeepsNumbered(b, org, MemberRoleChanged, actor, Some(uid), now);
    ReplayAfterLog(b, org, MemberRoleChanged, actor, Some(uid), now);
  }

  lemma FoundTellsStanding(a: Authority, b: Authority, org: OrganizationId, uid: Uid, now: Time)
    requires Rooted(a) && LogTellsStanding(a) && org !in a.organizations
    requires b == a.(organizations := a.organizations + {org}).With(org, uid, ACTIVE_OWNER)
    ensures LogTellsStanding(b.Log(org, OrganizationCreated, uid, None, now)
                              .Log(org, MembershipActivated, uid, Some(uid), now))
  {
    var c := b.Log(org, OrganizationCreated, uid, None, now);
    assert forall o :: b.EventsOf(o) == a.EventsOf(o);
    assert a.EventsOf(org) == [];
    ReplayAfterLog(b, org, OrganizationCreated, uid, None, now);
    ReplayAfterLog(c, org, MembershipActivated, uid, Some(uid), now);
  }

  lemma FoundKeeps(a: Authority, org: OrganizationId, uid: Uid, now: Time)
    requires AuthorityInv(a) && org !in a.organizations
    ensures AuthorityInv(a.(organizations := a.organizations + {org}).With(org, uid, ACTIVE_OWNER)
                          .Log(org, OrganizationCreated, uid, None, now)
                          .Log(org, MembershipActivated, uid, Some(uid), now))
  {
    hide Numbered, LogTellsStanding, Owned;
    var b := a.(organizations := a.organizations + {org}).With(org, uid, ACTIVE_OWNER);
    var c := b.Log(org, OrganizationCreated, uid, None, now);
    FoundIsOwned(a, org, uid);
    SameLogSameNumbers(a, b);
    LogKeepsOwned(b, org, OrganizationCreated, uid, None, now);
    LogKeepsOwned(c, org, MembershipActivated, uid, Some(uid), now);
    LogKeepsNumbered(b, org, OrganizationCreated, uid, None, now);
    LogKeepsNumbered(c, org, MembershipActivated, uid, Some(uid), now);
    FoundTellsStanding(a, b, org, uid, now);
  }

  lemma FoundIsOwned(a: Authority, org: OrganizationId, uid: Uid)
    requires Owned(a)
    ensures Owned(a.(organizations := a.organizations + {org}).With(org, uid, ACTIVE_OWNER))
  {
    var b := a.(organizations := a.organizations + {org}).With(org, uid, ACTIVE_OWNER);
    forall o | o in b.organizations ensures b.OwnedWithout(o, {}) {
      if o == org {
        assert b.memberships[(org, uid)] == ACTIVE_OWNER && (org, uid).0 == org;
      } else {
        assert a.OwnedWithout(o, {});
        var k :| k in a.memberships && k.0 == o && k.1 !in {} && a.memberships[k] == ACTIVE_OWNER;
        assert b.memberships[k] == ACTIVE_OWNER;
      }
    }
  }

  // ---- Bulk removal ----

  /** Exactly the listed members are suspended; nothing else about memberships changes. */
  predicate SuspendedExactly(a: Authority, b: Authority, org: OrganizationId, uids: seq<Uid>) {
    && b.organizations == a.organizations && b.memberships.Keys == a.memberships.Keys
    && b.sequence == a.sequence + |uids|
    && forall k :: k in a.memberships ==>
         b.memberships[k] ==
           if k.0 == org && k.1 in uids then a.memberships[k].(status := Suspended) else a.memberships[k]
  }

  /** Either no listed member is an owner, or the keeper is an active owner who is not listed. */
  predicate OwnerStays(a: Authority, org: OrganizationId, uids: seq<Uid>, keeper: Option<Uid>) {
    match keeper
    case None => forall u :: u in uids ==> (org, u) in a.memberships && a.memberships[(org, u)].role != Owner
    case Some(w) => w !in uids && (org, w) in a.memberships && a.memberships[(org, w)] == ACTIVE_OWNER
  }

  lemma SuspendOneMore(a: Authority, b: Authority, org: OrganizationId, rest: seq<Uid>, last: Uid, keeper: Option<Uid>,
                       actor: Uid, now: Time)
    requires AuthorityInv(b) && SuspendedExactly(a, b, org, rest)
    requires a.IsActive(org, last) && last !in rest && OwnerStays(a, org, rest + [last], keeper)
    ensures b.IsActive(org, last)
    ensures AuthorityInv(b.Suspend(org, last, actor, now))
    ensures SuspendedExactly(a, b.Suspend(org, last, actor, now), org, rest + [last])
  {
    hide AuthorityInv;
    assert last in rest + [last] && b.memberships[(org, last)] == a.memberships[(org, last)];
    if b.memberships[(org, last)].role == Owner {
      var k := (org, keeper.value);
      assert k in b.memberships && k.0 == org && k.1 !in {last} && b.memberships[k] == ACTIVE_OWNER;
    }
    SuspendKeeps(b, org, last, actor, now);
  }

  /** A batch of distinct active members, one of whose owners stays, is suspended exactly. */
  lemma {:induction false} SuspendAllKeeps(a: Authority, org: OrganizationId, uids: seq<Uid>, keeper: Option<Uid>,
                                           actor: Uid, now: Time)
    requires AuthorityInv(a) && OwnerStays(a, org, uids, keeper)
    requires forall u :: u in uids ==> (org, u) in a.memberships && a.IsActive(org, u)
    requires forall i, j :: 0 <= i < j < |uids| ==> uids[i] != uids[j]
    ensures AuthorityInv(SuspendAll(a, org, uids, actor, now))
    ensures SuspendedExactly(a, SuspendAll(a, org, uids, actor, now), org, uids)
    decreases |uids|
  {
    hide AuthorityInv;
    if uids != [] {
      hide SuspendedExactly;
      var rest, last := uids[..|uids| - 1], uids[|uids| - 1];
      assert rest + [last] == uids && last in uids && last !in rest;
      assert forall u :: u in rest ==> u in uids && a.IsActive(org, u);
      SuspendAllKeeps(a, org, rest, keeper, actor, now);
      SuspendOneMore(a, SuspendAll(a, org, rest, actor, now), org, rest, last, keeper, actor, now);
    }
  }

  ghost function Keeper(a: Authority, org: OrganizationId, excluded: set<Uid>): (w: Uid)
    requires a.OwnedWithout(org, excluded)
    ensures w !in excluded && (org, w) in a.memberships && a.memberships[(org, w)] == ACTIVE_OWNER
  {
    var k :| k in a.memberships && k.0 == org && k.1 !in excluded && a.memberships[k] == ACTIVE_OWNER;
    k.1
  }

  // ---- Operations ----

  lemma CreateOrganizationKeeps(s: State, uid: Uid, org: OrganizationId, now: Time)
    requires AuthorityInv(s.authority)
    ensures AuthorityInv(CreateOrganization(s, uid, org, now).state.authority)
  {
    hide AuthorityInv;
    if org !in s.authority.organizations {
      FoundKeeps(s.authority, org, uid, now);
    }
  }

  lemma UpdateMemberRoleKeeps(s: State, c: Context, uid: Uid, role: Role, now: Time)
    requires AuthorityInv(s.authority)
    ensures var t := UpdateMemberRole(s, c, uid, role, now);
            && AuthorityInv(t.state.authority) && t.state.invites == s.invites
            && (t.reply.Err? ==> t.state == s)
            && (t.reply.Ok? ==> s.authority.IsActive(c.org, uid)
                                && t.state.authority.memberships
                                  == s.authority.memberships[(c.org, uid) := Membership(role, Active)])
  {
    hide AuthorityInv;
    if UpdateMemberRole(s, c, uid, role, now).reply.Ok? {
      ChangeRoleKeeps(s.authority, c.org, uid, role, c.uid, now);
    }
  }

  lemma SuspendMemberKeeps(s: State, c: Context, uid: Uid, now: Time)
    requires AuthorityInv(s.authority)
    ensures var t := SuspendMember(s, c, uid, now);
            && AuthorityInv(t.state.authority) && t.state.invites == s.invites
            && (t.reply.Err? ==> t.state == s)
            && (t.reply.Ok? ==> s.authority.IsActive(c.org, uid) && !t.state.authority.IsActive(c.org, uid)
                                && forall k :: k != (c.org, uid) ==>
                                     (k in t.state.authority.memberships <==> k in s.authority.memberships)
                                     && (k in s.authority.memberships ==>
                                           t.state.authority.memberships[k] == s.authority.memberships[k]))
  {
    hide AuthorityInv;
    if SuspendMember(s, c, uid, now).reply.Ok? {
      SuspendKeeps(s.authority, c.org, uid, c.uid, now);
    }
  }

  /** Bulk removal suspends exactly the removed members that were active, under the same guarantees. */
  lemma ChangeGraphMembershipKeeps(s: State, c: Context, carried: seq<Uid>, removed: seq<Uid>, now: Time)
    requires AuthorityInv(s.authority)
    ensures var t := ChangeGraphMembership(s, c, carried, removed, now);
            && AuthorityInv(t.state.authority) && t.state.invites == s.invites
            && (t.reply.Err? ==> t.state == s)
            && (t.reply.Ok? ==>
                  && (forall u :: u in carried ==> t.state.authority.IsActive(c.org, u))
                  && (forall u :: u in removed ==> !t.state.authority.IsActive(c.org, u))
                  && (forall k :: k in s.authority.memberships && !(k.0 == c.org && k.1 in removed) ==>
                        k in t.state.authority.memberships
                          && t.state.authority.memberships[k] == s.authority.memberships[k]))
  {
    hide AuthorityInv, Distinct, ActiveAmong, SuspendAll;
    var t := ChangeGraphMembership(s, c, carried, removed, now);
    if t.reply.Ok? {
      var leaving := ActiveAmong(s.authority, c.org, Distinct(removed));
      var leavers := set u | u in leaving;
      var keeper :=
        if s.authority.OwnedWithout(c.org, leavers) then Some(Keeper(s.authority, c.org, leavers)) else None;
      SuspendAllKeeps(s.authority, c.org, leaving, keeper, c.uid, now);
    }
  }

  lemma OrganizationOfMember(a: Authority, org: OrganizationId, uid: Uid)
    requires AuthorityInv(a) && a.IsActive(org, uid)
    ensures org in a.organizations
  {
  }

  lemma CreateWorkspaceKeeps(s: State, c: Context, workspace: WorkspaceId, now: Time)
    requires AuthorityInv(s.authority)
    ensures AuthorityInv(CreateWorkspace(s, c, workspace, now).state.authority)
  {
    hide AuthorityInv;
    if CreateWorkspace(s, c, workspace, now).reply.Ok? {
      OrganizationOfMember(s.authority, c.org, c.uid);
      NoteKeeps(s.authority, c.org, WorkspaceCreated, c.uid, None, now);
    }
  }
}
