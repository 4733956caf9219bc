/** Whole runs of the organization repository: every sequence of calls, by anyone, with any arguments. */
module DecisionRuns {
  import opened Basics
  import opened DecisionModel
  import opened DecisionAuthority
  import opened DecisionInvitations
  import opened DecisionBatch

  datatype Call =
    | FoundCall(uid: Uid, org: OrganizationId, now: Time)
    | RoleCall(context: Context, uid: Uid, role: Role, now: Time)
    | SuspendCall(context: Context, uid: Uid, now: Time)
    | GraphCall(context: Context, carried: seq<Uid>, removed: seq<Uid>, now: Time)
    | WorkspaceCall(context: Context, workspace: WorkspaceId, now: Time)
    | InviteCall(context: Context, role: Role, lifetime: int, id: InvitationId, token: string, now: Time)
    | AcceptCall(uid: Uid, token: string, now: Time)
    | SchemaCall(context: Context, evidence: bool)
    | BatchCall(context: Context, subjects: seq<SubjectId>, role: Role, lifetime: int, route: Option<RouteId>,
                required: bool, extra: bool, ids: Identifiers, now: Time)
    | BeginCall(context: Context, grant: Grant)
    | DeliveredCall(context: Context, grant: Grant, delivered: bool)
    | JoinCall(uid: Uid, token: string, now: Time)

  function Perform(s: State, call: Call): State {
    match call
    case FoundCall(uid, org, now) => CreateOrganization(s, uid, org, now).state
    case RoleCall(c, uid, role, now) => UpdateMemberRole(s, c, uid, role, now).state
    case SuspendCall(c, uid, now) => SuspendMember(s, c, uid, now).state
    case GraphCall(c, carried, removed, now) => ChangeGraphMembership(s, c, carried, removed, now).state
    case WorkspaceCall(c, workspace, now) => CreateWorkspace(s, c, workspace, now).state
    case InviteCall(c, role, lifetime, id, token, now) => CreateInvitation(s, c, role, lifetime, id, token, now).state
    case AcceptCall(uid, token, now) => AcceptInvitation(s, uid, token, now).state
    case SchemaCall(c, evidence) => InitializeSchema(s, c, evidence).state
    case BatchCall(c, subjects, role, lifetime, route, required, extra, ids, now) =>
      CreateSubjectInvitations(s, c, subjects, role, lifetime, route, required, extra, ids, now).state
    case BeginCall(c, grant) => BeginDelivery(s, c, grant).state
    case DeliveredCall(c, grant, delivered) => RecordDelivery(s, c, grant, delivered).state
    case JoinCall(uid, token, now) => AcceptSubjectInvitation(s, uid, token, now).state
  }

  function After(calls: seq<Call>): State
    decreases |calls|
  {
    if calls == [] then EMPTY else Perform(After(calls[..|calls| - 1]), calls[|calls| - 1])
  }

  /** Every invitation belongs to a founded organization. */
  predicate Sited(s: State) {
    && (forall id :: id in s.invites.generic ==> s.invites.generic[id].org in s.authority.organizations)
    && s.invites.schema <= s.authority.organizations
  }

  ghost predicate StateInv(s: State) { AuthorityInv(s.authority) && InvitesInv(s.invites) && Sited(s) }

  // ---- Every call keeps the invariant ----

  lemma AuthorizedIsSited(s: State, c: Context, p: Permission)
    requires AuthorityInv(s.authority) && Authorize(s, c, p).Ok?
    ensures c.org in s.authority.organizations
  {
    hide LogTellsStanding, Numbered, Owned;
  }

  lemma SitedAfter(s: State, call: Call)
    requires StateInv(s)
    ensures Sited(Perform(s, call))
  {
    hide AuthorityInv, InvitesInv, Authorize, Relation, IssueAll, SuspendAll, Distinct, ActiveAmong, GrantedRecord,
         CreateSubjectInvitations, Invites.IsFresh;
    if call.InviteCall? || call.SchemaCall? {
      if Authorize(s, call.context, ManageMembers).Ok? {
        AuthorizedIsSited(s, call.context, ManageMembers);
      }
    } else if call.BatchCall? {
      SitedAfterBatch(s, call);
    } else if call.GraphCall? {
      ChangeGraphMembershipKeeps(s, call.context, call.carried, call.removed, call.now);
      GraphKeepsOrganizations(s, call.context, call.carried, call.removed, call.now);
    }
  }

  lemma {:induction false} SuspendAllKeepsOrganizations(a: Authority, org: OrganizationId, uids: seq<Uid>, actor: Uid,
                                                        now: Time)
    requires forall u :: u in uids ==> (org, u) in a.memberships
    ensures SuspendAll(a, org, uids, actor, now).organizations == a.organizations
    decreases |uids|
  {
    if uids != [] {
      SuspendAllKeepsOrganizations(a, org, uids[..|uids| - 1], actor, now);
    }
  }

  lemma GraphKeepsOrganizations(s: State, c: Context, carried: seq<Uid>, removed: seq<Uid>, now: Time)
    ensures ChangeGraphMembership(s, c, carried, removed, now).state.authority.organizations
            == s.authority.organizations
  {
    hide SuspendAll, Distinct, ActiveAmong;
    var leaving := ActiveAmong(s.authority, c.org, Distinct(removed));
    SuspendAllKeepsOrganizations(s.authority, c.org, leaving, c.uid, now);
  }

  lemma SitedAfterBatch(s: State, call: Call)
    requires StateInv(s) && call.BatchCall?
    ensures Sited(Perform(s, call))
  {
    hide AuthorityInv, InvitesInv, IssueAll, Authorize, InputRefusal;
    var order := Issue(call.context.org, call.role, call.lifetime, call.route, call.required, call.now);
    var work := IssueAll(s.invites, Draft(s.invites, [], 0), call.subjects, order, call.ids);
    if work.Ok? {
      BatchKeepsGeneric(s.invites, Draft(s.invites, [], 0), call.subjects, order, call.ids);
      LogManyKeepsMembers(s.authority, call.context.org, InvitationCreated, call.context.uid, work.value.created,
                          call.now);
    }
  }

  lemma {:induction false} BatchKeepsGeneric(stored: Invites, draft: Draft, subjects: seq<SubjectId>, order: Issue,
                                             ids: Identifiers)
    ensures var work := IssueAll(stored, draft, subjects, order, ids);
            work.Ok? ==>
              work.value.invites.generic == draft.invites.generic && work.value.invites.schema == draft.invites.schema
    decreases |subjects|
  {
    hide Relation, Reusable, Replaceable, Compatible, Invites.IsFresh;
    if subjects != [] {
      BatchKeepsGeneric(stored, draft, subjects[..|subjects| - 1], order, ids);
    }
  }

  lemma PerformKeepsInvites(s: State, call: Call)
    requires StateInv(s)
    ensures InvitesInv(Perform(s, call).invites)
  {
    hide AuthorityInv, InvitesInv, Sited, InitializeSchema, CreateInvitation, AcceptInvitation,
         CreateSubjectInvitations, BeginDelivery, RecordDelivery, AcceptSubjectInvitation, SuspendAll, Distinct,
         ActiveAmong;
    match call
    case InviteCall(c, role, lifetime, id, token, now) => CreateInvitationKeeps(s, c, role, lifetime, id, token, now);
    case AcceptCall(uid, token, now) => AcceptInvitationKeeps(s, uid, token, now);
    case SchemaCall(c, evidence) => InitializeKeeps(s, c, evidence);
    case BatchCall(c, subjects, role, lifetime, route, required, extra, ids, now) =>
      CreateSubjectInvitationsKeeps(s, c, subjects, role, lifetime, route, required, extra, ids, now);
    case BeginCall(c, grant) => DeliveryKeeps(s, c, grant, true);
    case DeliveredCall(c, grant, delivered) => DeliveryKeeps(s, c, grant, delivered);
    case JoinCall(uid, token, now) => AcceptSubjectKeeps(s, uid, token, now);
    case _ =>
  }

  lemma GenericAcceptKeepsAuthority(s: State, uid: Uid, token: string, now: Time)
    requires StateInv(s)
    ensures AuthorityInv(AcceptInvitation(s, uid, token, now).state.authority)
  {
    hide AuthorityInv, InvitesInv;
    if AcceptInvitation(s, uid, token, now).reply.Ok? {
      var r := s.invites.generic[GenericMatch(s.invites, TokenDigest(token).value, now).value];
      ActivateKeeps(s.authority, r.org, uid, r.role, now);
    }
  }

  lemma SubjectAcceptKeepsAuthority(s: State, uid: Uid, token: string, now: Time)
    requires StateInv(s)
    ensures AuthorityInv(AcceptSubjectInvitation(s, uid, token, now).state.authority)
  {
    hide AuthorityInv, InvitesInv, Relation;
    if AcceptSubjectInvitation(s, uid, token, now).reply.Ok? {
      var r := s.invites.subjects[SubjectMatch(s, uid, TokenDigest(token).value, now).value];
      ActivateKeeps(s.authority, r.org, uid, r.role, now);
    }
  }

  lemma PerformKeepsAuthority(s: State, call: Call)
    requires StateInv(s)
    ensures AuthorityInv(Perform(s, call).authority)
  {
    hide AuthorityInv, InvitesInv, Sited, CreateOrganization, UpdateMemberRole, SuspendMember, ChangeGraphMembership,
         CreateWorkspace, AcceptInvitation, AcceptSubjectInvitation, Relation, IssueAll, Invites.IsFresh, GrantedRecord,
         Authorize, InputRefusal;
    match call
    case FoundCall(uid, org, now) => CreateOrganizationKeeps(s, uid, org, now);
    case RoleCall(c, uid, role, now) => UpdateMemberRoleKeeps(s, c, uid, role, now);
    case SuspendCall(c, uid, now) => SuspendMemberKeeps(s, c, uid, now);
    case GraphCall(c, carried, removed, now) => ChangeGraphMembershipKeeps(s, c, carried, removed, now);
    case WorkspaceCall(c, workspace, now) => CreateWorkspaceKeeps(s, c, workspace, now);
    case AcceptCall(uid, token, now) => GenericAcceptKeepsAuthority(s, uid, token, now);
    case JoinCall(uid, token, now) => SubjectAcceptKeepsAuthority(s, uid, token, now);
    case InviteCall(c, role, lifetime, id, token, now) =>
      if Authorize(s, c, ManageMembers).Ok? {
        AuthorizedIsSited(s, c, ManageMembers);
        NoteKeeps(s.authority, c.org, InvitationCreated, c.uid, None, now);
      }
    case BatchCall(c, subjects, role, lifetime, route, required, extra, ids, now) =>
      if Authorize(s, c, ManageMembers).Ok? {
        AuthorizedIsSited(s, c, ManageMembers);
        var order := Issue(c.org, role, lifetime, route, required, now);
        var work := IssueAll(s.invites, Draft(s.invites, [], 0), subjects, order, ids);
        NotesKeep(s.authority, c.org, InvitationCreated, c.uid, if work.Ok? then work.value.created else 0, now);
      }
    case _ =>
  }

  lemma CallKeepsInv(s: State, call: Call)
    requires StateInv(s)
    ensures StateInv(Perform(s, call))
  {
    hide AuthorityInv, InvitesInv, Sited, Perform;
    PerformKeepsAuthority(s, call);
    PerformKeepsInvites(s, call);
    SitedAfter(s, call);
  }

  lemma {:induction false} RunKeepsInv(calls: seq<Call>)
    ensures StateInv(After(calls))
    decreases |calls|
  {
    hide StateInv, Perform;
    if calls == [] {
      EmptyIsOk();
    } else {
      RunKeepsInv(calls[..|calls| - 1]);
      CallKeepsInv(After(calls[..|calls| - 1]), calls[|calls| - 1]);
    }
  }

  lemma EmptyIsOk()
    ensures StateInv(EMPTY)
  {
  }

  // ---- Theorems about members ----

  /** Replaying the log of an organization rebuilds every membership: activations and suspensions alternate and the last
      one decides; and the ids of all events are exactly 1 to the sequence, each used once. */
  lemma LogRebuildsMemberships(calls: seq<Call>, org: OrganizationId, uid: Uid)
    ensures var a := After(calls).authority;
            && Replay(a.EventsOf(org), uid) == StandingOf(a, org, uid) && Replay(a.EventsOf(org), uid) != Broken
            && Numbered(a)
  {
    hide InvitesInv, Sited, Numbered;
    RunKeepsInv(calls);
  }

  /** Every organization always has an active owner. */
  lemma OrganizationsStayOwned(calls: seq<Call>, org: OrganizationId)
    ensures var a := After(calls).authority;
            org in a.organizations ==> exists k :: k in a.memberships && k.0 == org && a.memberships[k] == ACTIVE_OWNER
  {
    hide InvitesInv, Sited, Numbered, LogTellsStanding;
    RunKeepsInv(calls);
    var a := After(calls).authority;
    if org in a.organizations {
      assert a.OwnedWithout(org, {});
    }
  }

  /** A membership becomes an active owner's or administrator's. */
  predicate GrantsPrivilege(s: State, t: State, k: MemberKey) {
    && k in t.authority.memberships && t.authority.memberships[k].status == Active
    && Privileged(t.authority.memberships[k].role)
    && !(k in s.authority.memberships && s.authority.memberships[k] == t.authority.memberships[k])
  }

  /** An active owner's membership is not what it was. */
  predicate AltersOwner(s: State, t: State, k: MemberKey) {
    && k in s.authority.memberships && s.authority.memberships[k] == ACTIVE_OWNER
    && !(k in t.authority.memberships && t.authority.memberships[k] == ACTIVE_OWNER)
  }

  /** The call is made under the context of an active owner of the organization. */
  predicate OwnersCall(s: State, call: Call, org: OrganizationId) {
    && !call.FoundCall? && !call.AcceptCall? && !call.JoinCall?
    && call.context.org == org
    && (org, call.context.uid) in s.authority.memberships
    && s.authority.memberships[(org, call.context.uid)] == ACTIVE_OWNER
  }

  /** Only founding, for the founder, or an active owner's call grants OWNER or ADMIN or alters an active owner. */
  lemma OnlyOwnersGrant(s: State, call: Call, k: MemberKey)
    requires StateInv(s)
    requires GrantsPrivilege(s, Perform(s, call), k) || AltersOwner(s, Perform(s, call), k)
    ensures OwnersCall(s, call, k.0)
            || (call.FoundCall? && k == (call.org, call.uid) && call.org !in s.authority.organizations)
  {
    hide AuthorityInv, InvitesInv, Sited, Relation, IssueAll, SuspendAll, Distinct, ActiveAmong, Invites.IsFresh,
         GrantedRecord, ChangeGraphMembership, CreateSubjectInvitations, AcceptInvitation, AcceptSubjectInvitation,
         InitializeSchema;
    if call.AcceptCall? {
      GenericJoinIsPlain(s, call.uid, call.token, call.now, k);
    } else if call.JoinCall? {
      SubjectJoinIsPlain(s, call.uid, call.token, call.now, k);
    } else if call.GraphCall? {
      GraphOnlySuspends(s, call, k);
    } else if call.BatchCall? {
      BatchKeepsMembers(s, call);
    } else if call.SchemaCall? {
      SchemaKeepsMembers(s, call.context, call.evidence);
    } else if call.FoundCall? {
      FoundedIsNew(s.authority, call.org, call.uid);
    }
  }

  lemma FoundedIsNew(a: Authority, org: OrganizationId, uid: Uid)
    requires AuthorityInv(a)
    ensures org !in a.organizations ==> (org, uid) !in a.memberships
  {
    hide Numbered, LogTellsStanding, Owned;
  }

  lemma SchemaKeepsMembers(s: State, c: Context, evidence: bool)
    ensures InitializeSchema(s, c, evidence).state.authority == s.authority
  {
  }

  lemma BatchKeepsMembers(s: State, call: Call)
    requires call.BatchCall?
    ensures Perform(s, call).authority.memberships == s.authority.memberships
  {
    hide IssueAll, Authorize, InputRefusal;
    var c := call.context;
    var order := Issue(c.org, call.role, call.lifetime, call.route, call.required, call.now);
    var work := IssueAll(s.invites, Draft(s.invites, [], 0), call.subjects, order, call.ids);
    LogManyKeepsMembers(s.authority, c.org, InvitationCreated, c.uid, if work.Ok? then work.value.created else 0,
                        call.now);
  }

  lemma GenericJoinIsPlain(s: State, uid: Uid, token: string, now: Time, k: MemberKey)
    requires StateInv(s)
    ensures var t := AcceptInvitation(s, uid, token, now).state; !GrantsPrivilege(s, t, k) && !AltersOwner(s, t, k)
  {
    hide AuthorityInv, Sited, SubjectsOk, ActiveOk, SubjectsIndexed, IndexResolves;
  }

  lemma SubjectJoinIsPlain(s: State, uid: Uid, token: string, now: Time, k: MemberKey)
    ensures var t := AcceptSubjectInvitation(s, uid, token, now).state;
            !GrantsPrivilege(s, t, k) && !AltersOwner(s, t, k)
  {
    hide Relation;
  }

  lemma GraphOnlySuspends(s: State, call: Call, k: MemberKey)
    requires StateInv(s) && call.GraphCall?
    ensures !GrantsPrivilege(s, Perform(s, call), k)
    ensures AltersOwner(s, Perform(s, call), k) ==> OwnersCall(s, call, k.0)
  {
    hide AuthorityInv, InvitesInv, Sited, Distinct, ActiveAmong, SuspendAll;
    var c := call.context;
    var t := ChangeGraphMembership(s, c, call.carried, call.removed, call.now);
    if t.reply.Ok? {
      var leaving := ActiveAmong(s.authority, c.org, Distinct(call.removed));
      var leavers := set u | u in leaving;
      var keeper :=
        if s.authority.OwnedWithout(c.org, leavers) then Some(Keeper(s.authority, c.org, leavers)) else None;
      SuspendAllKeeps(s.authority, c.org, leaving, keeper, c.uid, call.now);
    }
  }

  /** A generic token, once accepted, has made its bearer a member with exactly the invited role, and is spent. */
  lemma AcceptedRoleIsInvited(s: State, uid: Uid, token: string, now: Time, again: Uid, later: Time)
    requires StateInv(s) && AcceptInvitation(s, uid, token, now).reply.Ok?
    ensures var t := AcceptInvitation(s, uid, token, now).state;
            && (exists id :: id in s.invites.generic && s.invites.generic[id].digest == DigestOf(token)
                  && s.invites.generic[id].status == Open && now < s.invites.generic[id].expiresAt
                  && t.authority.memberships
                     == s.authority.memberships[(s.invites.generic[id].org, uid) :=
                                                Membership(s.invites.generic[id].role, Active)])
            && AcceptInvitation(t, again, token, later) == Step(t, Err(InvitationUnavailable))
  {
    hide AuthorityInv, InvitesInv, Sited, GenericMatch;
    var id := GenericMatch(s.invites, DigestOf(token), now).value;
    MatchIsOpen(s.invites, DigestOf(token), now);
    var t := AcceptInvitation(s, uid, token, now).state;
    AcceptInvitationKeeps(s, uid, token, now);
    GenericTokenOpens(t.invites, id, later);
  }

  lemma MatchIsOpen(inv: Invites, d: Digest<string>, now: Time)
    requires GenericMatch(inv, d, now).Some?
    ensures var id := GenericMatch(inv, d, now).value;
            id in inv.generic && inv.generic[id].digest == d && inv.generic[id].status == Open
              && now < inv.generic[id].expiresAt
  {
    var i := inv.index[d].invitation;
    assert i in (set id | id in inv.generic && inv.generic[id].digest == d);
  }

  /** A subject token likewise: the bearer gets the invited role, the subject has no open invitation left, and the token
      is spent. */
  lemma JoinedRoleIsInvited(s: State, uid: Uid, token: string, now: Time, again: Uid, later: Time)
    requires StateInv(s) && AcceptSubjectInvitation(s, uid, token, now).reply.Ok?
    ensures var t := AcceptSubjectInvitation(s, uid, token, now).state;
            && (exists id :: id in s.invites.subjects && s.invites.subjects[id].digest == DigestOf(token)
                  && s.invites.subjects[id].status == Open && s.invites.subjects[id].delivery == Delivered
                  && now < s.invites.subjects[id].expiresAt
                  && (s.invites.subjects[id].org, s.invites.subjects[id].subject) !in t.invites.active
                  && t.authority.memberships
                     == s.authority.memberships[(s.invites.subjects[id].org, uid) :=
                                                Membership(s.invites.subjects[id].role, Active)])
            && AcceptSubjectInvitation(t, again, token, later) == Step(t, Err(InvitationUnavailable))
  {
    hide AuthorityInv, InvitesInv, Sited, SubjectMatch;
    var id := SubjectMatch(s, uid, DigestOf(token), now).value;
    SubjectMatchIsOpen(s, uid, DigestOf(token), now);
    var t := AcceptSubjectInvitation(s, uid, token, now).state;
    AcceptSubjectKeeps(s, uid, token, now);
    SubjectTokenOpens(t, id, again, later);
  }

  lemma SubjectMatchIsOpen(s: State, uid: Uid, d: Digest<string>, now: Time)
    requires SubjectMatch(s, uid, d, now).Some?
    ensures var id := SubjectMatch(s, uid, d, now).value;
            && id in s.invites.subjects && s.invites.subjects[id].digest == d && s.invites.subjects[id].status == Open
            && s.invites.subjects[id].delivery == Delivered && now < s.invites.subjects[id].expiresAt
  {
    hide Relation;
    var id := s.invites.index[d].invitation;
    assert id in (set k | k in s.invites.subjects && s.invites.subjects[k].digest == d);
  }

  // ---- Theorems about invitations ----

  function RecordIn(s: State, id: InvitationId): Option<SubjectRecord> {
    if id in s.invites.subjects then Some(s.invites.subjects[id]) else None
  }

  /** How one subject record may move in one call. */
  predicate Moves(x: Option<SubjectRecord>, y: Option<SubjectRecord>) {
    match (x, y)
    case (None, None) => true
    case (Some(_), None) => false
    case (None, Some(r)) => r.status == Open && (r.delivery == NotDelivered || r.delivery == Pending)
    case (Some(p), Some(r)) =>
      || r == p
      || (p.status == Open && p.delivery == Pending && r == p.(delivery := Sending))
      || (p.status == Open && p.delivery == Sending
          && (r == p.(delivery := Delivered) || r == p.(delivery := DeliveryFailed)))
      || (p.status == Open && p.delivery != Sending && r == p.(status := Revoked))
      || (p.status == Open && p.delivery == Delivered && r == p.(status := Accepted))
  }

  /** In a batch a stored record stays or is revoked, and only a record that is not being sent. */
  predicate BatchMoves(stored: Invites, next: Invites, id: InvitationId) {
    && (id in stored.subjects ==>
          && id in next.subjects
          && var p := stored.subjects[id];
             next.subjects[id] == p
               || (p.status == Open && p.delivery != Sending && next.subjects[id] == p.(status := Revoked)))
    && (id !in stored.subjects && id in next.subjects ==>
          next.subjects[id].status == Open
            && (next.subjects[id].delivery == NotDelivered || next.subjects[id].delivery == Pending))
  }

  lemma TurnMoves(stored: Invites, draft: Draft, subject: SubjectId, order: Issue, ids: Identifiers, id: InvitationId)
    requires InvitesInv(stored) && InvitesInv(draft.invites) && Untouched(stored, draft.invites, (order.org, subject))
    requires BatchMoves(stored, draft.invites, id) && IssueOne(stored, draft, subject, order, ids).Ok?
    ensures BatchMoves(stored, IssueOne(stored, draft, subject, order, ids).value.invites, id)
  {
    hide InvitesInv, Relation, RecordOk, Invites.OpenFor, Compatible, Replaceable;
    SameRelation(stored, draft.invites, order.org, subject);
    RelationNeverRaises(stored, order.org, subject);
  }

  lemma {:induction false} BatchMovesAll(stored: Invites, subjects: seq<SubjectId>, order: Issue, ids: Identifiers,
                                         id: InvitationId)
    requires InvitesInv(stored) && order.org in stored.schema && !Privileged(order.role) && AllDistinct(subjects)
    requires IssueAll(stored, Draft(stored, [], 0), subjects, order, ids).Ok?
    ensures BatchMoves(stored, IssueAll(stored, Draft(stored, [], 0), subjects, order, ids).value.invites, id)
    decreases |subjects|
  {
    hide InvitesInv, IssueOne, Untouched, BatchMoves;
    if subjects == [] {
      assert BatchMoves(stored, stored, id) by { NoMove(stored, id); }
    } else {
      var rest, last := subjects[..|subjects| - 1], subjects[|subjects| - 1];
      assert last !in rest;
      BatchMovesAll(stored, rest, order, ids, id);
      IssueAllKeeps(stored, rest, order, ids);
      TurnMoves(stored, IssueAll(stored, Draft(stored, [], 0), rest, order, ids).value, last, order, ids, id);
    }
  }

  lemma NoMove(stored: Invites, id: InvitationId)
    ensures BatchMoves(stored, stored, id)
  {
  }

  lemma BatchCallMoves(s: State, call: Call, id: InvitationId)
    requires InvitesInv(s.invites) && call.BatchCall?
    ensures Moves(RecordIn(s, id), RecordIn(Perform(s, call), id))
  {
    hide InvitesInv, IssueAll, Authorize;
    var order := Issue(call.context.org, call.role, call.lifetime, call.route, call.required, call.now);
    if InputRefusal(call.subjects, call.role, call.lifetime).None? && call.context.org in s.invites.schema
       && IssueAll(s.invites, Draft(s.invites, [], 0), call.subjects, order, call.ids).Ok? {
      BatchMovesAll(s.invites, call.subjects, order, call.ids, id);
    }
  }

  lemma DeliveryCallMoves(s: State, c: Context, grant: Grant, delivered: bool, id: InvitationId)
    requires InvitesInv(s.invites)
    ensures Moves(RecordIn(s, id), RecordIn(BeginDelivery(s, c, grant).state, id))
    ensures Moves(RecordIn(s, id), RecordIn(RecordDelivery(s, c, grant, delivered).state, id))
  {
    hide InvitesInv, Relation, RecordOk, Invites.OpenFor, Authorize;
    RelationNeverRaises(s.invites, c.org, grant.subject);
  }

  /** Every call moves every subject record along the delivery path only; a closed record never moves again. */
  lemma RecordsMove(s: State, call: Call, id: InvitationId)
    requires StateInv(s)
    ensures Moves(RecordIn(s, id), RecordIn(Perform(s, call), id))
  {
    hide AuthorityInv, InvitesInv, Sited, IssueAll, CreateSubjectInvitations, BeginDelivery, RecordDelivery,
         Invites.IsFresh, Authorize, GenericMatch, SuspendAll, Distinct, ActiveAmong, Relation;
    if call.BatchCall? {
      BatchCallMoves(s, call, id);
    } else if call.BeginCall? {
      DeliveryCallMoves(s, call.context, call.grant, true, id);
    } else if call.DeliveredCall? {
      DeliveryCallMoves(s, call.context, call.grant, call.delivered, id);
    }
  }

  predicate StandsAt(calls: seq<Call>, id: InvitationId, delivery: Delivery) {
    var r := RecordIn(After(calls), id);
    r.Some? && r.value.delivery == delivery && r.value.status == Open
  }

  /** The step before the last. */
  lemma LastMove(calls: seq<Call>, id: InvitationId)
    requires calls != []
    ensures Moves(RecordIn(After(calls[..|calls| - 1]), id), RecordIn(After(calls), id))
    ensures forall r :: RecordIn(After(calls[..|calls| - 1]), id) == Some(r) ==> RecordOk(r)
  {
    hide AuthorityInv, IndexOk, ActiveOk, LinkOk, Perform, Moves, RecordOk;
    RunKeepsInv(calls[..|calls| - 1]);
    RecordsMove(After(calls[..|calls| - 1]), calls[|calls| - 1], id);
  }

  lemma {:induction false} SendingWasPending(calls: seq<Call>, id: InvitationId) returns (i: nat)
    requires StandsAt(calls, id, Sending)
    ensures i < |calls| && StandsAt(calls[..i], id, Pending)
    decreases |calls|
  {
    hide Perform;
    LastMove(calls, id);
    var before := calls[..|calls| - 1];
    if StandsAt(before, id, Sending) {
      i := SendingWasPending(before, id);
      assert before[..i] == calls[..i];
    } else {
      i := |calls| - 1;
    }
  }

  lemma {:induction false} DeliveredWasSending(calls: seq<Call>, id: InvitationId) returns (j: nat)
    requires StandsAt(calls, id, Delivered)
    ensures j < |calls| && StandsAt(calls[..j], id, Sending)
    decreases |calls|
  {
    hide Perform;
    LastMove(calls, id);
    var before := calls[..|calls| - 1];
    if StandsAt(before, id, Delivered) {
      j := DeliveredWasSending(before, id);
      assert before[..j] == calls[..j];
    } else {
      j := |calls| - 1;
    }
  }

  lemma {:induction false} AcceptedWasDelivered(calls: seq<Call>, id: InvitationId) returns (k: nat)
    requires RecordIn(After(calls), id).Some? && RecordIn(After(calls), id).value.status == Accepted
    ensures k < |calls| && StandsAt(calls[..k], id, Delivered)
    decreases |calls|
  {
    hide Perform;
    LastMove(calls, id);
    var before := calls[..|calls| - 1];
    if RecordIn(After(before), id).Some? && RecordIn(After(before), id).value.status == Accepted {
      k := AcceptedWasDelivered(before, id);
      assert before[..k] == calls[..k];
    } else {
      k := |calls| - 1;
    }
  }

  /** Every accepted subject invitation was pending, then sending, then delivered, in this order. */
  lemma AcceptedPassedDelivery(calls: seq<Call>, id: InvitationId)
    requires RecordIn(After(calls), id).Some? && RecordIn(After(calls), id).value.status == Accepted
    ensures exists i, j, k :: 0 <= i < j < k < |calls|
              && StandsAt(calls[..i], id, Pending) && StandsAt(calls[..j], id, Sending)
              && StandsAt(calls[..k], id, Delivered)
  {
    hide After, StandsAt, RecordIn;
    var k := AcceptedWasDelivered(calls, id);
    var j := DeliveredWasSending(calls[..k], id);
    assert calls[..k][..j] == calls[..j];
    var i := SendingWasPending(calls[..j], id);
    assert calls[..j][..i] == calls[..i];
  }

  /** In every reachable state the active-subject lookup never raises and every retry chain is bounded. */
  lemma ReachableInvitationsAgree(calls: seq<Call>, org: OrganizationId, subject: SubjectId, id: InvitationId)
    ensures var inv := After(calls).invites;
            && InvitesInv(inv) && Relation(inv, org, subject).Ok?
            && (id in inv.subjects ==> |Chain(inv.subjects, id)| <= 101)
  {
    hide AuthorityInv, SubjectsOk, IndexOk, ActiveOk;
    RunKeepsInv(calls);
    var inv := After(calls).invites;
    RelationNeverRaises(inv, org, subject);
    if id in inv.subjects {
      AllLinked(inv);
      ChainIsBounded(inv, id);
    }
  }

  lemma AllLinked(inv: Invites)
    requires InvitesInv(inv)
    ensures forall k :: k in inv.subjects ==> LinkOk(inv.subjects, inv.subjects[k])
  {
  }
}
