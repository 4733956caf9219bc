/** The locked reference repository of organizations: its dictionaries, its loops and its guarded publication. */
module InMemoryDecisionRepository {
  import opened Basics
  import opened DecisionModel
  import opened DecisionInvitations
  import opened DecisionBatch
  import opened DecisionRuns

  /** What the caller's own mutation prepares elsewhere; one value stands for the whole organization graph. */
  type Graph = string

  class GraphStore {
    var graph: Graph

    constructor (graph: Graph)
      ensures this.graph == graph
    {
      this.graph := graph;
    }
  }

  // ---- Prepared replacements ----

  datatype Replacement =
    | GraphRef(priorGraph: Graph, graph: Graph)
    | RecordsRef(priorRecords: map<InvitationId, SubjectRecord>, records: map<InvitationId, SubjectRecord>)
    | ActiveRef(priorActive: map<SubjectKey, InvitationId>, active: map<SubjectKey, InvitationId>)
    | IndexRef(priorIndex: map<Digest<string>, IndexRecord>, index: map<Digest<string>, IndexRecord>)
    | MembershipsRef(priorMemberships: map<MemberKey, Membership>, memberships: map<MemberKey, Membership>)
    | AuditRef(priorAudit: map<OrganizationId, seq<AuditEvent>>, audit: map<OrganizationId, seq<AuditEvent>>)
    | SequenceRef(priorSequence: nat, sequence: nat)

  /** The repository and the graph together, as one value. */
  datatype Everything = Everything(state: State, graph: Graph)

  function Install(e: Everything, r: Replacement): Everything {
    var s := e.state;
    match r
    case GraphRef(_, g) => e.(graph := g)
    case RecordsRef(_, m) => e.(state := s.(invites := s.invites.(subjects := m)))
    case ActiveRef(_, m) => e.(state := s.(invites := s.invites.(active := m)))
    case IndexRef(_, m) => e.(state := s.(invites := s.invites.(index := m)))
    case MembershipsRef(_, m) => e.(state := s.(authority := s.authority.(memberships := m)))
    case AuditRef(_, m) => e.(state := s.(authority := s.authority.(audit := m)))
    case SequenceRef(_, n) => e.(state := s.(authority := s.authority.(sequence := n)))
  }

  function Reversal(r: Replacement): Replacement {
    match r
    case GraphRef(p, g) => GraphRef(g, p)
    case RecordsRef(p, m) => RecordsRef(m, p)
    case ActiveRef(p, m) => ActiveRef(m, p)
    case IndexRef(p, m) => IndexRef(m, p)
    case MembershipsRef(p, m) => MembershipsRef(m, p)
    case AuditRef(p, m) => AuditRef(m, p)
    case SequenceRef(p, n) => SequenceRef(n, p)
  }

  function InstallAll(e: Everything, rs: seq<Replacement>): Everything
    decreases |rs|
  {
    if rs == [] then e else Install(InstallAll(e, rs[..|rs| - 1]), rs[|rs| - 1])
  }

  /** The stored value still is the one the replacement was prepared from. */
  predicate IsPrior(e: Everything, r: Replacement) { Install(e, Reversal(r)) == e }

  /** The replacements set the same attribute. */
  predicate SameAttribute(r: Replacement, q: Replacement) {
    match r
    case GraphRef(_, _) => q.GraphRef?
    case RecordsRef(_, _) => q.RecordsRef?
    case ActiveRef(_, _) => q.ActiveRef?
    case IndexRef(_, _) => q.IndexRef?
    case MembershipsRef(_, _) => q.MembershipsRef?
    case AuditRef(_, _) => q.AuditRef?
    case SequenceRef(_, _) => q.SequenceRef?
  }

  /** The attribute of r has the same value in both. */
  predicate Agrees(d: Everything, e: Everything, r: Replacement) {
    match r
    case GraphRef(_, _) => d.graph == e.graph
    case RecordsRef(_, _) => d.state.invites.subjects == e.state.invites.subjects
    case ActiveRef(_, _) => d.state.invites.active == e.state.invites.active
    case IndexRef(_, _) => d.state.invites.index == e.state.invites.index
    case MembershipsRef(_, _) => d.state.authority.memberships == e.state.authority.memberships
    case AuditRef(_, _) => d.state.authority.audit == e.state.authority.audit
    case SequenceRef(_, _) => d.state.authority.sequence == e.state.authority.sequence
  }

  /** Attributes that no replacement from i on sets have their first value; nothing outside the attributes ever
      differs. */
  ghost predicate DiffersOnlyFrom(d: Everything, e: Everything, rs: seq<Replacement>, i: nat)
    requires i <= |rs|
  {
    && d.state.workspaces == e.state.workspaces
    && d.state.authority.organizations == e.state.authority.organizations
    && d.state.invites.generic == e.state.invites.generic && d.state.invites.schema == e.state.invites.schema
    && forall r: Replacement :: (forall j :: i <= j < |rs| ==> !SameAttribute(r, rs[j])) ==> Agrees(d, e, r)
  }

  lemma {:induction false} InstalledDiffer(e: Everything, rs: seq<Replacement>, k: nat)
    requires k <= |rs|
    ensures DiffersOnlyFrom(InstallAll(e, rs[..k]), e, rs, 0)
    decreases k
  {
    if k > 0 {
      InstalledDiffer(e, rs, k - 1);
      assert rs[..k][..k - 1] == rs[..k - 1];
      var before := InstallAll(e, rs[..k - 1]);
      forall r: Replacement | (forall j :: 0 <= j < |rs| ==> !SameAttribute(r, rs[j]))
        ensures Agrees(InstallAll(e, rs[..k]), e, r)
      {
        assert Agrees(before, e, r) && !SameAttribute(r, rs[k - 1]);
      }
    } else {
      assert rs[..0] == [];
    }
  }

  /** Putting one prior value back settles its attribute. */
  lemma RestoreOne(d: Everything, e: Everything, rs: seq<Replacement>, i: nat)
    requires i < |rs| && DiffersOnlyFrom(d, e, rs, i) && IsPrior(e, rs[i])
    ensures DiffersOnlyFrom(Install(d, Reversal(rs[i])), e, rs, i + 1)
  {
    var next := Install(d, Reversal(rs[i]));
    forall r: Replacement | (forall j :: i + 1 <= j < |rs| ==> !SameAttribute(r, rs[j])) ensures Agrees(next, e, r) {
      if !SameAttribute(r, rs[i]) {
        assert forall j :: i <= j < |rs| ==> !SameAttribute(r, rs[j]);
        assert Agrees(d, e, r);
      }
    }
  }

  lemma AllRestored(d: Everything, e: Everything, rs: seq<Replacement>)
    requires DiffersOnlyFrom(d, e, rs, |rs|)
    ensures d == e
  {
    assert Agrees(d, e, GraphRef("", "")) && Agrees(d, e, RecordsRef(map[], map[]))
           && Agrees(d, e, ActiveRef(map[], map[]));
    assert Agrees(d, e, IndexRef(map[], map[])) && Agrees(d, e, MembershipsRef(map[], map[]));
    assert Agrees(d, e, AuditRef(map[], map[])) && Agrees(d, e, SequenceRef(0, 0));
  }

  // ---- The caller's replacements and the repository's own ----

  /** The caller's replacements touch the graph only, so the repository's own are still current behind them. */
  lemma {:induction false} InstallMutation(e: Everything, mutation: seq<Replacement>)
    requires forall i :: 0 <= i < |mutation| ==> mutation[i].GraphRef?
    ensures InstallAll(e, mutation).state == e.state
    ensures (forall i :: 0 <= i < |mutation| ==> IsPrior(e, mutation[i])) <==>
            (forall i :: 0 <= i < |mutation| ==> mutation[i].priorGraph == e.graph)
    decreases |mutation|
  {
    forall i | 0 <= i < |mutation| ensures IsPrior(e, mutation[i]) <==> mutation[i].priorGraph == e.graph {
    }
    if mutation != [] {
      InstallMutation(e, mutation[..|mutation| - 1]);
    }
  }

  lemma {:induction false} InstallSplits(e: Everything, xs: seq<Replacement>, ys: seq<Replacement>)
    ensures InstallAll(e, xs + ys) == InstallAll(InstallAll(e, xs), ys)
    decreases |ys|
  {
    if ys == [] {
      assert xs + ys == xs;
    } else {
      assert (xs + ys)[..|xs + ys| - 1] == xs + ys[..|ys| - 1];
      InstallSplits(e, xs, ys[..|ys| - 1]);
    }
  }

  lemma {:induction false} StateAlone(d: Everything, e: Everything, rs: seq<Replacement>)
    requires d.state == e.state
    ensures InstallAll(d, rs).state == InstallAll(e, rs).state
    decreases |rs|
  {
    if rs != [] {
      StateAlone(d, e, rs[..|rs| - 1]);
    }
  }

  /** The prior of a replacement is judged attribute by attribute. */
  predicate OwnRefs(e: Everything, refs: seq<Replacement>) {
    forall i :: 0 <= i < |refs| ==> !refs[i].GraphRef? && IsPrior(e, refs[i])
  }

  lemma InstallSnoc(e: Everything, rs: seq<Replacement>, r: Replacement)
    ensures InstallAll(e, rs + [r]) == Install(InstallAll(e, rs), r)
  {
    assert (rs + [r])[..|rs|] == rs;
  }

  lemma InstallThree(e: Everything, a: Replacement, b: Replacement, c: Replacement)
    ensures InstallAll(e, [a, b, c]) == Install(Install(Install(e, a), b), c)
  {
    hide Install;
    InstallSnoc(e, [], a);
    InstallSnoc(e, [a], b);
    InstallSnoc(e, [a, b], c);
    assert [] + [a] == [a] && [a] + [b] == [a, b] && [a, b] + [c] == [a, b, c];
  }

  lemma InstallSix(e: Everything, a: Replacement, b: Replacement, c: Replacement, d: Replacement, f: Replacement,
                   g: Replacement)
    ensures InstallAll(e, [a, b, c, d, f]) == Install(Install(Install(Install(Install(e, a), b), c), d), f)
    ensures InstallAll(e, [a, b, c, d, f, g])
            == Install(Install(Install(Install(Install(Install(e, a), b), c), d), f), g)
  {
    hide Install;
    InstallThree(e, a, b, c);
    InstallSnoc(e, [a, b, c], d);
    InstallSnoc(e, [a, b, c, d], f);
    InstallSnoc(e, [a, b, c, d, f], g);
    assert [a, b, c] + [d] == [a, b, c, d] && [a, b, c, d] + [f] == [a, b, c, d, f]
           && [a, b, c, d, f] + [g] == [a, b, c, d, f, g];
  }

  lemma InstallAfterMutation(e: Everything, mutation: seq<Replacement>, refs: seq<Replacement>)
    requires forall i :: 0 <= i < |mutation| ==> mutation[i].GraphRef?
    requires OwnRefs(e, refs)
    ensures InstallAll(e, mutation + refs).state == InstallAll(e, refs).state
    ensures (forall i :: 0 <= i < |mutation + refs| ==> IsPrior(e, (mutation + refs)[i])) <==>
            (forall i :: 0 <= i < |mutation| ==> mutation[i].priorGraph == e.graph)
  {
    hide IsPrior, InstallAll;
    InstallSplits(e, mutation, refs);
    InstallMutation(e, mutation);
    StateAlone(InstallAll(e, mutation), e, refs);
    var all := mutation + refs;
    assert forall i :: 0 <= i < |mutation| ==> all[i] == mutation[i];
    assert forall i :: |mutation| <= i < |all| ==> all[i] == refs[i - |mutation|];
  }

  class Repository {
    var organizations: set<OrganizationId>
    var memberships: map<MemberKey, Membership>
    var workspaces: set<(OrganizationId, WorkspaceId)>
    var invitations: map<InvitationId, GenericRecord>
    var subjectInvitations: map<InvitationId, SubjectRecord>
    var activeSubjectInvitations: map<SubjectKey, InvitationId>
    var invitationTokenIndex: map<Digest<string>, IndexRecord>
    var schemaInitialized: set<OrganizationId>
    var audit: map<OrganizationId, seq<AuditEvent>>
    var auditSequence: nat

    function Invitations(): Invites
      reads this
    {
      Invites(invitations, subjectInvitations, activeSubjectInvitations, invitationTokenIndex, schemaInitialized)
    }

    /** The invariant of every reachable state. */
    ghost predicate Valid()
      reads this
    {
      StateInv(State())
    }

    function State(): State
      reads this
    {
      DecisionModel.State(Authority(organizations, memberships, audit, auditSequence), Invitations(), workspaces)
    }

    constructor ()
      ensures State() == EMPTY && Valid()
    {
      organizations, memberships, workspaces := {}, map[], {};
      invitations, subjectInvitations, activeSubjectInvitations := map[], map[], map[];
      invitationTokenIndex, schemaInitialized, audit, auditSequence := map[], {}, map[], 0;
      new;
      EmptyIsOk();
    }

    method AppendAudit(org: OrganizationId, name: EventName, actor: Uid, target: Option<Uid>, now: Time)
      modifies this`audit, this`auditSequence
      ensures State() == old(State()).(authority := old(State()).authority.Log(org, name, actor, target, now))
    {
      auditSequence := auditSequence + 1;
      audit := audit[org :=
                     (if org in audit then audit[org] else []) + [AuditEvent(auditSequence, name, actor, target, now)]];
    }

    // ---- Publication ----

    method Set(graphs: GraphStore, r: Replacement)
      modifies this, graphs
      ensures Everything(State(), graphs.graph) == Install(old(Everything(State(), graphs.graph)), r)
    {
      match r
      case GraphRef(_, g) => graphs.graph := g;
      case RecordsRef(_, m) => subjectInvitations := m;
      case ActiveRef(_, m) => activeSubjectInvitations := m;
      case IndexRef(_, m) => invitationTokenIndex := m;
      case MembershipsRef(_, m) => memberships := m;
      case AuditRef(_, m) => audit := m;
      case SequenceRef(_, n) => auditSequence := n;
    }

    /** Sets every prepared reference, or leaves everything as it was; the setter of item failAt rejects. */
    method Publish(graphs: GraphStore, rs: seq<Replacement>, failAt: Option<nat>) returns (r: Result<(), DecisionError>)
      modifies this, graphs
      ensures var e := old(Everything(State(), graphs.graph));
              && (r.Ok? <==>
                  (forall i :: 0 <= i < |rs| ==> IsPrior(e, rs[i])) && (failAt.Some? ==> failAt.value >= |rs|))
              && (r.Ok? ==> r == Ok(()))
              && Everything(State(), graphs.graph) == if r.Ok? then InstallAll(e, rs) else e
    {
      ghost var e := Everything(State(), graphs.graph);
      if exists i :: 0 <= i < |rs|
          && !IsPrior(Everything(State(), graphs.graph), rs[i]) { return Err(MembershipUnavailable); }
      var i := 0;
      assert rs[..0] == [];
      while i < |rs|
        invariant 0 <= i <= |rs| && (failAt.Some? ==> failAt.value >= i)
        invariant Everything(State(), graphs.graph) == InstallAll(e, rs[..i])
      {
        if failAt == Some(i) {
          InstalledDiffer(e, rs, i);
          Rollback(graphs, rs, e);
          return Err(MembershipUnavailable);
        }
        assert rs[..i + 1][..i] == rs[..i];
        Set(graphs, rs[i]);
        i := i + 1;
      }
      assert rs[..|rs|] == rs;
      r := Ok(());
    }

    /** Puts every prior value back, also those never replaced. */
    method Rollback(graphs: GraphStore, rs: seq<Replacement>, ghost e: Everything)
      requires forall i :: 0 <= i < |rs| ==> IsPrior(e, rs[i])
      requires DiffersOnlyFrom(Everything(State(), graphs.graph), e, rs, 0)
      modifies this, graphs
      ensures Everything(State(), graphs.graph) == e
    {
      hide DiffersOnlyFrom, IsPrior;
      for i := 0 to |rs|
        invariant DiffersOnlyFrom(Everything(State(), graphs.graph), e, rs, i)
      {
        RestoreOne(Everything(State(), graphs.graph), e, rs, i);
        Set(graphs, Reversal(rs[i]));
      }
      AllRestored(Everything(State(), graphs.graph), e, rs);
    }

    /** The caller's replacements first, then the repository's own: all of them, or none. */
    method PublishWith(graphs: GraphStore, mutation: seq<Replacement>, refs: seq<Replacement>, failAt: Option<nat>)
      returns (r: Result<(), DecisionError>)
      requires forall i :: 0 <= i < |mutation| ==> mutation[i].GraphRef?
      requires OwnRefs(Everything(State(), graphs.graph), refs)
      modifies this, graphs
      ensures r.Ok? <==> (&& (forall i :: 0 <= i < |mutation| ==> mutation[i].priorGraph == old(graphs.graph))
                          && (failAt.Some? ==> failAt.value >= |mutation| + |refs|))
      ensures State() == if r.Ok? then InstallAll(old(Everything(State(), graphs.graph)), refs).state else old(State())
      ensures r.Ok? ==> r == Ok(())
      ensures r.Err? ==> graphs.graph == old(graphs.graph)
    {
      hide InstallAll, IsPrior, OwnRefs;
      InstallAfterMutation(Everything(State(), graphs.graph), mutation, refs);
      r := Publish(graphs, mutation + refs, failAt);
    }

    // ---- Members ----

    method CreateOrganization(uid: Uid, org: OrganizationId, now: Time) returns (r: Result<(), DecisionError>)
      requires Valid()
      modifies this
      ensures Valid()
      ensures Step(State(), r) == DecisionModel.CreateOrganization(old(State()), uid, org, now)
    {
      hide StateInv, Authority.EventsOf;
      CallKeepsInv(State(), FoundCall(uid, org, now));
      if org in organizations { return Err(OrganizationUnavailable); }
      organizations := organizations + {org};
      memberships := memberships[(org, uid) := ACTIVE_OWNER];
      AppendAudit(org, OrganizationCreated, uid, None, now);
      AppendAudit(org, MembershipActivated, uid, Some(uid), now);
      r := Ok(());
    }

    method UpdateMemberRole(c: Context, uid: Uid, role: Role, now: Time) returns (r: Result<Membership, DecisionError>)
      requires Valid()
      modifies this
      ensures Valid()
      ensures Step(State(), r) == DecisionModel.UpdateMemberRole(old(State()), c, uid, role, now)
    {
      hide StateInv, Authority.Log, Authority.OwnedWithout;
      CallKeepsInv(State(), RoleCall(c, uid, role, now));
      var current := Authorize(State(), c, ManageMembers);
      if current.Err? { return Err(current.error); }
      if current.value.role == Admin && Privileged(role) { return Err(AuthorizationDenied); }
      if (c.org, uid) !in memberships
          || memberships[(c.org, uid)].status != Active { return Err(MembershipUnavailable); }
      var member := memberships[(c.org, uid)];
      if current.value.role == Admin && member.role == Owner { return Err(AuthorizationDenied); }
      if member.role == Owner && role != Owner
          && !State().authority.OwnedWithout(c.org, {uid}) { return Err(LastOwnerRequired); }
      var updated := member.(role := role);
      memberships := memberships[(c.org, uid) := updated];
      AppendAudit(c.org, MemberRoleChanged, c.uid, Some(uid), now);
      r := Ok(updated);
    }

    method SuspendMember(c: Context, uid: Uid, now: Time) returns (r: Result<Membership, DecisionError>)
      requires Valid()
      modifies this
      ensures Valid()
      ensures Step(State(), r) == DecisionModel.SuspendMember(old(State()), c, uid, now)
    {
      hide StateInv, Authority.Log, Authority.OwnedWithout;
      CallKeepsInv(State(), SuspendCall(c, uid, now));
      var current := Authorize(State(), c, ManageMembers);
      if current.Err? { return Err(current.error); }
      if (c.org, uid) !in memberships
          || memberships[(c.org, uid)].status != Active { return Err(MembershipUnavailable); }
      var member := memberships[(c.org, uid)];
      if current.value.role == Admin && member.role == Owner { return Err(AuthorizationDenied); }
      if member.role == Owner && !State().authority.OwnedWithout(c.org, {uid}) { return Err(LastOwnerRequired); }
      memberships := memberships[(c.org, uid) := member.(status := Suspended)];
      AppendAudit(c.org, MemberSuspended, c.uid, Some(uid), now);
      r := Ok(member.(status := Suspended));
    }

    /** Each uid once, in order of first appearance. */
    method DropDuplicates(uids: seq<Uid>) returns (r: seq<Uid>)
      ensures r == Distinct(uids)
    {
      r := [];
      for i := 0 to |uids|
        invariant r == Distinct(uids[..i])
      {
        assert uids[..i + 1][..i] == uids[..i];
        if uids[i] !in r {
          r := r + [uids[i]];
        }
      }
      assert uids[..|uids|] == uids;
    }

    /** Bulk removal: everything is prepared first and published together with the caller's own replacements. */
    method ChangeGraphMembership(c: Context, carried: seq<Uid>, removed: seq<Uid>, mutation: seq<Replacement>,
                                 graphs: GraphStore,
                                 failAt: Option<nat>, now: Time) returns (r: Result<(), DecisionError>)
      requires forall i :: 0 <= i < |mutation| ==> mutation[i].GraphRef?
      requires Valid()
      modifies this, graphs
      ensures Valid()
      ensures var t := DecisionModel.ChangeGraphMembership(old(State()), c, carried, removed, now);
              if r.Ok? then Step(State(), r) == t else State() == old(State()) && graphs.graph == old(graphs.graph)
      ensures r.Ok? <==>
        && DecisionModel.ChangeGraphMembership(old(State()), c, carried, removed, now).reply.Ok?
        && (forall i :: 0 <= i < |mutation| ==> mutation[i].priorGraph == old(graphs.graph))
        && (failAt.Some? ==> failAt.value >= |mutation| + 3)
    {
      hide StateInv, ActiveAmong, Authority.OwnedWithout, Distinct, SuspendAll, InstallAll;
      CallKeepsInv(State(), GraphCall(c, carried, removed, now));
      var authorized := Authorize(State(), c, ManageMembers);
      if authorized.Err? { return Err(authorized.error); }
      if exists u :: u in carried && u in removed { return Err(MembershipUnavailable); }
      if exists u :: u in carried && !State().authority.IsActive(c.org, u) { return Err(MembershipUnavailable); }
      var once := DropDuplicates(removed);
      var leaving := ActiveAmong(State().authority, c.org, once);
      var ownerLeaves := exists u :: u in leaving && memberships[(c.org, u)].role == Owner;
      if authorized.value.role == Admin && ownerLeaves { return Err(AuthorizationDenied); }
      if ownerLeaves && !State().authority.OwnedWithout(c.org, set u | u in leaving) { return Err(LastOwnerRequired); }
      var nextMemberships, nextAudit, nextSequence := PrepareSuspensions(c, leaving, now);
      var refs :=
          [MembershipsRef(memberships, nextMemberships), AuditRef(audit, nextAudit),
           SequenceRef(auditSequence, nextSequence)];
      InstallThree(Everything(State(), graphs.graph), refs[0], refs[1], refs[2]);
      r := PublishWith(graphs, mutation, refs, failAt);
    }

    /** The three replacement values of a bulk removal, built in a loop over the leaving members. */
    method PrepareSuspensions(c: Context, leaving: seq<Uid>, now: Time)
      returns (nextMemberships: map<MemberKey, Membership>, nextAudit: map<OrganizationId, seq<AuditEvent>>,
               nextSequence: nat)
      requires forall u :: u in leaving ==> (c.org, u) in memberships
      ensures Authority(organizations, nextMemberships, nextAudit, nextSequence)
              == SuspendAll(State().authority, c.org, leaving, c.uid, now)
    {
      hide ActiveAmong, Authority.OwnedWithout, Distinct, Authority.Suspend;
      nextMemberships, nextAudit, nextSequence := memberships, audit, auditSequence;
      ghost var a := State().authority;
      for i := 0 to |leaving|
        invariant Authority(organizations, nextMemberships, nextAudit, nextSequence)
                  == SuspendAll(a, c.org, leaving[..i], c.uid, now)
      {
        var u := leaving[i];
        assert leaving[..i + 1][..i] == leaving[..i] && u in leaving;
        SuspendValue(Authority(organizations, nextMemberships, nextAudit, nextSequence), c.org, u, c.uid, now);
        nextSequence := nextSequence + 1;
        var events := if c.org in nextAudit then nextAudit[c.org] else [];
        nextAudit := nextAudit[c.org := events + [AuditEvent(nextSequence, MemberSuspended, c.uid, Some(u), now)]];
        nextMemberships := nextMemberships[(c.org, u) := nextMemberships[(c.org, u)].(status := Suspended)];
      }
      assert leaving[..|leaving|] == leaving;
    }

    // ---- Workspaces and generic invitations ----

    method CreateWorkspace(c: Context, workspace: WorkspaceId, now: Time) returns (r: Result<(), DecisionError>)
      requires Valid()
      modifies this
      ensures Valid()
      ensures Step(State(), r) == DecisionModel.CreateWorkspace(old(State()), c, workspace, now)
    {
      hide StateInv, Authority.Log;
      CallKeepsInv(State(), WorkspaceCall(c, workspace, now));
      var authorized := Authorize(State(), c, CreateWorkspaces);
      if authorized.Err? { return Err(authorized.error); }
      if (c.org, workspace) in workspaces { return Err(WorkspaceUnavailable); }
      workspaces := workspaces + {(c.org, workspace)};
      AppendAudit(c.org, WorkspaceCreated, c.uid, None, now);
      r := Ok(());
    }

    method CreateInvitation(c: Context, role: Role, lifetime: int, id: InvitationId, token: string, now: Time)
      returns (r: Result<GenericGrant, DecisionError>)
      requires Valid()
      modifies this
      ensures Valid()
      ensures Step(State(), r) == DecisionModel.CreateInvitation(old(State()), c, role, lifetime, id, token, now)
    {
      hide StateInv, Authority.Log, Invites.IsFresh, TokenDigest;
      CallKeepsInv(State(), InviteCall(c, role, lifetime, id, token, now));
      var authorized := Authorize(State(), c, ManageMembers);
      if authorized.Err? { return Err(authorized.error); }
      if Privileged(role) { return Err(AuthorizationDenied); }
      if !(0 < lifetime <= MAX_LIFETIME) { return Err(LifetimeOutOfRange); }
      var digest := TokenDigest(token);
      if digest.None? || !Invitations().IsFresh(id, digest.value) { return Err(InvitationUnavailable); }
      invitations := invitations[id := GenericRecord(c.org, role, digest.value, now + lifetime, Open)];
      invitationTokenIndex := invitationTokenIndex[digest.value := IndexRecord(GenericKind, id, c.org, None, Open)];
      AppendAudit(c.org, InvitationCreated, c.uid, None, now);
      r := Ok(GenericGrant(id, c.org, role, now + lifetime, token));
    }

    method AcceptInvitation(uid: Uid, token: string, now: Time) returns (r: Result<Membership, DecisionError>)
      requires Valid()
      modifies this
      ensures Valid()
      ensures Step(State(), r) == DecisionModel.AcceptInvitation(old(State()), uid, token, now)
    {
      hide StateInv, Authority.Log, TokenDigest;
      CallKeepsInv(State(), AcceptCall(uid, token, now));
      var digest := TokenDigest(token);
      if digest.None? { return Err(InvitationUnavailable); }
      var matching := GenericMatch(Invitations(), digest.value, now);
      if matching.None? { return Err(InvitationUnavailable); }
      var id := matching.value;
      var record := invitations[id];
      if State().authority.IsActive(record.org, uid) { return Err(InvitationUnavailable); }
      invitations := invitations[id := record.(status := Accepted)];
      invitationTokenIndex :=
        invitationTokenIndex[digest.value := invitationTokenIndex[digest.value].(status := Accepted)];
      memberships := memberships[(record.org, uid) := Membership(record.role, Active)];
      AppendAudit(record.org, InvitationAccepted, uid, Some(uid), now);
      AppendAudit(record.org, MembershipActivated, uid, Some(uid), now);
      r := Ok(Membership(record.role, Active));
    }

    // ---- Subject invitations ----

    method InitializeSubjectInvitationSchema(c: Context, graphEvidence: bool) returns (r: Result<(), DecisionError>)
      requires Valid()
      modifies this
      ensures Valid()
      ensures Step(State(), r) == InitializeSchema(old(State()), c, graphEvidence)
    {
      hide StateInv;
      CallKeepsInv(State(), SchemaCall(c, graphEvidence));
      var authorized := Authorize(State(), c, ManageMembers);
      if authorized.Err? { return Err(authorized.error); }
      var stored := (exists id :: id in subjectInvitations && subjectInvitations[id].org == c.org)
                    || (exists d :: d in invitationTokenIndex && invitationTokenIndex[d].org == c.org
                                    && invitationTokenIndex[d].kind == SubjectKind);
      if graphEvidence || stored { return Err(InvitationUnavailable); }
      schemaInitialized := schemaInitialized + {c.org};
      r := Ok(());
    }

    method BeginSubjectInvitationDelivery(c: Context, grant: Grant) returns (r: Result<Grant, DecisionError>)
      requires Valid()
      modifies this
      ensures Valid()
      ensures Step(State(), r) == BeginDelivery(old(State()), c, grant)
    {
      hide StateInv, GrantedRecord;
      CallKeepsInv(State(), BeginCall(c, grant));
      var found := GrantedRecord(State(), c, grant, Pending);
      if found.Err? { return Err(found.error); }
      var id := found.value;
      if id != grant.invitation || id !in subjectInvitations { return Err(InvitationUnavailable); }
      var updated := subjectInvitations[id].(delivery := Sending);
      subjectInvitations := subjectInvitations[id := updated];
      r := Ok(GrantOf(id, updated, grant.token));
    }

    method RecordSubjectInvitationDelivery(c: Context, grant: Grant, delivered: bool)
      returns (r: Result<Grant, DecisionError>)
      requires Valid()
      modifies this
      ensures Valid()
      ensures Step(State(), r) == RecordDelivery(old(State()), c, grant, delivered)
    {
      hide StateInv, GrantedRecord;
      CallKeepsInv(State(), DeliveredCall(c, grant, delivered));
      var found := GrantedRecord(State(), c, grant, Sending);
      if found.Err? { return Err(found.error); }
      var id := found.value;
      if id !in subjectInvitations { return Err(InvitationUnavailable); }
      var updated := subjectInvitations[id].(delivery := if delivered then Delivered else DeliveryFailed);
      subjectInvitations := subjectInvitations[id := updated];
      r := Ok(GrantOf(id, updated, None));
    }

    /** One turn of a batch, whose lookup never raises: decided from the stored dictionaries, done in copies of them. */
    method PrepareOne(draft: Draft, subject: SubjectId, order: Issue, ids: Identifiers)
      returns (r: Result<Draft, DecisionError>)
      requires Valid() && InvitesInv(draft.invites) && Untouched(Invitations(), draft.invites, (order.org, subject))
      ensures r == IssueOne(Invitations(), draft, subject, order, ids)
    {
      hide StateInv, InvitesInv, Relation, Invites.OpenFor, Reusable, Replaceable, Compatible, TokenDigest,
           Invites.IsFresh, RecordOk;
      InvitesOf(State());
      RelationNeverRaises(Invitations(), order.org, subject);
      SameRelation(Invitations(), draft.invites, order.org, subject);
      RelationNeverRaises(draft.invites, order.org, subject);
      var existing := Relation(Invitations(), order.org, subject);
      if existing.value.Some? != order.relationRequired { return Err(InvitationUnavailable); }
      var records, active, index := draft.invites.subjects, draft.invites.active, draft.invites.index;
      var sequence: nat, retryOf := 0, existing.value;
      if existing.value.Some? {
        var id := existing.value.value;
        var record := subjectInvitations[id];
        if !Compatible(record, order) { return Err(InvitationUnavailable); }
        if Reusable(record, order) { return Ok(draft.(grants := draft.grants + [GrantOf(id, record, None)])); }
        if !Replaceable(record, order) { return Err(InvitationUnavailable); }
        records := records[id := record.(status := Revoked)];
        index := index[record.digest := index[record.digest].(status := Revoked)];
        active := active - {(order.org, subject)};
        sequence := record.retrySequence + 1;
      }
      var (id, token) := ids(draft.created);
      var digest := TokenDigest(token);
      if digest.None?
          || !Invites(draft.invites.generic, records, active, index, draft.invites.schema).IsFresh(id, digest.value)
         || sequence > 100
      {
        return Err(InvitationUnavailable);
      }
      var record := NewRecord(subject, order, retryOf, sequence, digest.value);
      records := records[id := record];
      active := active[(order.org, subject) := id];
      index := index[digest.value := IndexRecord(SubjectKind, id, order.org, Some(subject), Open)];
      r := Ok(Draft(Invites(draft.invites.generic, records, active, index, draft.invites.schema),
                    draft.grants + [GrantOf(id, record, Some(token))], draft.created + 1));
    }

    /** The loop of a batch; a turn that fails ends it. */
    method PrepareInvitations(subjects: seq<SubjectId>, order: Issue, ids: Identifiers)
      returns (r: Result<Draft, DecisionError>)
      requires Valid() && order.org in schemaInitialized && !Privileged(order.role) && AllDistinct(subjects)
      ensures r == IssueAll(Invitations(), Draft(Invitations(), [], 0), subjects, order, ids)
    {
      hide StateInv, InvitesInv, IssueOne, Untouched;
      InvitesOf(State());
      ghost var start := Draft(Invitations(), [], 0);
      var draft := Draft(Invitations(), [], 0);
      for i := 0 to |subjects|
        invariant IssueAll(Invitations(), start, subjects[..i], order, ids) == Ok(draft)
      {
        IssueAllKeeps(Invitations(), subjects[..i], order, ids);
        assert subjects[i] !in subjects[..i];
        var turn := PrepareOne(draft, subjects[i], order, ids);
        NextTurn(Invitations(), start, subjects, i, order, ids);
        if turn.Err? { return turn; }
        draft := turn.value;
      }
      assert subjects[..|subjects|] == subjects;
      r := Ok(draft);
    }

    /** A batch: prepared in full, then published together with the caller's own replacements. */
    method CreateSubjectInvitations(c: Context, subjects: seq<SubjectId>, role: Role, lifetime: int,
                                    route: Option<RouteId>,
                                    relationRequired: bool, mutation: seq<Replacement>, graphs: GraphStore,
                                      failAt: Option<nat>,
                                    ids: Identifiers, now: Time) returns (r: Result<seq<Grant>, DecisionError>)
      requires Valid()
      requires forall i :: 0 <= i < |mutation| ==> mutation[i].GraphRef?
      modifies this, graphs
      ensures Valid()
      ensures var t :=
                DecisionModel.CreateSubjectInvitations(old(State()), c, subjects, role, lifetime, route,
                                                       relationRequired, mutation != [], ids, now);
              && (if r.Ok? then Step(State(), r) == t else State() == old(State()) && graphs.graph == old(graphs.graph))
              && (r.Ok? <==>
                    && t.reply.Ok?
                    && (t.state == old(State())
                        || (&& (forall i :: 0 <= i < |mutation| ==> mutation[i].priorGraph == old(graphs.graph))
                            && (failAt.Some? ==> failAt.value >= |mutation| + 5))))
    {
      hide StateInv, IssueAll, InstallAll, Authority.LogMany;
      CallKeepsInv(State(), BatchCall(c, subjects, role, lifetime, route, relationRequired, mutation != [], ids, now));
      var refusal := InputRefusal(subjects, role, lifetime);
      if refusal.Some? { return Err(refusal.value); }
      var authorized := Authorize(State(), c, ManageMembers);
      if authorized.Err? { return Err(authorized.error); }
      if c.org !in schemaInitialized { return Err(InvitationUnavailable); }
      var work := PrepareInvitations(subjects, Issue(c.org, role, lifetime, route, relationRequired, now), ids);
      if work.Err? { return Err(work.error); }
      var draft := work.value;
      if draft.created == 0 {
        if mutation != [] { return Err(InvitationUnavailable); }
        return Ok(draft.grants);
      }
      LogManyKeepsMembers(State().authority, c.org, InvitationCreated, c.uid, draft.created, now);
      BatchKeepsGeneric(Invitations(), Draft(Invitations(), [], 0), subjects,
                        Issue(c.org, role, lifetime, route, relationRequired, now), ids);
      var published := PublishBatch(c, draft, mutation, graphs, failAt, now);
      if published.Err? { return Err(published.error); }
      r := Ok(draft.grants);
    }

    /** The publication of a prepared batch. */
    method PublishBatch(c: Context, draft: Draft, mutation: seq<Replacement>, graphs: GraphStore, failAt: Option<nat>,
                        now: Time)
      returns (r: Result<(), DecisionError>)
      requires forall i :: 0 <= i < |mutation| ==> mutation[i].GraphRef?
      requires draft.invites.generic == invitations && draft.invites.schema == schemaInitialized
      modifies this, graphs
      ensures r.Ok? <==>
        && (forall i :: 0 <= i < |mutation| ==> mutation[i].priorGraph == old(graphs.graph))
        && (failAt.Some? ==> failAt.value >= |mutation| + 5)
      ensures State() == if r.Ok? then Worked(old(State()), c, draft, now) else old(State())
      ensures r.Err? ==> graphs.graph == old(graphs.graph)
    {
      hide InstallAll, Authority.LogMany;
      var nextAudit, nextSequence := PrepareEvents(c, draft.created, now);
      LogManyKeepsMembers(State().authority, c.org, InvitationCreated, c.uid, draft.created, now);
      var refs :=
          [RecordsRef(subjectInvitations, draft.invites.subjects),
           ActiveRef(activeSubjectInvitations, draft.invites.active),
                   IndexRef(invitationTokenIndex, draft.invites.index), AuditRef(audit, nextAudit),
                     SequenceRef(auditSequence, nextSequence)];
      InstallSix(Everything(State(), graphs.graph), refs[0], refs[1], refs[2], refs[3], refs[4], refs[4]);
      r := PublishWith(graphs, mutation, refs, failAt);
    }

    /** The audit values of a batch, built in a loop over the created records. */
    method PrepareEvents(c: Context, n: nat, now: Time)
      returns (nextAudit: map<OrganizationId, seq<AuditEvent>>, nextSequence: nat)
      ensures State().authority.(audit := nextAudit, sequence := nextSequence)
              == State().authority.LogMany(c.org, InvitationCreated, c.uid, n, now)
    {
      nextAudit, nextSequence := audit, auditSequence;
      for i := 0 to n
        invariant State().authority.(audit := nextAudit, sequence := nextSequence)
                  == State().authority.LogMany(c.org, InvitationCreated, c.uid, i, now)
      {
        nextSequence := nextSequence + 1;
        nextAudit := nextAudit[c.org := (if c.org in nextAudit then nextAudit[c.org] else [])
                                        + [AuditEvent(nextSequence, InvitationCreated, c.uid, None, now)]];
      }
    }

    method AcceptSubjectInvitation(uid: Uid, token: string, mutation: seq<Replacement>, graphs: GraphStore,
                                   failAt: Option<nat>, now: Time)
      returns (r: Result<Membership, DecisionError>)
      requires Valid()
      requires forall i :: 0 <= i < |mutation| ==> mutation[i].GraphRef?
      modifies this, graphs
      ensures Valid()
      ensures var t := DecisionModel.AcceptSubjectInvitation(old(State()), uid, token, now);
              if r.Ok? then Step(State(), r) == t else State() == old(State()) && graphs.graph == old(graphs.graph)
      ensures r.Ok? <==>
        && DecisionModel.AcceptSubjectInvitation(old(State()), uid, token, now).reply.Ok?
        && (forall i :: 0 <= i < |mutation| ==> mutation[i].priorGraph == old(graphs.graph))
        && (failAt.Some? ==> failAt.value >= |mutation| + 6)
    {
      hide StateInv, SubjectMatch, TokenDigest, InstallAll, Authority.Activate;
      CallKeepsInv(State(), JoinCall(uid, token, now));
      var digest := TokenDigest(token);
      if digest.None? { return Err(InvitationUnavailable); }
      var d := digest.value;
      var matching := SubjectMatch(State(), uid, d, now);
      if matching.None? { return Err(InvitationUnavailable); }
      MatchIsStored(State(), uid, d, now);
      var id := matching.value;
      var record := subjectInvitations[id];
      ActivateValue(State().authority, record.org, uid, record.role, now);
      var nextAudit := audit[record.org := (if record.org in audit then audit[record.org] else [])
                                           + [AuditEvent(auditSequence + 1, InvitationAccepted, uid, Some(uid), now)]];
      nextAudit := nextAudit[record.org := nextAudit[record.org]
                                           + [AuditEvent(auditSequence + 2, MembershipActivated, uid, Some(uid), now)]];
      var refs := [RecordsRef(subjectInvitations, subjectInvitations[id := record.(status := Accepted)]),
                   ActiveRef(activeSubjectInvitations, activeSubjectInvitations - {(record.org, record.subject)}),
                   MembershipsRef(memberships, memberships[(record.org, uid) := Membership(record.role, Active)]),
                   IndexRef(invitationTokenIndex,
                            invitationTokenIndex[d := invitationTokenIndex[d].(status := Accepted)]),
                   AuditRef(audit, nextAudit), SequenceRef(auditSequence, auditSequence + 2)];
      InstallSix(Everything(State(), graphs.graph), refs[0], refs[1], refs[2], refs[3], refs[4], refs[5]);
      var published := PublishWith(graphs, mutation, refs, failAt);
      if published.Err? { return Err(published.error); }
      r := Ok(Membership(record.role, Active));
    }
  }

  lemma MatchIsStored(s: State, uid: Uid, d: Digest<string>, now: Time)
    requires SubjectMatch(s, uid, d, now).Some?
    ensures var id := SubjectMatch(s, uid, d, now).value;
            id in s.invites.subjects && s.invites.subjects[id].digest == d && d in s.invites.index
  {
    hide Relation;
    var matches := set id | id in s.invites.subjects && s.invites.subjects[id].digest == d;
    assert s.invites.index[d].invitation in matches;
  }

  lemma SuspendValue(a: Authority, org: OrganizationId, u: Uid, actor: Uid, now: Time)
    requires (org, u) in a.memberships
    ensures a.Suspend(org, u, actor, now)
            == Authority(a.organizations, a.memberships[(org, u) := a.memberships[(org, u)].(status := Suspended)],
                         a.audit[org := (if org in a.audit then a.audit[org] else [])
                                        + [AuditEvent(a.sequence + 1, MemberSuspended, actor, Some(u), now)]],
                         a.sequence + 1)
  {
  }

  lemma ActivateValue(a: Authority, org: OrganizationId, uid: Uid, role: Role, now: Time)
    ensures var audit := a.audit[org := (if org in a.audit then a.audit[org] else [])
                                        + [AuditEvent(a.sequence + 1, InvitationAccepted, uid, Some(uid), now)]];
            a.Activate(org, uid, role, now)
            == Authority(a.organizations, a.memberships[(org, uid) := Membership(role, Active)],
                         audit[org :=
                               audit[org] + [AuditEvent(a.sequence + 2, MembershipActivated, uid, Some(uid), now)]],
                         a.sequence + 2)
  {
  }

  /** A failing turn fails the batch; a successful one extends it. */
  lemma NextTurn(stored: Invites, start: Draft, subjects: seq<SubjectId>, i: nat, order: Issue, ids: Identifiers)
    requires i < |subjects| && IssueAll(stored, start, subjects[..i], order, ids).Ok?
    ensures var turn :=
            IssueOne(stored, IssueAll(stored, start, subjects[..i], order, ids).value, subjects[i], order, ids);
            && IssueAll(stored, start, subjects[..i + 1], order, ids) == turn
            && (turn.Err? ==> IssueAll(stored, start, subjects, order, ids) == turn)
  {
    hide IssueOne;
    assert subjects[..i + 1][..i] == subjects[..i];
    FailurePersists(stored, start, subjects, i + 1, order, ids);
  }

  lemma {:induction false} FailurePersists(stored: Invites, start: Draft, subjects: seq<SubjectId>, i: nat,
                                           order: Issue, ids: Identifiers)
    requires i <= |subjects|
    ensures IssueAll(stored, start, subjects[..i], order, ids).Err? ==>
              IssueAll(stored, start, subjects, order, ids) == IssueAll(stored, start, subjects[..i], order, ids)
    decreases |subjects| - i
  {
    hide IssueOne;
    if i == |subjects| {
      assert subjects[..i] == subjects;
    } else {
      assert subjects[..i + 1][..i] == subjects[..i];
      FailurePersists(stored, start, subjects, i + 1, order, ids);
    }
  }

  lemma InvitesOf(s: State)
    requires StateInv(s)
    ensures InvitesInv(s.invites)
  {
  }
}
