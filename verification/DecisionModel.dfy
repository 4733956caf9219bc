/** Organizations, memberships, the audit log and the two kinds of invitation, with one pure step per operation. */
module DecisionModel {
  import opened Basics

  type OrganizationId = string
  type Uid = string
  type SubjectId = string
  type InvitationId = string
  type WorkspaceId = string
  type RouteId = string

  datatype Role = Owner | Admin | DecisionOwner | Contributor | Approver | Viewer

  datatype Permission = ManageMembers | CreateWorkspaces | ReadWorkspaces

  datatype DecisionError =
    | OrganizationUnavailable
    | InvitationUnavailable
    | MembershipUnavailable
    | WorkspaceUnavailable
    | AuthorizationDenied
    | LastOwnerRequired
    | LifetimeOutOfRange

  predicate Allows(role: Role, permission: Permission) {
    match permission
    case ManageMembers => role == Owner || role == Admin
    case CreateWorkspaces => role == Owner || role == Admin || role == DecisionOwner
    case ReadWorkspaces => true
  }

  predicate Privileged(role: Role) { role == Owner || role == Admin }

  // ---- Authority: memberships and their audit log ----

  datatype MembershipStatus = Active | Suspended

  datatype Membership = Membership(role: Role, status: MembershipStatus)

  const ACTIVE_OWNER := Membership(Owner, Active)

  type MemberKey = (OrganizationId, Uid)

  datatype EventName =
    | OrganizationCreated
    | MembershipActivated
    | InvitationCreated
    | InvitationAccepted
    | WorkspaceCreated
    | MemberRoleChanged
    | MemberSuspended

  datatype AuditEvent = AuditEvent(id: nat, name: EventName, actor: Uid, target: Option<Uid>, at: Time)

  datatype Authority = Authority(
    organizations: set<OrganizationId>,
    memberships: map<MemberKey, Membership>,
    audit: map<OrganizationId, seq<AuditEvent>>,
    sequence: nat)
  {
    function EventsOf(org: OrganizationId): seq<AuditEvent> { if org in audit then audit[org] else [] }

    /** One audit event, numbered by the next value of the sequence. */
    function Log(org: OrganizationId, name: EventName, actor: Uid, target: Option<Uid>, now: Time): Authority {
      this.(audit := audit[org := EventsOf(org) + [AuditEvent(sequence + 1, name, actor, target, now)]],
            sequence := sequence + 1)
    }

    /** The same event n times over, as a batch of invitations logs it. */
    function LogMany(org: OrganizationId, name: EventName, actor: Uid, n: nat, now: Time): Authority {
      if n == 0 then this else LogMany(org, name, actor, n - 1, now).Log(org, name, actor, None, now)
    }

    function With(org: OrganizationId, uid: Uid, m: Membership): Authority {
      this.(memberships := memberships[(org, uid) := m])
    }

    predicate IsActive(org: OrganizationId, uid: Uid) {
      (org, uid) in memberships && memberships[(org, uid)].status == Active
    }

    /** Some active owner outside the given set. */
    predicate OwnedWithout(org: OrganizationId, excluded: set<Uid>) {
      exists k :: k in memberships && k.0 == org && k.1 !in excluded && memberships[k] == ACTIVE_OWNER
    }

    function Activate(org: OrganizationId, uid: Uid, role: Role, now: Time): Authority {
      With(org, uid, Membership(role, Active))
        .Log(org, InvitationAccepted, uid, Some(uid), now)
        .Log(org, MembershipActivated, uid, Some(uid), now)
    }

    function Suspend(org: OrganizationId, uid: Uid, actor: Uid, now: Time): Authority
      requires (org, uid) in memberships
    {
      With(org, uid, memberships[(org, uid)].(status := Suspended)).Log(org, MemberSuspended, actor, Some(uid), now)
    }
  }

  // ---- Invitations ----

  datatype InvitationStatus = Open | Accepted | Revoked

  datatype Delivery = NotDelivered | Pending | Sending | Delivered | DeliveryFailed

  datatype GenericRecord = GenericRecord(
    org: OrganizationId, role: Role, digest: Digest<string>, expiresAt: Time, status: InvitationStatus)

  datatype SubjectRecord = SubjectRecord(
    org: OrganizationId,
    subject: SubjectId,
    role: Role,
    digest: Digest<string>,
    expiresAt: Time,
    delivery: Delivery,
    route: Option<RouteId>,
    retrySequence: nat,
    retryOf: Option<InvitationId>,
    status: InvitationStatus)

  datatype Kind = GenericKind | SubjectKind

  datatype IndexRecord = IndexRecord(
    kind: Kind, invitation: InvitationId, org: OrganizationId, subject: Option<SubjectId>, status: InvitationStatus)

  type SubjectKey = (OrganizationId, SubjectId)

  datatype Invites = Invites(
    generic: map<InvitationId, GenericRecord>,
    subjects: map<InvitationId, SubjectRecord>,
    active: map<SubjectKey, InvitationId>,
    index: map<Digest<string>, IndexRecord>,
    schema: set<OrganizationId>)
  {
    function IssueGeneric(id: InvitationId, r: GenericRecord): Invites {
      this.(generic := generic[id := r], index := index[r.digest := IndexRecord(GenericKind, id, r.org, None, Open)])
    }

    function AcceptGeneric(id: InvitationId): Invites
      requires id in generic && generic[id].digest in index
    {
      var d := generic[id].digest;
      this.(generic := generic[id := generic[id].(status := Accepted)],
            index := index[d := index[d].(status := Accepted)])
    }

    function Issue(id: InvitationId, r: SubjectRecord): Invites {
      this.(subjects := subjects[id := r], active := active[(r.org, r.subject) := id],
            index := index[r.digest := IndexRecord(SubjectKind, id, r.org, Some(r.subject), Open)])
    }

    /** A subject invitation is closed: accepted or revoked. */
    function Close(id: InvitationId, status: InvitationStatus): Invites
      requires id in subjects && subjects[id].digest in index
    {
      var r := subjects[id];
      this.(subjects := subjects[id := r.(status := status)], active := active - {(r.org, r.subject)},
            index := index[r.digest := index[r.digest].(status := status)])
    }

    function Deliver(id: InvitationId, d: Delivery): Invites
      requires id in subjects
    {
      this.(subjects := subjects[id := subjects[id].(delivery := d)])
    }

    /** The ids of the open records of one subject: the scan of every stored record. */
    function OpenFor(org: OrganizationId, subject: SubjectId): set<InvitationId> {
      set id | id in subjects && subjects[id].org == org && subjects[id].subject == subject
        && subjects[id].status == Open
    }

    /** Neither the scans nor the index know the identifier or the digest. */
    predicate IsFresh(id: InvitationId, d: Digest<string>) {
      && id !in generic && id !in subjects && d !in index
      && (forall k :: k in generic ==> generic[k].digest != d)
      && (forall k :: k in subjects ==> subjects[k].digest != d)
    }
  }

  datatype State = State(authority: Authority, invites: Invites, workspaces: set<(OrganizationId, WorkspaceId)>)

  const EMPTY := State(Authority({}, map[], map[], 0), Invites(map[], map[], map[], map[], {}), {})

  datatype Step<+T> = Step(state: State, reply: Result<T, DecisionError>)

  function Refuse<T>(s: State, e: DecisionError): Step<T> { Step(s, Err(e)) }

  datatype Context = Context(org: OrganizationId, uid: Uid)

  /** Authority is reloaded from the stored membership, never taken from the context. */
  function Authorize(s: State, c: Context, permission: Permission): Result<Membership, DecisionError> {
    var key := (c.org, c.uid);
    if key !in s.authority.memberships || s.authority.memberships[key].status != Active then Err(AuthorizationDenied)
    else if !Allows(s.authority.memberships[key].role, permission) then Err(AuthorizationDenied)
    else Ok(s.authority.memberships[key])
  }

  predicate TokenOk(token: string) {
    16 <= |token| <= 512 && forall i :: 0 <= i < |token| ==> 33 <= token[i] as int < 128
  }

  function TokenDigest(token: string): Option<Digest<string>> {
    if TokenOk(token) then Some(DigestOf(token)) else None
  }

  // ---- Operations on memberships ----

  function CreateOrganization(s: State, uid: Uid, org: OrganizationId, now: Time): Step<()> {
    if org in s.authority.organizations then Refuse(s, OrganizationUnavailable)
    else
      var founded := s.authority.(organizations := s.authority.organizations + {org}).With(org, uid, ACTIVE_OWNER);
      Step(s.(authority := founded.Log(org, OrganizationCreated, uid, None, now)
                                  .Log(org, MembershipActivated, uid, Some(uid), now)), Ok(()))
  }

  function UpdateMemberRole(s: State, c: Context, uid: Uid, role: Role, now: Time): Step<Membership> {
    match Authorize(s, c, ManageMembers)
    case Err(e) => Refuse(s, e)
    case Ok(current) =>
      if current.role == Admin && Privileged(role) then Refuse(s, AuthorizationDenied)
      else if !s.authority.IsActive(c.org, uid) then Refuse(s, MembershipUnavailable)
      else
        var member := s.authority.memberships[(c.org, uid)];
        if current.role == Admin && member.role == Owner then Refuse(s, AuthorizationDenied)
        else if member.role == Owner && role != Owner && !s.authority.OwnedWithout(c.org, {uid}) then
          Refuse(s, LastOwnerRequired)
        else
          var updated := member.(role := role);
          var changed := s.authority.With(c.org, uid, updated);
          Step(s.(authority := changed.Log(c.org, MemberRoleChanged, c.uid, Some(uid), now)), Ok(updated))
  }

  /** Suspension and removal are the same step. */
  function SuspendMember(s: State, c: Context, uid: Uid, now: Time): Step<Membership> {
    match Authorize(s, c, ManageMembers)
    case Err(e) => Refuse(s, e)
    case Ok(current) =>
      if !s.authority.IsActive(c.org, uid) then Refuse(s, MembershipUnavailable)
      else
        var member := s.authority.memberships[(c.org, uid)];
        if current.role == Admin && member.role == Owner then Refuse(s, AuthorizationDenied)
        else if member.role == Owner && !s.authority.OwnedWithout(c.org, {uid}) then Refuse(s, LastOwnerRequired)
        else Step(s.(authority := s.authority.Suspend(c.org, uid, c.uid, now)), Ok(member.(status := Suspended)))
  }

  /** Each uid once, in order of first appearance. */
  function Distinct(uids: seq<Uid>): (r: seq<Uid>)
    ensures forall u :: u in r <==> u in uids
    ensures forall i, j :: 0 <= i < j < |r| ==> r[i] != r[j]
  {
    if uids == [] then []
    else
      var rest, last := Distinct(uids[..|uids| - 1]), uids[|uids| - 1];
      if last in rest then rest else rest + [last]
  }

  /** The removed members that are active now, in order. */
  function ActiveAmong(a: Authority, org: OrganizationId, uids: seq<Uid>): (r: seq<Uid>)
    ensures forall u :: u in r <==> u in uids && a.IsActive(org, u)
    ensures (forall i, j :: 0 <= i < j < |uids| ==> uids[i] != uids[j]) ==> forall i, j :: 0 <= i < j < |r| ==>
              r[i] != r[j]
  {
    if uids == [] then []
    else
      var rest, last := ActiveAmong(a, org, uids[..|uids| - 1]), uids[|uids| - 1];
      if a.IsActive(org, last) then rest + [last] else rest
  }

  /** One suspension after the other. */
  function SuspendAll(a: Authority, org: OrganizationId, uids: seq<Uid>, actor: Uid, now: Time): (r: Authority)
    requires forall u :: u in uids ==> (org, u) in a.memberships
    ensures r.memberships.Keys == a.memberships.Keys
    decreases |uids|
  {
    if uids == [] then a
    else SuspendAll(a, org, uids[..|uids| - 1], actor, now).Suspend(org, uids[|uids| - 1], actor, now)
  }

  function ChangeGraphMembership(s: State, c: Context, carried: seq<Uid>, removed: seq<Uid>, now: Time): Step<()> {
    match Authorize(s, c, ManageMembers)
    case Err(e) => Refuse(s, e)
    case Ok(current) =>
      if exists u :: u in carried && u in removed then Refuse(s, MembershipUnavailable)
      else if exists u :: u in carried && !s.authority.IsActive(c.org, u) then Refuse(s, MembershipUnavailable)
      else
        var leaving := ActiveAmong(s.authority, c.org, Distinct(removed));
        var ownerLeaves := exists u :: u in leaving && s.authority.memberships[(c.org, u)].role == Owner;
        if current.role == Admin && ownerLeaves then Refuse(s, AuthorizationDenied)
        else if ownerLeaves && !s.authority.OwnedWithout(c.org, set u | u in leaving) then Refuse(s, LastOwnerRequired)
        else Step(s.(authority := SuspendAll(s.authority, c.org, leaving, c.uid, now)), Ok(()))
  }

  function CreateWorkspace(s: State, c: Context, workspace: WorkspaceId, now: Time): Step<()> {
    match Authorize(s, c, CreateWorkspaces)
    case Err(e) => Refuse(s, e)
    case Ok(_) =>
      if (c.org, workspace) in s.workspaces then Refuse(s, WorkspaceUnavailable)
      else Step(s.(workspaces := s.workspaces + {(c.org, workspace)},
                   authority := s.authority.Log(c.org, WorkspaceCreated, c.uid, None, now)), Ok(()))
  }

  // ---- Generic invitations ----

  const MAX_LIFETIME := 30 * 24 * 3600

  datatype GenericGrant = GenericGrant(invitation: InvitationId, org: OrganizationId, role: Role, expiresAt: Time,
                                       token: string)

  function CreateInvitation(s: State, c: Context, role: Role, lifetime: int, id: InvitationId, token: string, now: Time)
    : Step<GenericGrant>
  {
    match Authorize(s, c, ManageMembers)
    case Err(e) => Refuse(s, e)
    case Ok(_) =>
      if Privileged(role) then Refuse(s, AuthorizationDenied)
      else if !(0 < lifetime <= MAX_LIFETIME) then Refuse(s, LifetimeOutOfRange)
      else if TokenDigest(token).None? || !s.invites.IsFresh(id, TokenDigest(token).value) then
        Refuse(s, InvitationUnavailable)
      else
        var r := GenericRecord(c.org, role, TokenDigest(token).value, now + lifetime, Open);
        Step(s.(invites := s.invites.IssueGeneric(id, r),
                authority := s.authority.Log(c.org, InvitationCreated, c.uid, None, now)),
             Ok(GenericGrant(id, c.org, role, now + lifetime, token)))
  }

  /** The generic record that a token opens: the only match, with an index entry that agrees. */
  function GenericMatch(inv: Invites, d: Digest<string>, now: Time): Option<InvitationId> {
    var matches := set id | id in inv.generic && inv.generic[id].digest == d;
    if (exists id :: id in inv.subjects && inv.subjects[id].digest == d) || d !in inv.index then None
    else
      var i := inv.index[d];
      if matches != {i.invitation} || i.kind != GenericKind || i.subject.Some? then None
      else
        var r := inv.generic[i.invitation];
        if i.org != r.org || i.status != r.status || r.status != Open || r.expiresAt <= now then None
        else Some(i.invitation)
  }

  function AcceptInvitation(s: State, uid: Uid, token: string, now: Time): Step<Membership> {
    match TokenDigest(token)
    case None => Refuse(s, InvitationUnavailable)
    case Some(d) =>
      match GenericMatch(s.invites, d, now)
      case None => Refuse(s, InvitationUnavailable)
      case Some(id) =>
        var r := s.invites.generic[id];
        if s.authority.IsActive(r.org, uid) then Refuse(s, InvitationUnavailable)
        else Step(s.(invites := s.invites.AcceptGeneric(id),
                     authority := s.authority.Activate(r.org, uid, r.role, now)),
                  Ok(Membership(r.role, Active)))
  }

  // ---- Subject invitations ----

  /** The open record of one subject: the scan, the active index and the token index must agree, else it raises. */
  function Relation(inv: Invites, org: OrganizationId, subject: SubjectId)
    : Result<Option<InvitationId>, DecisionError>
  {
    var matching := inv.OpenFor(org, subject);
    if (org, subject) !in inv.active then (if matching == {} then Ok(None) else Err(InvitationUnavailable))
    else
      var id := inv.active[(org, subject)];
      if matching != {id} then Err(InvitationUnavailable)
      else
        var r := inv.subjects[id];
        if Privileged(r.role) || !(r.route.None? <==> r.delivery == NotDelivered) || r.retrySequence > 100 then
          Err(InvitationUnavailable)
        else if r.digest !in inv.index || inv.index[r.digest] != IndexRecord(SubjectKind, id, org, Some(subject), Open)
        then Err(InvitationUnavailable)
        else if id in inv.generic || exists g :: g in inv.generic && inv.generic[g].digest == r.digest then
          Err(InvitationUnavailable)
        else Ok(Some(id))
  }

  function InitializeSchema(s: State, c: Context, graphEvidence: bool): Step<()> {
    match Authorize(s, c, ManageMembers)
    case Err(e) => Refuse(s, e)
    case Ok(_) =>
      var stored := (exists id :: id in s.invites.subjects && s.invites.subjects[id].org == c.org)
                    || (exists d ::
                          && d in s.invites.index && s.invites.index[d].org == c.org
                          && s.invites.index[d].kind == SubjectKind);
      if graphEvidence || stored then Refuse(s, InvitationUnavailable)
      else Step(s.(invites := s.invites.(schema := s.invites.schema + {c.org})), Ok(()))
  }

  datatype Grant = Grant(
    invitation: InvitationId,
    org: OrganizationId,
    subject: SubjectId,
    role: Role,
    expiresAt: Time,
    delivery: Delivery,
    route: Option<RouteId>,
    retrySequence: nat,
    token: Option<string>)

  function GrantOf(id: InvitationId, r: SubjectRecord, token: Option<string>): Grant {
    Grant(id, r.org, r.subject, r.role, r.expiresAt, r.delivery, r.route, r.retrySequence, token)
  }

  /** What one call asks for; the same for every subject of the batch. */
  datatype Issue = Issue(
    org: OrganizationId,
    role: Role,
    lifetime: int,
    route: Option<RouteId>,
    relationRequired: bool,
    now: Time)

  type Identifiers = nat -> (InvitationId, string)

  /** The work of a batch so far: the replacement dictionaries, the grants and the identifiers drawn. */
  datatype Draft = Draft(invites: Invites, grants: seq<Grant>, created: nat)

  /** An open record that is granted again as it stands. */
  predicate Reusable(r: SubjectRecord, order: Issue) {
    || r.delivery == Sending
    || (r.expiresAt > order.now && (r.delivery == Delivered || r.delivery == NotDelivered) && r.route == order.route)
  }

  predicate Replaceable(r: SubjectRecord, order: Issue) {
    || (r.route.None? && order.route.Some?) || r.expiresAt <= order.now
    || r.delivery == Pending || r.delivery == DeliveryFailed
  }

  predicate Compatible(r: SubjectRecord, order: Issue) {
    r.role == order.role && (r.route.Some? ==> r.route == order.route)
  }

  function NewRecord(subject: SubjectId, order: Issue, existing: Option<InvitationId>, sequence: nat,
                     d: Digest<string>): SubjectRecord
  {
    SubjectRecord(order.org, subject, order.role, d, order.now + order.lifetime,
                  if order.route.None? then NotDelivered else Pending, order.route, sequence, existing, Open)
  }

  /** A fresh record for one subject, numbered after the one it replaces; a sequence above 100 makes no valid grant. */
  function Draw(draft: Draft, subject: SubjectId, order: Issue, existing: Option<InvitationId>, sequence: nat,
                ids: Identifiers)
    : Result<Draft, DecisionError>
  {
    var (id, token) := ids(draft.created);
    if TokenDigest(token).None? || !draft.invites.IsFresh(id, TokenDigest(token).value) || sequence > 100
    then Err(InvitationUnavailable)
    else
      var r := NewRecord(subject, order, existing, sequence, TokenDigest(token).value);
      Ok(Draft(draft.invites.Issue(id, r), draft.grants + [GrantOf(id, r, Some(token))], draft.created + 1))
  }

  /** One turn of the batch: the decision reads the stored invitations, the effect goes into the draft. */
  function IssueOne(stored: Invites, draft: Draft, subject: SubjectId, order: Issue, ids: Identifiers)
    : Result<Draft, DecisionError>
  {
    match Relation(stored, order.org, subject)
    case Err(e) => Err(e)
    case Ok(None) =>
      if order.relationRequired then Err(InvitationUnavailable) else Draw(draft, subject, order, None, 0, ids)
    case Ok(Some(id)) =>
      if !order.relationRequired || id !in stored.subjects || !Compatible(stored.subjects[id], order) then
        Err(InvitationUnavailable)
      else
        var r := stored.subjects[id];
        if Reusable(r, order) then Ok(draft.(grants := draft.grants + [GrantOf(id, r, None)]))
        else if !Replaceable(r, order) || id !in draft.invites.subjects
            || draft.invites.subjects[id].digest !in draft.invites.index
        then Err(InvitationUnavailable)
        else Draw(draft.(invites := draft.invites.Close(id, Revoked)), subject, order, Some(id), r.retrySequence + 1,
                  ids)
  }

  function IssueAll(stored: Invites, draft: Draft, subjects: seq<SubjectId>, order: Issue,
                    ids: Identifiers): Result<Draft, DecisionError>
    decreases |subjects|
  {
    if subjects == [] then Ok(draft)
    else
      match IssueAll(stored, draft, subjects[..|subjects| - 1], order, ids)
      case Err(e) => Err(e)
      case Ok(next) => IssueOne(stored, next, subjects[|subjects| - 1], order, ids)
  }

  /** None when the inputs of a batch are acceptable. */
  function InputRefusal(subjects: seq<SubjectId>, role: Role, lifetime: int): Option<DecisionError> {
    if !(1 <= |subjects| <= 100) || (exists i, j :: 0 <= i < j < |subjects| && subjects[i] == subjects[j]) then
      Some(InvitationUnavailable)
    else if Privileged(role) then Some(AuthorizationDenied)
    else if !(60 <= lifetime <= MAX_LIFETIME) then Some(InvitationUnavailable)
    else None
  }

  /** A batch of subject invitations; extra says that the caller's own mutation brings replacements. */
  function CreateSubjectInvitations(s: State, c: Context, subjects: seq<SubjectId>, role: Role, lifetime: int,
                                    route: Option<RouteId>,
                                    relationRequired: bool, extra: bool, ids: Identifiers, now: Time): Step<seq<Grant>>
  {
    match InputRefusal(subjects, role, lifetime)
    case Some(e) => Refuse(s, e)
    case None =>
      match Authorize(s, c, ManageMembers)
      case Err(e) => Refuse(s, e)
      case Ok(_) =>
        if c.org !in s.invites.schema then Refuse(s, InvitationUnavailable)
        else
          var order := Issue(c.org, role, lifetime, route, relationRequired, now);
          match IssueAll(s.invites, Draft(s.invites, [], 0), subjects, order, ids)
          case Err(e) => Refuse(s, e)
          case Ok(draft) =>
            if draft.created == 0 then (if extra then Refuse(s, InvitationUnavailable) else Step(s, Ok(draft.grants)))
            else Step(s.(invites := draft.invites,
                         authority := s.authority.LogMany(c.org, InvitationCreated, c.uid, draft.created, now)),
                           Ok(draft.grants))
  }

  /** The record a grant names, if it is the open one, matches the grant and stands at the given delivery state. */
  function GrantedRecord(s: State, c: Context, grant: Grant, expected: Delivery): Result<InvitationId, DecisionError> {
    match Authorize(s, c, ManageMembers)
    case Err(e) => Err(e)
    case Ok(_) =>
      if c.org !in s.invites.schema || grant.token.None? || TokenDigest(grant.token.value).None? then
        Err(InvitationUnavailable)
      else
        match Relation(s.invites, c.org, grant.subject)
        case Err(e) => Err(e)
        case Ok(None) => Err(InvitationUnavailable)
        case Ok(Some(id)) =>
          if id !in s.invites.subjects then Err(InvitationUnavailable)
          else
            var r := s.invites.subjects[id];
            if r.role != grant.role || r.route != grant.route || r.retrySequence != grant.retrySequence
               || r.delivery != expected || Some(r.digest) != TokenDigest(grant.token.value)
            then Err(InvitationUnavailable)
            else Ok(id)
  }

  function BeginDelivery(s: State, c: Context, grant: Grant): Step<Grant> {
    match GrantedRecord(s, c, grant, Pending)
    case Err(e) => Refuse(s, e)
    case Ok(id) =>
      if id != grant.invitation || id !in s.invites.subjects then Refuse(s, InvitationUnavailable)
      else
        var next := s.invites.Deliver(id, Sending);
        Step(s.(invites := next), Ok(GrantOf(id, next.subjects[id], grant.token)))
  }

  function RecordDelivery(s: State, c: Context, grant: Grant, delivered: bool): Step<Grant> {
    match GrantedRecord(s, c, grant, Sending)
    case Err(e) => Refuse(s, e)
    case Ok(id) =>
      if id !in s.invites.subjects then Refuse(s, InvitationUnavailable)
      else
        var next := s.invites.Deliver(id, if delivered then Delivered else DeliveryFailed);
        Step(s.(invites := next), Ok(GrantOf(id, next.subjects[id], None)))
  }

  /** The subject record that a token opens for a new member: scan, lookup and index agree, delivered, unexpired. */
  function SubjectMatch(s: State, uid: Uid, d: Digest<string>, now: Time): Option<InvitationId> {
    var inv := s.invites;
    var matches := set id | id in inv.subjects && inv.subjects[id].digest == d;
    if d !in inv.index || matches != {inv.index[d].invitation}
        || (exists g :: g in inv.generic && inv.generic[g].digest == d)
    then None
    else
      var id := inv.index[d].invitation;
      var r := inv.subjects[id];
      if r.org !in inv.schema || Relation(inv, r.org, r.subject) != Ok(Some(id)) || inv.index[d].kind != SubjectKind
         || r.status != Open || r.delivery != Delivered || r.expiresAt <= now || Privileged(r.role)
         || (r.org, uid) in s.authority.memberships
      then None
      else Some(id)
  }

  function AcceptSubjectInvitation(s: State, uid: Uid, token: string, now: Time): Step<Membership> {
    match TokenDigest(token)
    case None => Refuse(s, InvitationUnavailable)
    case Some(d) =>
      match SubjectMatch(s, uid, d, now)
      case None => Refuse(s, InvitationUnavailable)
      case Some(id) =>
        var r := s.invites.subjects[id];
        Step(s.(invites := s.invites.Close(id, Accepted), authority := s.authority.Activate(r.org, uid, r.role, now)),
             Ok(Membership(r.role, Active)))
  }
}
