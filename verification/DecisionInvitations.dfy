/** What every operation keeps about invitations, their token index and the active subjects. */
module DecisionInvitations {
  import opened Basics
  import opened DecisionModel

  // ---- The invariant ----

  /** A retry follows a revoked record of the same organization, subject and role, one number lower. */
  predicate Follows(r: SubjectRecord, p: SubjectRecord) {
    p.org == r.org && p.subject == r.subject && p.role == r.role && p.retrySequence + 1 == r.retrySequence
      && p.status == Revoked
  }

  predicate LinkOk(subjects: map<InvitationId, SubjectRecord>, r: SubjectRecord) {
    match r.retryOf
    case None => r.retrySequence == 0
    case Some(p) => p in subjects && Follows(r, subjects[p])
  }

  /** What one record satisfies by itself. */
  predicate RecordOk(r: SubjectRecord) {
    && !Privileged(r.role) && r.retrySequence <= 100
    && (r.route.None? <==> r.delivery == NotDelivered)
    && (r.status == Accepted ==> r.delivery == Delivered)
    && (r.status == Revoked ==> r.delivery != Sending)
  }

  predicate SubjectsOk(inv: Invites) {
    forall id :: id in inv.subjects ==>
      RecordOk(inv.subjects[id]) && inv.subjects[id].org in inv.schema && LinkOk(inv.subjects, inv.subjects[id])
  }

  predicate GenericIndexed(inv: Invites) {
    forall id :: id in inv.generic ==>
      var r := inv.generic[id];
      !Privileged(r.role) && r.digest in inv.index
        && inv.index[r.digest] == IndexRecord(GenericKind, id, r.org, None, r.status)
  }

  predicate SubjectsIndexed(inv: Invites) {
    forall id :: id in inv.subjects ==>
      var r := inv.subjects[id];
      r.digest in inv.index && inv.index[r.digest] == IndexRecord(SubjectKind, id, r.org, Some(r.subject), r.status)
  }

  predicate IndexResolves(inv: Invites) {
    forall d :: d in inv.index ==>
      var i := inv.index[d];
      match i.kind
      case GenericKind => i.invitation in inv.generic && inv.generic[i.invitation].digest == d
      case SubjectKind => i.invitation in inv.subjects && inv.subjects[i.invitation].digest == d
  }

  /** Every stored digest has exactly one invitation, of the kind, id, organization and status the index says. */
  predicate IndexOk(inv: Invites) {
    inv.generic.Keys !! inv.subjects.Keys && GenericIndexed(inv) && SubjectsIndexed(inv) && IndexResolves(inv)
  }

  /** The active index maps a subject exactly to its one open record. */
  predicate ActiveOk(inv: Invites) {
    && (forall k :: k in inv.active ==>
          inv.active[k] in inv.subjects
          && var r := inv.subjects[inv.active[k]]; r.status == Open && (r.org, r.subject) == k)
    && (forall id :: id in inv.subjects && inv.subjects[id].status == Open ==>
          (inv.subjects[id].org, inv.subjects[id].subject) in inv.active
          && inv.active[(inv.subjects[id].org, inv.subjects[id].subject)] == id)
  }

  predicate InvitesInv(inv: Invites) { SubjectsOk(inv) && IndexOk(inv) && ActiveOk(inv) }

  // ---- What the invariant gives ----

  /** The scan of every record, the active index and the token index agree, so the lookup never raises. */
  lemma RelationNeverRaises(inv: Invites, org: OrganizationId, subject: SubjectId)
    requires InvitesInv(inv)
    ensures match Relation(inv, org, subject)
            case Err(_) => false
            case Ok(None) => inv.OpenFor(org, subject) == {} && (org, subject) !in inv.active
            case Ok(Some(id)) =>
              && inv.OpenFor(org, subject) == {id} && (org, subject) in inv.active && inv.active[(org, subject)] == id
              && id in inv.subjects && inv.subjects[id].org == org && inv.subjects[id].subject == subject
              && inv.subjects[id].status == Open && RecordOk(inv.subjects[id])
              && inv.subjects[id].digest in inv.index
  {
    var matching := inv.OpenFor(org, subject);
    if (org, subject) in inv.active {
      var id := inv.active[(org, subject)];
      assert matching == {id};
      var r := inv.subjects[id];
      assert inv.index[r.digest] == IndexRecord(SubjectKind, id, org, Some(subject), Open);
    } else {
      assert matching == {};
    }
  }

  /** A token opens at most one invitation: the one the index names. */
  lemma OneMatchPerDigest(inv: Invites, d: Digest<string>)
    requires InvitesInv(inv)
    ensures var generic := set id | id in inv.generic && inv.generic[id].digest == d;
            var subject := set id | id in inv.subjects && inv.subjects[id].digest == d;
            if d !in inv.index then generic == {} && subject == {}
            else if inv.index[d].kind == GenericKind then generic == {inv.index[d].invitation} && subject == {}
            else generic == {} && subject == {inv.index[d].invitation}
  {
    hide SubjectsOk, ActiveOk;
  }

  /** The chain of a record: itself and all records it retries, newest first. */
  function Chain(subjects: map<InvitationId, SubjectRecord>, id: InvitationId): (c: seq<InvitationId>)
    requires id in subjects && (forall k :: k in subjects ==> LinkOk(subjects, subjects[k]))
    ensures forall i :: 0 <= i < |c| ==> c[i] in subjects
    decreases subjects[id].retrySequence
  {
    assert LinkOk(subjects, subjects[id]);
    match subjects[id].retryOf
    case None => [id]
    case Some(p) => [id] + Chain(subjects, p)
  }

  /** Retry chains are bounded and well-founded: numbered down to 0, one record per number, all but the newest
      revoked. */
  lemma {:induction false} ChainIsBounded(inv: Invites, id: InvitationId)
    requires InvitesInv(inv) && id in inv.subjects
    ensures var c := Chain(inv.subjects, id);
            && |c| == inv.subjects[id].retrySequence + 1 <= 101 && c[0] == id
            && (forall i :: 0 <= i < |c| ==>
                  var r := inv.subjects[c[i]];
                  && r.org == inv.subjects[id].org && r.subject == inv.subjects[id].subject
                  && r.role == inv.subjects[id].role
                  && r.retrySequence == |c| - 1 - i
                  && (i > 0 ==> r.status == Revoked && r.delivery != Sending))
            && inv.subjects[c[|c| - 1]].retryOf.None?
    decreases inv.subjects[id].retrySequence
  {
    hide IndexOk, ActiveOk;
    if inv.subjects[id].retryOf.Some? {
      ChainIsBounded(inv, inv.subjects[id].retryOf.value);
    }
  }

  // ---- Primitive steps ----

  lemma SameSubjectsKeep(inv: Invites, next: Invites)
    requires SubjectsOk(inv) && ActiveOk(inv)
    requires next.subjects == inv.subjects && next.active == inv.active && inv.schema <= next.schema
    ensures SubjectsOk(next) && ActiveOk(next)
  {
    hide RecordOk, LinkOk;
  }

  /** The index changes at one digest that belongs to no generic record. */
  lemma GenericIndexedFrame(inv: Invites, next: Invites, d: Digest<string>)
    requires GenericIndexed(inv) && next.generic == inv.generic && inv.index.Keys <= next.index.Keys
    requires forall x :: x in inv.index && x != d ==> next.index[x] == inv.index[x]
    requires forall g :: g in inv.generic ==> inv.generic[g].digest != d
    ensures GenericIndexed(next)
  {
  }

  /** The index changes at one digest that belongs to no subject record. */
  lemma SubjectsIndexedFrame(inv: Invites, next: Invites, d: Digest<string>)
    requires SubjectsIndexed(inv) && next.subjects == inv.subjects && inv.index.Keys <= next.index.Keys
    requires forall x :: x in inv.index && x != d ==> next.index[x] == inv.index[x]
    requires forall k :: k in inv.subjects ==> inv.subjects[k].digest != d
    ensures SubjectsIndexed(next)
  {
  }

  lemma IssueGenericKeeps(inv: Invites, id: InvitationId, r: GenericRecord)
    requires InvitesInv(inv) && inv.IsFresh(id, r.digest) && !Privileged(r.role) && r.status == Open
    ensures InvitesInv(inv.IssueGeneric(id, r))
  {
    hide SubjectsOk, ActiveOk, GenericIndexed, SubjectsIndexed, IndexResolves;
    var next := inv.IssueGeneric(id, r);
    SameSubjectsKeep(inv, next);
    SubjectsIndexedFrame(inv, next, r.digest);
    IssueGenericIndexed(inv, id, r);
    IssueGenericResolves(inv, id, r);
  }

  lemma IssueGenericIndexed(inv: Invites, id: InvitationId, r: GenericRecord)
    requires GenericIndexed(inv) && inv.IsFresh(id, r.digest) && !Privileged(r.role) && r.status == Open
    ensures GenericIndexed(inv.IssueGeneric(id, r))
  {
  }

  lemma IssueGenericResolves(inv: Invites, id: InvitationId, r: GenericRecord)
    requires IndexResolves(inv) && inv.IsFresh(id, r.digest)
    ensures IndexResolves(inv.IssueGeneric(id, r))
  {
  }

  lemma AcceptGenericKeeps(inv: Invites, id: InvitationId)
    requires InvitesInv(inv) && id in inv.generic
    ensures inv.generic[id].digest in inv.index && InvitesInv(inv.AcceptGeneric(id))
  {
    hide SubjectsOk, ActiveOk, GenericIndexed, SubjectsIndexed, IndexResolves;
    EntryOfGeneric(inv, id);
    SameSubjectsKeep(inv, inv.AcceptGeneric(id));
    AcceptGenericIndexed(inv, id);
    AcceptGenericResolves(inv, id);
    SubjectsIndexedFrame(inv, inv.AcceptGeneric(id), inv.generic[id].digest);
  }

  lemma EntryOfGeneric(inv: Invites, id: InvitationId)
    requires GenericIndexed(inv) && SubjectsIndexed(inv) && id in inv.generic
    ensures inv.generic[id].digest in inv.index
    ensures inv.index[inv.generic[id].digest]
            == IndexRecord(GenericKind, id, inv.generic[id].org, None, inv.generic[id].status)
    ensures forall k :: k in inv.subjects ==> inv.subjects[k].digest != inv.generic[id].digest
  {
  }

  lemma EntryOfSubject(inv: Invites, id: InvitationId)
    requires GenericIndexed(inv) && SubjectsIndexed(inv) && id in inv.subjects
    ensures inv.subjects[id].digest in inv.index
    ensures inv.index[inv.subjects[id].digest]
            == IndexRecord(SubjectKind, id, inv.subjects[id].org, Some(inv.subjects[id].subject),
                           inv.subjects[id].status)
    ensures forall k :: k in inv.generic ==> inv.generic[k].digest != inv.subjects[id].digest
  {
  }

  lemma AcceptGenericIndexed(inv: Invites, id: InvitationId)
    requires GenericIndexed(inv) && id in inv.generic && inv.generic[id].digest in inv.index
    ensures GenericIndexed(inv.AcceptGeneric(id))
  {
    assert inv.index[inv.generic[id].digest].invitation == id;
  }

  lemma AcceptGenericResolves(inv: Invites, id: InvitationId)
    requires IndexResolves(inv) && id in inv.generic && inv.generic[id].digest in inv.index
    ensures IndexResolves(inv.AcceptGeneric(id))
  {
  }

  lemma IssueKeepsSubjects(inv: Invites, id: InvitationId, r: SubjectRecord)
    requires SubjectsOk(inv) && id !in inv.subjects
    requires RecordOk(r) && r.org in inv.schema && LinkOk(inv.subjects, r)
    ensures SubjectsOk(inv.Issue(id, r))
  {
    hide RecordOk;
  }

  lemma IssueKeepsIndex(inv: Invites, id: InvitationId, r: SubjectRecord)
    requires IndexOk(inv) && inv.IsFresh(id, r.digest) && r.status == Open
    ensures IndexOk(inv.Issue(id, r))
  {
    hide GenericIndexed, SubjectsIndexed, IndexResolves;
    GenericIndexedFrame(inv, inv.Issue(id, r), r.digest);
    IssueIndexed(inv, id, r);
    IssueResolves(inv, id, r);
  }

  lemma IssueIndexed(inv: Invites, id: InvitationId, r: SubjectRecord)
    requires SubjectsIndexed(inv) && inv.IsFresh(id, r.digest) && r.status == Open
    ensures SubjectsIndexed(inv.Issue(id, r))
  {
  }

  lemma IssueResolves(inv: Invites, id: InvitationId, r: SubjectRecord)
    requires IndexResolves(inv) && inv.IsFresh(id, r.digest)
    ensures IndexResolves(inv.Issue(id, r))
  {
  }

  lemma IssueKeepsActive(inv: Invites, id: InvitationId, r: SubjectRecord)
    requires ActiveOk(inv) && id !in inv.subjects && r.status == Open && (r.org, r.subject) !in inv.active
    ensures ActiveOk(inv.Issue(id, r))
  {
  }

  lemma IssueKeeps(inv: Invites, id: InvitationId, r: SubjectRecord)
    requires InvitesInv(inv) && inv.IsFresh(id, r.digest) && r.status == Open && (r.org, r.subject) !in inv.active
    requires RecordOk(r) && r.org in inv.schema && LinkOk(inv.subjects, r)
    ensures InvitesInv(inv.Issue(id, r))
  {
    hide SubjectsOk, IndexOk, ActiveOk, RecordOk, LinkOk;
    IssueKeepsSubjects(inv, id, r);
    IssueKeepsIndex(inv, id, r);
    IssueKeepsActive(inv, id, r);
  }

  lemma CloseKeepsSubjects(inv: Invites, id: InvitationId, status: InvitationStatus)
    requires SubjectsOk(inv) && id in inv.subjects && inv.subjects[id].digest in inv.index
    requires inv.subjects[id].status == Open && RecordOk(inv.subjects[id].(status := status))
    ensures SubjectsOk(inv.Close(id, status))
  {
    hide RecordOk;
    var t := inv.Close(id, status).subjects;
    forall k | k in t ensures LinkOk(t, t[k]) {
      assert LinkOk(inv.subjects, inv.subjects[k]);
    }
  }

  lemma CloseKeepsIndex(inv: Invites, id: InvitationId, status: InvitationStatus)
    requires IndexOk(inv) && id in inv.subjects && inv.subjects[id].digest in inv.index
    ensures IndexOk(inv.Close(id, status))
  {
    hide GenericIndexed, SubjectsIndexed, IndexResolves;
    EntryOfSubject(inv, id);
    GenericIndexedFrame(inv, inv.Close(id, status), inv.subjects[id].digest);
    CloseIndexed(inv, id, status);
    CloseResolves(inv, id, status);
  }

  lemma CloseIndexed(inv: Invites, id: InvitationId, status: InvitationStatus)
    requires SubjectsIndexed(inv) && id in inv.subjects && inv.subjects[id].digest in inv.index
    ensures SubjectsIndexed(inv.Close(id, status))
  {
    assert inv.index[inv.subjects[id].digest].invitation == id;
  }

  lemma CloseResolves(inv: Invites, id: InvitationId, status: InvitationStatus)
    requires IndexResolves(inv) && id in inv.subjects && inv.subjects[id].digest in inv.index
    ensures IndexResolves(inv.Close(id, status))
  {
  }

  lemma CloseKeepsActive(inv: Invites, id: InvitationId, status: InvitationStatus)
    requires ActiveOk(inv) && id in inv.subjects && inv.subjects[id].digest in inv.index
    requires inv.subjects[id].status == Open && status != Open
    ensures ActiveOk(inv.Close(id, status))
    ensures (inv.subjects[id].org, inv.subjects[id].subject) !in inv.Close(id, status).active
  {
  }

  lemma CloseKeeps(inv: Invites, id: InvitationId, status: InvitationStatus)
    requires InvitesInv(inv) && id in inv.subjects && inv.subjects[id].status == Open && status != Open
    requires if status == Accepted then inv.subjects[id].delivery == Delivered else inv.subjects[id].delivery != Sending
    ensures inv.subjects[id].digest in inv.index && InvitesInv(inv.Close(id, status))
    ensures (inv.subjects[id].org, inv.subjects[id].subject) !in inv.Close(id, status).active
  {
    assert inv.subjects[id].digest in inv.index;
    hide IndexOk, ActiveOk, LinkOk;
    CloseKeepsSubjects(inv, id, status);
    CloseKeepsIndex(inv, id, status);
    CloseKeepsActive(inv, id, status);
  }

  lemma DeliverKeepsSubjects(inv: Invites, id: InvitationId, d: Delivery)
    requires SubjectsOk(inv) && id in inv.subjects && RecordOk(inv.subjects[id].(delivery := d))
    ensures SubjectsOk(inv.Deliver(id, d))
  {
    hide RecordOk;
    var t := inv.Deliver(id, d).subjects;
    forall k | k in t ensures LinkOk(t, t[k]) {
      assert LinkOk(inv.subjects, inv.subjects[k]);
    }
  }

  lemma DeliverKeepsIndex(inv: Invites, id: InvitationId, d: Delivery)
    requires SubjectsIndexed(inv) && id in inv.subjects
    ensures SubjectsIndexed(inv.Deliver(id, d))
  {
  }

  lemma DeliverResolves(inv: Invites, id: InvitationId, d: Delivery)
    requires IndexResolves(inv) && id in inv.subjects
    ensures IndexResolves(inv.Deliver(id, d))
  {
  }

  lemma DeliverKeepsActive(inv: Invites, id: InvitationId, d: Delivery)
    requires ActiveOk(inv) && id in inv.subjects
    ensures ActiveOk(inv.Deliver(id, d))
  {
  }

  lemma OneRecordOk(inv: Invites, id: InvitationId)
    requires SubjectsOk(inv) && id in inv.subjects
    ensures RecordOk(inv.subjects[id])
  {
  }

  lemma DeliverKeeps(inv: Invites, id: InvitationId, d: Delivery)
    requires InvitesInv(inv) && id in inv.subjects && inv.subjects[id].status == Open
    requires inv.subjects[id].route.Some? && d != NotDelivered
    ensures InvitesInv(inv.Deliver(id, d))
  {
    hide SubjectsOk, ActiveOk, GenericIndexed, SubjectsIndexed, IndexResolves;
    OneRecordOk(inv, id);
    DeliverKeepsSubjects(inv, id, d);
    DeliverKeepsIndex(inv, id, d);
    DeliverResolves(inv, id, d);
    DeliverKeepsActive(inv, id, d);
    GenericIndexedSame(inv, inv.Deliver(id, d));
  }

  lemma GenericIndexedSame(inv: Invites, next: Invites)
    requires GenericIndexed(inv) && next.generic == inv.generic && next.index == inv.index
    ensures GenericIndexed(next)
  {
  }

  lemma InitializeKeeps(s: State, c: Context, evidence: bool)
    requires InvitesInv(s.invites)
    ensures InvitesInv(InitializeSchema(s, c, evidence).state.invites)
  {
    hide SubjectsOk, ActiveOk;
    SameSubjectsKeep(s.invites, InitializeSchema(s, c, evidence).state.invites);
  }

  // ---- Operations ----

  lemma CreateInvitationKeeps(s: State, c: Context, role: Role, lifetime: int, id: InvitationId, token: string,
                              now: Time)
    requires InvitesInv(s.invites)
    ensures InvitesInv(CreateInvitation(s, c, role, lifetime, id, token, now).state.invites)
  {
    hide InvitesInv, Invites.IsFresh;
    if CreateInvitation(s, c, role, lifetime, id, token, now).reply.Ok? {
      IssueGenericKeeps(s.invites, id, GenericRecord(c.org, role, TokenDigest(token).value, now + lifetime, Open));
    }
  }

  lemma AcceptInvitationKeeps(s: State, uid: Uid, token: string, now: Time)
    requires InvitesInv(s.invites)
    ensures InvitesInv(AcceptInvitation(s, uid, token, now).state.invites)
  {
    hide SubjectsOk, ActiveOk, IndexOk;
    if AcceptInvitation(s, uid, token, now).reply.Ok? {
      AcceptGenericKeeps(s.invites, GenericMatch(s.invites, TokenDigest(token).value, now).value);
    }
  }

  /** A generic token opens its invitation exactly when that invitation is open and unexpired. */
  lemma GenericTokenOpens(inv: Invites, id: InvitationId, now: Time)
    requires InvitesInv(inv) && id in inv.generic
    ensures GenericMatch(inv, inv.generic[id].digest, now)
            == if inv.generic[id].status == Open && now < inv.generic[id].expiresAt then Some(id) else None
  {
    OneMatchPerDigest(inv, inv.generic[id].digest);
    hide SubjectsOk, ActiveOk;
    var d := inv.generic[id].digest;
    assert id in (set k | k in inv.generic && inv.generic[k].digest == d);
    forall k | k in inv.subjects ensures inv.subjects[k].digest != d {
      assert inv.index[inv.subjects[k].digest].kind == SubjectKind;
    }
  }

  /** A subject token opens its invitation, for a new member, exactly when that invitation is open, delivered and
      unexpired. */
  lemma SubjectTokenOpens(s: State, id: InvitationId, uid: Uid, now: Time)
    requires InvitesInv(s.invites) && id in s.invites.subjects
    ensures var r := s.invites.subjects[id];
            SubjectMatch(s, uid, r.digest, now)
            == if r.status == Open && r.delivery == Delivered && now < r.expiresAt
              && (r.org, uid) !in s.authority.memberships
               then Some(id) else None
  {
    hide Relation, Invites.OpenFor, ActiveOk, LinkOk;
    var inv := s.invites;
    var r := inv.subjects[id];
    OneMatchPerDigest(inv, r.digest);
    RelationNeverRaises(inv, r.org, r.subject);
    if r.status == Open {
      OpenIsActive(inv, id);
    }
    assert id in (set k | k in inv.subjects && inv.subjects[k].digest == r.digest);
    forall k | k in inv.generic ensures inv.generic[k].digest != r.digest {
      assert inv.index[inv.generic[k].digest].kind == GenericKind;
    }
  }

  lemma OpenIsActive(inv: Invites, id: InvitationId)
    requires ActiveOk(inv) && id in inv.subjects && inv.subjects[id].status == Open
    ensures (inv.subjects[id].org, inv.subjects[id].subject) in inv.active
            && inv.active[(inv.subjects[id].org, inv.subjects[id].subject)] == id
  {
  }

  lemma DeliveryKeeps(s: State, c: Context, grant: Grant, delivered: bool)
    requires InvitesInv(s.invites)
    ensures InvitesInv(BeginDelivery(s, c, grant).state.invites)
    ensures InvitesInv(RecordDelivery(s, c, grant, delivered).state.invites)
  {
    hide InvitesInv, Relation, Invites.OpenFor;
    RelationNeverRaises(s.invites, c.org, grant.subject);
    if BeginDelivery(s, c, grant).reply.Ok? {
      DeliverKeeps(s.invites, GrantedRecord(s, c, grant, Pending).value, Sending);
    }
    if RecordDelivery(s, c, grant, delivered).reply.Ok? {
      DeliverKeeps(s.invites, GrantedRecord(s, c, grant, Sending).value,
                   if delivered then Delivered else DeliveryFailed);
    }
  }

  lemma AcceptSubjectKeeps(s: State, uid: Uid, token: string, now: Time)
    requires InvitesInv(s.invites)
    ensures InvitesInv(AcceptSubjectInvitation(s, uid, token, now).state.invites)
  {
    hide InvitesInv, Relation;
    if AcceptSubjectInvitation(s, uid, token, now).reply.Ok? {
      CloseKeeps(s.invites, SubjectMatch(s, uid, TokenDigest(token).value, now).value, Accepted);
    }
  }
}
