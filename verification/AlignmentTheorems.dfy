/** What an alignment report guarantees. */
module AlignmentTheorems {
  import opened Basics
  import opened Domain
  import opened AlignmentModel

  // ---- Looking assignments up by identifier ----

  function Having(xs: seq<Assignment>, id: AssignmentId): seq<Assignment> { Filter(xs, (a: Assignment) => a.id == id) }

  /** Identifiers are primary keys. */
  ghost predicate DistinctIds(xs: seq<Assignment>) { forall id :: |Having(xs, id)| <= 1 }

  lemma HavingMember(xs: seq<Assignment>, a: Assignment)
    requires a in xs && |Having(xs, a.id)| <= 1
    ensures Having(xs, a.id) == [a]
  {
    FilterMember(xs, (x: Assignment) => x.id == a.id, a);
  }

  lemma HavingSnoc(xs: seq<Assignment>, id: AssignmentId)
    requires xs != []
    ensures var last := xs[|xs| - 1];
            Having(xs, id) == Having(xs[..|xs| - 1], id) + (if last.id == id then [last] else [])
  {
  }

  lemma {:induction false} LookupIsLast(xs: seq<Assignment>, c: Contributions, id: AssignmentId)
    ensures var h := Having(xs, id);
            && (id in ById(xs) <==> h != []) && (id in Statuses(xs, c) <==> h != [])
            && (h != [] ==>
                ById(xs)[id] == h[|h| - 1] && Statuses(xs, c)[id] == StatusOf(h[|h| - 1], c) && h[|h| - 1].id == id
                            && h[|h| - 1] in xs)
  {
    hide StatusOf;
    if xs != [] {
      LookupIsLast(xs[..|xs| - 1], c, id);
      HavingSnoc(xs, id);
    }
  }

  /** With primary keys every lookup finds the assignment itself. */
  lemma LookupFinds(xs: seq<Assignment>, c: Contributions, a: Assignment)
    requires DistinctIds(xs) && a in xs
    ensures a.id in ById(xs) && ById(xs)[a.id] == a && a.id in Statuses(xs, c)
            && Statuses(xs, c)[a.id] == StatusOf(a, c)
  {
    hide StatusOf;
    HavingMember(xs, a);
    LookupIsLast(xs, c, a.id);
  }

  // ---- Sorting changes no lookup ----

  predicate SortedById(xs: seq<Assignment>) { forall i, j :: 0 <= i < j < |xs| ==> xs[i].id <= xs[j].id }

  lemma {:induction false} FilterJoin<T>(xs: seq<T>, ys: seq<T>, p: T -> bool)
    ensures Filter(xs + ys, p) == Filter(xs, p) + Filter(ys, p)
  {
    if ys == [] {
      assert xs + ys == xs;
    } else {
      assert (xs + ys)[..|xs + ys| - 1] == xs + ys[..|ys| - 1];
      FilterJoin(xs, ys[..|ys| - 1], p);
    }
  }

  lemma FilterOne<T>(x: T, p: T -> bool)
    ensures Filter([x], p) == if p(x) then [x] else []
  {
    assert [x][..0] == [];
  }

  lemma {:induction false} InsertKeepsMembers(sorted: seq<Assignment>, a: Assignment)
    ensures multiset(InsertById(sorted, a)) == multiset(sorted + [a])
  {
    if sorted != [] && sorted[|sorted| - 1].id > a.id {
      var rest, last := sorted[..|sorted| - 1], sorted[|sorted| - 1];
      InsertKeepsMembers(rest, a);
      assert sorted == rest + [last];
    }
  }

  lemma {:induction false} InsertKeepsSorted(sorted: seq<Assignment>, a: Assignment)
    requires SortedById(sorted)
    ensures SortedById(InsertById(sorted, a))
  {
    if sorted != [] && sorted[|sorted| - 1].id > a.id {
      var rest, last := sorted[..|sorted| - 1], sorted[|sorted| - 1];
      InsertKeepsSorted(rest, a);
      InsertKeepsMembers(rest, a);
      var inner := InsertById(rest, a);
      forall k | 0 <= k < |inner| ensures inner[k].id <= last.id {
        assert inner[k] in multiset(rest + [a]);
        assert inner[k] in rest + [a];
      }
    }
  }

  lemma {:induction false} InsertKeepsCount(sorted: seq<Assignment>, a: Assignment, p: Assignment -> bool)
    ensures |Filter(InsertById(sorted, a), p)| == |Filter(sorted, p)| + (if p(a) then 1 else 0)
  {
    hide Filter;
    FilterOne(a, p);
    FilterJoin(sorted, [a], p);
    if sorted != [] && sorted[|sorted| - 1].id > a.id {
      var rest, last := sorted[..|sorted| - 1], sorted[|sorted| - 1];
      InsertKeepsCount(rest, a, p);
      FilterJoin(rest, [last], p);
      assert sorted == rest + [last];
      FilterJoin(InsertById(rest, a), [last], p);
      FilterOne(last, p);
    }
  }

  lemma {:induction false} InsertKeepsHaving(sorted: seq<Assignment>, a: Assignment, id: AssignmentId)
    requires SortedById(sorted)
    ensures Having(InsertById(sorted, a), id) == Having(sorted, id) + (if a.id == id then [a] else [])
  {
    var p := (x: Assignment) => x.id == id;
    FilterOne(a, p);
    FilterJoin(sorted, [a], p);
    if sorted != [] && sorted[|sorted| - 1].id > a.id {
      var rest, last := sorted[..|sorted| - 1], sorted[|sorted| - 1];
      InsertKeepsHaving(rest, a, id);
      FilterJoin(InsertById(rest, a), [last], p);
      FilterOne(last, p);
    }
  }

  lemma {:induction false} SortKeepsBag(xs: seq<Assignment>)
    ensures SortedById(SortById(xs)) && multiset(SortById(xs)) == multiset(xs)
  {
    hide InsertById;
    if xs != [] {
      var rest, last := xs[..|xs| - 1], xs[|xs| - 1];
      SortKeepsBag(rest);
      assert xs == rest + [last];
      InsertKeepsMembers(SortById(rest), last);
      InsertKeepsSorted(SortById(rest), last);
    }
  }

  lemma {:induction false} SortKeepsCount(xs: seq<Assignment>, p: Assignment -> bool)
    ensures |Filter(SortById(xs), p)| == |Filter(xs, p)|
  {
    hide InsertById;
    if xs != [] {
      SortKeepsCount(xs[..|xs| - 1], p);
      InsertKeepsCount(SortById(xs[..|xs| - 1]), xs[|xs| - 1], p);
    }
  }

  lemma {:induction false} SortKeepsHaving(xs: seq<Assignment>, id: AssignmentId)
    ensures Having(SortById(xs), id) == Having(xs, id)
  {
    hide InsertById, Having;
    if xs == [] {
      assert SortById(xs) == xs;
    } else {
      SortKeepsHaving(xs[..|xs| - 1], id);
      SortKeepsBag(xs[..|xs| - 1]);
      InsertKeepsHaving(SortById(xs[..|xs| - 1]), xs[|xs| - 1], id);
      HavingSnoc(xs, id);
    }
  }

  /** Sorting by identifier keeps every count, every member and, per identifier, the order. */
  lemma SortKeeps(xs: seq<Assignment>, p: Assignment -> bool, id: AssignmentId)
    ensures var r := SortById(xs);
            SortedById(r) && multiset(r) == multiset(xs) && |Filter(r, p)| == |Filter(xs, p)|
              && Having(r, id) == Having(xs, id)
  {
    hide SortById, Having, Filter, SortedById;
    SortKeepsBag(xs);
    SortKeepsCount(xs, p);
    SortKeepsHaving(xs, id);
  }

  lemma SortKeepsMembers(xs: seq<Assignment>, a: Assignment)
    ensures a in SortById(xs) <==> a in xs
  {
    SortKeeps(xs, _ => true, 0);
    assert a in multiset(SortById(xs)) <==> a in multiset(xs);
  }

  lemma SortKeepsDistinct(xs: seq<Assignment>)
    requires DistinctIds(xs)
    ensures DistinctIds(SortById(xs))
  {
    forall id ensures |Having(SortById(xs), id)| <= 1 {
      SortKeeps(xs, _ => true, id);
    }
  }

  lemma SortKeepsValid(plan: Plan, xs: seq<Assignment>, mandate: MandateId)
    ensures ValidIds(plan, SortById(xs), mandate) == ValidIds(plan, xs, mandate)
  {
    var ys := SortById(xs);
    forall a ensures IsValid(plan, ys, mandate, a) == IsValid(plan, xs, mandate, a) {
      SortKeeps(xs, (x: Assignment) => x.person == a.person, 0);
    }
    forall id ensures id in ValidIds(plan, ys, mandate) <==> id in ValidIds(plan, xs, mandate) {
      if id in ValidIds(plan, ys, mandate) {
        var i :| 0 <= i < |ys| && IsValid(plan, ys, mandate, ys[i]) && ys[i].id == id;
        SortKeepsMembers(xs, ys[i]);
        var j :| 0 <= j < |xs| && xs[j] == ys[i];
        assert IsValid(plan, xs, mandate, xs[j]);
      }
      if id in ValidIds(plan, xs, mandate) {
        var i :| 0 <= i < |xs| && IsValid(plan, xs, mandate, xs[i]) && xs[i].id == id;
        SortKeepsMembers(xs, xs[i]);
        var j :| 0 <= j < |ys| && ys[j] == xs[i];
        assert IsValid(plan, ys, mandate, ys[j]);
      }
    }
  }

  lemma SortKeepsById(xs: seq<Assignment>, c: Contributions)
    ensures ById(SortById(xs)) == ById(xs)
  {
    forall id ensures id in ById(SortById(xs)) <==> id in ById(xs)
              ensures id in ById(xs) ==> ById(SortById(xs))[id] == ById(xs)[id] {
      SortKeeps(xs, _ => true, id);
      LookupIsLast(xs, c, id);
      LookupIsLast(SortById(xs), c, id);
    }
  }

  // ---- Every deterministic issue blocks ----

  predicate AllBlock(issues: seq<Issue>) { forall i :: 0 <= i < |issues| ==> issues[i].blocking }

  lemma BlockJoin(xs: seq<Issue>, ys: seq<Issue>)
    requires AllBlock(xs) && AllBlock(ys)
    ensures AllBlock(xs + ys) && (xs + ys == [] <==> xs == [] && ys == [])
  {
  }

  lemma OneBlocks(b: Board, person: PersonId, a: Assignment)
    ensures AllBlock(RequiredIssue(b, person)) && AllBlock(UnplannedIssue(b, a)) && AllBlock(OptionalIssue(b, a))
  {
    hide Board.RequiredOf;
  }

  lemma {:induction false} RequiredBlock(b: Board, persons: seq<PersonId>)
    ensures AllBlock(RequiredIssues(b, persons))
    ensures RequiredIssues(b, persons) == [] <==> forall i :: 0 <= i < |persons| ==> RequiredIssue(b, persons[i]) == []
  {
    hide RequiredIssue, AllBlock;
    if persons == [] {
      assert AllBlock([]) by { BlockNone(); }
    } else {
      var rest, last := persons[..|persons| - 1], persons[|persons| - 1];
      RequiredBlock(b, rest);
      OneRequiredBlocks(b, last);
      BlockJoin(RequiredIssues(b, rest), RequiredIssue(b, last));
    }
  }

  lemma BlockNone()
    ensures AllBlock([])
  {
  }

  lemma OneRequiredBlocks(b: Board, person: PersonId)
    ensures AllBlock(RequiredIssue(b, person))
  {
    hide Board.RequiredOf;
  }

  lemma {:induction false} OptionalBlock(b: Board, xs: seq<Assignment>)
    ensures AllBlock(OptionalIssues(b, xs)) && AllBlock(UnplannedIssues(b, xs))
    ensures OptionalIssues(b, xs) == [] <==> forall i :: 0 <= i < |xs| ==> OptionalIssue(b, xs[i]) == []
  {
    hide OptionalIssue, UnplannedIssue, AllBlock;
    if xs == [] {
      BlockNone();
    } else {
      var rest, last := xs[..|xs| - 1], xs[|xs| - 1];
      OptionalBlock(b, rest);
      OneBlocks(b, 0, last);
      BlockJoin(OptionalIssues(b, rest), OptionalIssue(b, last));
      BlockJoin(UnplannedIssues(b, rest), UnplannedIssue(b, last));
    }
  }

  lemma DecisionBlock(ps: Patterns, candidates: seq<SharedItem>, decision: string)
    ensures AllBlock(DecisionIssues(ps, candidates, decision))
  {
    hide FactsConflict, Least, Greatest, Quantified, Filter, IdsOf, NamesOf;
    assert AllBlock(Disputes(candidates, decision)) && AllBlock(Contradictions(ps, candidates, decision));
    assert AllBlock(DeadlineConflicts(candidates, decision)) && AllBlock(ResourceConflicts(ps, candidates, decision));
    assert AllBlock(HardConstraints(ps, candidates, decision));
    hide Disputes, Contradictions, DeadlineConflicts, ResourceConflicts, HardConstraints;
  }

  lemma {:induction false} EvidenceBlock(ps: Patterns, evidence: seq<SharedItem>, decisions: seq<string>)
    ensures AllBlock(EvidenceIssues(ps, evidence, decisions))
  {
    hide DecisionIssues, AllBlock;
    if decisions == [] {
      BlockNone();
    } else {
      var d := decisions[|decisions| - 1];
      var candidates := Filter(evidence, (e: SharedItem) => e.related == Some(d));
      EvidenceBlock(ps, evidence, decisions[..|decisions| - 1]);
      DecisionBlock(ps, candidates, d);
      BlockJoin(EvidenceIssues(ps, evidence, decisions[..|decisions| - 1]), DecisionIssues(ps, candidates, d));
    }
  }

  function GapIssue(decision: string, covered: seq<string>): seq<Issue> { GapIssues([decision], covered) }

  lemma GapSnoc(decisions: seq<string>, covered: seq<string>)
    requires decisions != []
    ensures var last := decisions[|decisions| - 1];
            && GapIssues(decisions, covered)
              == GapIssues(decisions[..|decisions| - 1], covered) + GapIssue(last, covered)
            && AllBlock(GapIssue(last, covered)) && (GapIssue(last, covered) == [] <==> last in covered)
  {
    var last := decisions[|decisions| - 1];
    assert [last][..0] == [] && GapIssues([], covered) == [];
  }

  lemma {:induction false} GapBlock(decisions: seq<string>, covered: seq<string>)
    ensures AllBlock(GapIssues(decisions, covered))
    ensures GapIssues(decisions, covered) == [] <==> forall i :: 0 <= i < |decisions| ==> decisions[i] in covered
  {
    hide GapIssues, AllBlock, GapIssue;
    if decisions == [] {
      NoGap(covered);
    } else {
      var rest, last := decisions[..|decisions| - 1], decisions[|decisions| - 1];
      GapBlock(rest, covered);
      GapSnoc(decisions, covered);
      BlockJoin(GapIssues(rest, covered), GapIssue(last, covered));
    }
  }

  lemma NoGap(covered: seq<string>)
    ensures GapIssues([], covered) == [] && AllBlock([])
  {
  }

  lemma DeterministicBlock(ps: Patterns, b: Board, evidence: seq<SharedItem>)
    ensures AllBlock(DeterministicIssues(ps, b, evidence))
  {
    hide RequiredIssues, UnplannedIssues, OptionalIssues, EvidenceIssues, Filter;
    RequiredBlock(b, Ascending(PlannedRequired(b.plan)));
    OptionalBlock(b, b.Required());
    OptionalBlock(b, b.assignments);
    EvidenceBlock(ps, evidence, DistinctDecisions(b.plan.requiredDecisions));
  }

  // ---- Aligned exactly when nothing blocks ----

  lemma SoleMatch<T>(xs: seq<T>, p: T -> bool, q: T -> bool, both: T -> bool, x: T)
    requires Filter(xs, p) == [x] && q(x) && forall y :: y in xs ==> both(y) == (p(y) && q(y))
    ensures Filter(xs, both) == [x]
  {
    FilterTwice(xs, p, q, both);
    FilterOne(x, q);
  }

  lemma SoleRequired(b: Board, person: PersonId)
    requires b.statuses.Some? && RequiredIssue(b, person) == []
    ensures var matching := b.RequiredOf(person);
            && |matching| == 1 && matching[0].id in b.valid
            && ContributionIssue(matching[0], b.Status(matching[0].id)) == []
            && matching[0] in b.assignments && matching[0].required
  {
    hide Filter, ContributionIssue;
    var a := b.RequiredOf(person)[0];
    FilterMember(b.Required(), (x: Assignment) => x.person == person, a);
    FilterMember(b.assignments, (x: Assignment) => x.required, a);
  }

  /** A planned required person without an issue has exactly one valid, complete contribution. */
  lemma NoIssueIsComplete(b: Board, c: Contributions, person: PersonId)
    requires b.statuses == Some(Statuses(b.assignments, c)) && DistinctIds(b.assignments)
    requires RequiredIssue(b, person) == []
    ensures |Filter(b.Required(), (a: Assignment) => a.person == person && a.id in b.valid
                    && b.Status(a.id).state == Contributed)| == 1
  {
    hide StatusOf, Statuses, DistinctIds, RequiredIssue, Filter, Board.Required;
    SoleRequired(b, person);
    var a := b.RequiredOf(person)[0];
    LookupFinds(b.assignments, c, a);
    BlocksExactly(a, c);
    assert b.RequiredOf(person) == [a];
    SoleMatch(b.Required(), (x: Assignment) => x.person == person,
              (x: Assignment) => x.id in b.valid && b.Status(x.id).state == Contributed,
              (x: Assignment) => x.person == person && x.id in b.valid && b.Status(x.id).state == Contributed, a);
  }

  /** A contribution blocks exactly when it is required and missing, or objects, required or not. */
  lemma BlocksExactly(a: Assignment, c: Contributions)
    ensures var status := StatusOf(a, c);
            status.blocking <==> (a.required && status.state != Contributed)
                                 || status.state == Rejected || status.state == ChangeRequested
    ensures StatusOf(a, c).state == Contributed ==> a.state == Complete
  {
  }

  lemma {:induction false} NoIssueAllComplete(b: Board, c: Contributions)
    requires b.statuses == Some(Statuses(b.assignments, c)) && DistinctIds(b.assignments)
    requires RequiredIssues(b, Ascending(PlannedRequired(b.plan))) == []
    ensures AllComplete(b)
  {
    hide RequiredIssue, RequiredIssues, Statuses, Filter, DistinctIds;
    var persons := Ascending(PlannedRequired(b.plan));
    RequiredBlock(b, persons);
    forall p | p in PlannedRequired(b.plan)
      ensures |Filter(b.Required(), (a: Assignment) => a.person == p && a.id in b.valid
                      && b.Status(a.id).state == Contributed)| == 1
    {
      var i :| 0 <= i < |persons| && persons[i] == p;
      NoIssueIsComplete(b, c, p);
    }
  }

  /** With contributions and primary keys, a report is aligned exactly when none of its issues blocks: the two other
      conjuncts of the code never decide. */
  lemma AlignedIffNothingBlocks(ps: Patterns, plan: Plan, mandate: MandateId, evidence: seq<SharedItem>,
                                assignments: seq<Assignment>,
                                blockers: nat, c: Contributions)
    requires DistinctIds(assignments)
    ensures var r := Analyze(ps, plan, mandate, evidence, assignments, blockers, Some(c));
            r.isAligned <==> !HasBlocking(r.issues)
  {
    hide DeterministicIssues, CoveredDecisions, UsableEvidence, GapIssues, AllComplete, Agreements, SortById, Statuses,
         ReviewBindings, ValidIds, DistinctIds, Filter, PrivateIssues;
    var b := BoardOf(plan, mandate, assignments, Some(c));
    var usable := UsableEvidence(b, evidence, Some(c));
    var covered := CoveredDecisions(b, Some(c), usable);
    var r := Analyze(ps, plan, mandate, evidence, assignments, blockers, Some(c));
    SortKeepsDistinct(assignments);
    DeterministicBlock(ps, b, usable);
    GapBlock(plan.requiredDecisions, covered);
    if !HasBlocking(r.issues) {
      AnythingBlocks(DeterministicIssues(ps, b, usable), PrivateIssues(blockers),
                     GapIssues(plan.requiredDecisions, covered));
      FirstPartEmpty(ps, b, usable);
      NoIssueAllComplete(b, c);
    }
  }

  lemma AnythingBlocks(xs: seq<Issue>, ys: seq<Issue>, zs: seq<Issue>)
    requires AllBlock(xs) && AllBlock(zs)
    ensures xs != [] || zs != [] ==> HasBlocking(xs + ys + zs)
  {
    if xs != [] {
      assert (xs + ys + zs)[0] == xs[0];
    }
    if zs != [] {
      assert (xs + ys + zs)[|xs| + |ys|] == zs[0];
    }
  }

  lemma FirstPartEmpty(ps: Patterns, b: Board, evidence: seq<SharedItem>)
    requires DeterministicIssues(ps, b, evidence) == []
    ensures RequiredIssues(b, Ascending(PlannedRequired(b.plan))) == [] && OptionalIssues(b, b.assignments) == []
  {
    hide RequiredIssues, UnplannedIssues, OptionalIssues, EvidenceIssues, Filter;
  }

  // ---- What alignment guarantees ----

  /** A decision approved in its uniquely bound, complete review assignment. */
  predicate ApprovedBy(plan: Plan, xs: seq<Assignment>, valid: set<AssignmentId>, c: Contributions, decision: string,
                       a: Assignment,
                       d: EngagementDecision)
  {
    && a in xs && a.id in valid && a.engagement == ReviewApproval && a.reason == decision
    && d in c.decisions && DecidesFor(d, a) && d.response == Approve
    && StatusOf(a, c).state == Contributed
    && (forall other :: (&& other in xs && other.id in valid && other.engagement == ReviewApproval
                         && other.reason == decision) ==> other.id == a.id)
  }

  /** A decision supported by confirmed evidence of a valid, complete interview. */
  predicate SupportedBy(xs: seq<Assignment>, valid: set<AssignmentId>, c: Contributions, decision: string,
                        a: Assignment, e: EvidenceItem)
  {
    && a in xs && a.id in valid && IsInterview(a.engagement) && StatusOf(a, c).state == Contributed
    && e in c.evidence && BoundTo(e, a) && Counts(e) && e.related == Some(decision)
  }

  lemma {:induction false} CandidateIsReview(plan: Plan, xs: seq<Assignment>, valid: set<AssignmentId>,
                                             id: AssignmentId)
    ensures var cs := ReviewCandidates(plan, xs, valid);
            id in cs ==>
              id in valid && exists a :: a in xs && a.id == id && a.engagement == ReviewApproval && a.reason == cs[id]
  {
    hide Filter;
    if xs != [] {
      CandidateIsReview(plan, xs[..|xs| - 1], valid, id);
      assert xs == xs[..|xs| - 1] + [xs[|xs| - 1]];
    }
  }

  lemma {:induction false} ReviewIsCandidate(plan: Plan, xs: seq<Assignment>, valid: set<AssignmentId>, a: Assignment)
    requires DistinctIds(xs) && a in xs && a.id in valid && a.engagement == ReviewApproval
    requires |Filter(plan.requiredDecisions, d => d == a.reason)| == 1
    ensures var cs := ReviewCandidates(plan, xs, valid); a.id in cs && cs[a.id] == a.reason
    decreases |xs|
  {
    hide Filter;
    var rest, last := xs[..|xs| - 1], xs[|xs| - 1];
    assert xs == rest + [last];
    if last != a {
      assert a in rest;
      HavingMember(xs, a);
      SameIdOnce(xs, a, last);
      RestIsDistinct(xs);
      ReviewIsCandidate(plan, rest, valid, a);
    }
  }

  lemma SameIdOnce(xs: seq<Assignment>, a: Assignment, x: Assignment)
    requires Having(xs, a.id) == [a] && x in xs && x != a
    ensures x.id != a.id
  {
    FilterMember(xs, (y: Assignment) => y.id == a.id, x);
  }

  lemma RestIsDistinct(xs: seq<Assignment>)
    requires DistinctIds(xs) && xs != []
    ensures DistinctIds(xs[..|xs| - 1])
  {
    var rest := xs[..|xs| - 1];
    forall id ensures |Having(rest, id)| <= 1 {
      HavingSnoc(xs, id);
    }
  }

  /** A bound review is the only valid review of its decision. */
  lemma BindingIsUnique(plan: Plan, xs: seq<Assignment>, valid: set<AssignmentId>, a: Assignment, decision: string)
    requires DistinctIds(xs) && a in xs && a.id in ReviewBindings(plan, xs, valid)
    requires ReviewBindings(plan, xs, valid)[a.id] == decision
    ensures a.id in valid && a.engagement == ReviewApproval && a.reason == decision
    ensures forall other ::
            (&& other in xs && other.id in valid && other.engagement == ReviewApproval && other.reason == decision
                             && |Filter(plan.requiredDecisions, d => d == other.reason)| == 1) ==> other.id == a.id
  {
    hide DistinctIds, ReviewCandidates, Filter;
    CandidateIsReview(plan, xs, valid, a.id);
    var cs := ReviewCandidates(plan, xs, valid);
    var x :| x in xs && x.id == a.id && x.engagement == ReviewApproval && x.reason == cs[a.id];
    OneIdOneAssignment(xs, a, x);
    forall other | other in xs && other.id in valid && other.engagement == ReviewApproval && other.reason == decision
                   && |Filter(plan.requiredDecisions, d => d == other.reason)| == 1
      ensures other.id == a.id
    {
      ReviewIsCandidate(plan, xs, valid, other);
    }
  }

  lemma OneIdOneAssignment(xs: seq<Assignment>, a: Assignment, x: Assignment)
    requires DistinctIds(xs) && a in xs && x in xs && x.id == a.id
    ensures x == a
  {
    HavingMember(xs, a);
    FilterMember(xs, (y: Assignment) => y.id == a.id, x);
  }

  lemma SoleDecision(plan: Plan, a: string, b: string)
    requires a == b
    ensures |Filter(plan.requiredDecisions, d => d == a)| == |Filter(plan.requiredDecisions, d => d == b)|
  {
    FilterSame(plan.requiredDecisions, d => d == a, d => d == b);
  }

  /** What covers a decision. */
  ghost predicate HasWitness(plan: Plan, mandate: MandateId, xs: seq<Assignment>, c: Contributions, decision: string) {
    var valid := ValidIds(plan, xs, mandate);
    || (exists a, d :: ApprovedBy(plan, xs, valid, c, decision, a, d))
    || (exists a, e :: SupportedBy(xs, valid, c, decision, a, e))
  }

  lemma ApprovalIsWitness(plan: Plan, mandate: MandateId, assignments: seq<Assignment>, c: Contributions,
                          decision: string,
                          d: EngagementDecision)
    requires DistinctIds(assignments) && d in c.decisions
    requires Approves(BoardOf(plan, mandate, assignments, Some(c)), d, decision)
    ensures HasWitness(plan, mandate, assignments, c, decision)
  {
    hide DistinctIds, StatusOf, Statuses, ValidIds, ReviewBindings, ById, SortById;
    var b := BoardOf(plan, mandate, assignments, Some(c));
    SortKeepsDistinct(assignments);
    SortKeepsValid(plan, assignments, mandate);
    LookupIsLast(b.assignments, c, d.assignment);
    var a := ById(b.assignments)[d.assignment];
    LookupFinds(b.assignments, c, a);
    BindingIsUnique(plan, b.assignments, b.valid, a, decision);
    SortKeepsMembers(assignments, a);
    forall other | other in assignments && other.id in b.valid && other.engagement == ReviewApproval
      && other.reason == decision
      ensures other.id == a.id
    {
      SortKeepsMembers(assignments, other);
      BoundReasonIsSole(plan, b.assignments, b.valid, a, other);
    }
    assert ApprovedBy(plan, assignments, ValidIds(plan, assignments, mandate), c, decision, a, d);
  }

  lemma BoundReasonIsSole(plan: Plan, xs: seq<Assignment>, valid: set<AssignmentId>, a: Assignment, other: Assignment)
    requires DistinctIds(xs) && a in xs && a.id in ReviewBindings(plan, xs, valid)
    requires other in xs && other.id in valid && other.engagement == ReviewApproval
             && other.reason == ReviewBindings(plan, xs, valid)[a.id]
    ensures other.id == a.id
  {
    hide DistinctIds, Filter;
    BindingIsUnique(plan, xs, valid, a, other.reason);
    CandidateIsSole(plan, xs, valid, a.id);
    SoleDecision(plan, other.reason, ReviewCandidates(plan, xs, valid)[a.id]);
  }

  lemma {:induction false} CandidateIsSole(plan: Plan, xs: seq<Assignment>, valid: set<AssignmentId>, id: AssignmentId)
    ensures var cs := ReviewCandidates(plan, xs, valid);
            id in cs ==> |Filter(plan.requiredDecisions, d => d == cs[id])| == 1
  {
    hide Filter;
    if xs != [] {
      CandidateIsSole(plan, xs[..|xs| - 1], valid, id);
      var cs, last := ReviewCandidates(plan, xs, valid), xs[|xs| - 1];
      if id in cs && cs[id] == last.reason {
        SoleDecision(plan, cs[id], last.reason);
      }
      if id in cs && id in ReviewCandidates(plan, xs[..|xs| - 1], valid)
          && cs[id] == ReviewCandidates(plan, xs[..|xs| - 1], valid)[id] {
        SoleDecision(plan, cs[id], ReviewCandidates(plan, xs[..|xs| - 1], valid)[id]);
      }
    }
  }

  lemma EvidenceIsWitness(plan: Plan, mandate: MandateId, assignments: seq<Assignment>, c: Contributions,
                          decision: string, e: EvidenceItem)
    requires DistinctIds(assignments) && e in c.evidence
    requires Evidences(BoardOf(plan, mandate, assignments, Some(c)), e, decision)
    ensures HasWitness(plan, mandate, assignments, c, decision)
  {
    hide DistinctIds, StatusOf, Statuses, ValidIds, ReviewBindings, ById, SortById;
    var b := BoardOf(plan, mandate, assignments, Some(c));
    SortKeepsDistinct(assignments);
    SortKeepsValid(plan, assignments, mandate);
    LookupIsLast(b.assignments, c, e.assignment);
    var a := ById(b.assignments)[e.assignment];
    LookupFinds(b.assignments, c, a);
    SortKeepsMembers(assignments, a);
    assert SupportedBy(assignments, ValidIds(plan, assignments, mandate), c, decision, a, e);
  }

  /** A valid review, required or not, that is bound and was rejected or sent back, leaves an issue. */
  lemma NoReviewObjects(b: Board, c: Contributions, mandate: MandateId, a: Assignment)
    requires b.statuses == Some(Statuses(b.assignments, c)) && DistinctIds(b.assignments)
    requires b.valid == ValidIds(b.plan, b.assignments, mandate)
    requires RequiredIssues(b, Ascending(PlannedRequired(b.plan))) == [] && OptionalIssues(b, b.assignments) == []
    requires a in b.assignments && a.id in b.valid && a.id in b.bindings && a.engagement == ReviewApproval
    ensures StatusOf(a, c).state != Rejected && StatusOf(a, c).state != ChangeRequested
  {
    hide StatusOf, Statuses, DistinctIds, RequiredIssue, RequiredIssues, OptionalIssues, Filter, ValidIds,
         Board.Required;
    LookupFinds(b.assignments, c, a);
    BlocksExactly(a, c);
    RequiredBlock(b, Ascending(PlannedRequired(b.plan)));
    OptionalBlock(b, b.assignments);
    if a.required {
      ValidIsPlanned(b.plan, b.assignments, mandate, a);
      var persons := Ascending(PlannedRequired(b.plan));
      assert a.person in persons;
      var i :| 0 <= i < |persons| && persons[i] == a.person;
      SoleRequired(b, a.person);
      RequiredMember(b, a);
    } else {
      var i :| 0 <= i < |b.assignments| && b.assignments[i] == a;
      assert OptionalIssue(b, b.assignments[i]) == [];
    }
  }

  lemma RequiredMember(b: Board, a: Assignment)
    requires a in b.assignments && a.required && |b.RequiredOf(a.person)| == 1
    ensures b.RequiredOf(a.person)[0] == a
  {
    hide Filter;
    FilterMember(b.assignments, (x: Assignment) => x.required, a);
    FilterMember(b.Required(), (x: Assignment) => x.person == a.person, a);
  }

  lemma ValidIsPlanned(plan: Plan, xs: seq<Assignment>, mandate: MandateId, a: Assignment)
    requires DistinctIds(xs) && a in xs && a.id in ValidIds(plan, xs, mandate)
    ensures IsValid(plan, xs, mandate, a)
    ensures a.required ==> a.person in PlannedRequired(plan)
  {
    hide DistinctIds, Filter;
    var i :| 0 <= i < |xs| && IsValid(plan, xs, mandate, xs[i]) && xs[i].id == a.id;
    OneIdOneAssignment(xs, a, xs[i]);
    var planned := Filter(plan.stakeholders, (s: Stakeholder) => s.person == a.person);
    FilterMember(plan.stakeholders, (s: Stakeholder) => s.person == a.person, planned[0]);
    var k :| 0 <= k < |plan.stakeholders| && plan.stakeholders[k] == planned[0];
  }

  /** An aligned report has a witness for every required decision, and no valid bound review rejects or asks for
      changes. */
  lemma AlignedIsWitnessed(ps: Patterns, plan: Plan, mandate: MandateId, evidence: seq<SharedItem>,
                           assignments: seq<Assignment>,
                           blockers: nat, c: Contributions)
    requires DistinctIds(assignments) && Analyze(ps, plan, mandate, evidence, assignments, blockers, Some(c)).isAligned
    ensures blockers == 0
    ensures forall decision :: decision in plan.requiredDecisions ==>
              HasWitness(plan, mandate, assignments, c, decision)
    ensures forall a :: a in assignments && a.id in BoardOf(plan, mandate, assignments, Some(c)).bindings ==>
              StatusOf(a, c).state != Rejected && StatusOf(a, c).state != ChangeRequested
  {
    hide DeterministicIssues, UsableEvidence, GapIssues, AllComplete, Agreements, SortById, Statuses, ReviewBindings,
         ValidIds, DistinctIds, Filter, PrivateIssues, HasWitness, StatusOf, IsCovered;
    var b := BoardOf(plan, mandate, assignments, Some(c));
    var usable := UsableEvidence(b, evidence, Some(c));
    var covered := CoveredDecisions(b, Some(c), usable);
    DeterministicBlock(ps, b, usable);
    GapBlock(plan.requiredDecisions, covered);
    AnythingBlocks(DeterministicIssues(ps, b, usable), PrivateIssues(blockers),
                   GapIssues(plan.requiredDecisions, covered));
    PrivateBlocks(DeterministicIssues(ps, b, usable), blockers, GapIssues(plan.requiredDecisions, covered));
    FirstPartEmpty(ps, b, usable);
    SortKeepsDistinct(assignments);
    forall decision | decision in plan.requiredDecisions ensures HasWitness(plan, mandate, assignments, c, decision) {
      FilterMember(plan.requiredDecisions, d => IsCovered(b, c, d), decision);
      CoveredIsWitnessed(plan, mandate, assignments, c, decision);
    }
    forall a | a in assignments && a.id in b.bindings
      ensures StatusOf(a, c).state != Rejected && StatusOf(a, c).state != ChangeRequested
    {
      SortKeepsMembers(assignments, a);
      BindingIsUnique(plan, b.assignments, b.valid, a, b.bindings[a.id]);
      NoReviewObjects(b, c, mandate, a);
    }
  }

  lemma PrivateBlocks(xs: seq<Issue>, blockers: nat, zs: seq<Issue>)
    ensures blockers > 0 ==> HasBlocking(xs + PrivateIssues(blockers) + zs)
  {
    if blockers > 0 {
      assert (xs + PrivateIssues(blockers) + zs)[|xs|] == PrivateIssues(blockers)[0];
    }
  }

  lemma CoveredIsWitnessed(plan: Plan, mandate: MandateId, assignments: seq<Assignment>, c: Contributions,
                           decision: string)
    requires DistinctIds(assignments) && IsCovered(BoardOf(plan, mandate, assignments, Some(c)), c, decision)
    ensures HasWitness(plan, mandate, assignments, c, decision)
  {
    hide Approves, Evidences, HasWitness, BoardOf, DistinctIds;
    var b := BoardOf(plan, mandate, assignments, Some(c));
    if exists i :: 0 <= i < |c.decisions| && Approves(b, c.decisions[i], decision) {
      var i :| 0 <= i < |c.decisions| && Approves(b, c.decisions[i], decision);
      ApprovalIsWitness(plan, mandate, assignments, c, decision, c.decisions[i]);
    } else {
      var i :| 0 <= i < |c.evidence| && Evidences(b, c.evidence[i], decision);
      EvidenceIsWitness(plan, mandate, assignments, c, decision, c.evidence[i]);
    }
  }

  // ---- Private evidence ----

  /** What the report may know of an item: nothing a private item says, when, with what or where from. */
  function Mask(item: EvidenceItem): EvidenceItem {
    if item.visibility == Private then
        item.(statement := "", source := "", channel := "", deadline := None, resource := None) else item
  }

  function MaskAll(items: seq<EvidenceItem>): (r: seq<EvidenceItem>)
    ensures |r| == |items| && forall i :: 0 <= i < |items| ==> r[i] == Mask(items[i])
  {
    seq(|items|, i requires 0 <= i < |items| => Mask(items[i]))
  }

  function MaskedContributions(c: Contributions): Contributions { c.(evidence := MaskAll(c.evidence)) }

  lemma {:induction false} ProjectionsOfMasked(items: seq<EvidenceItem>)
    ensures ShareableEvidence(MaskAll(items)) == ShareableEvidence(items)
    ensures PrivateBlockerCount(MaskAll(items)) == PrivateBlockerCount(items)
  {
    if items != [] {
      var rest := items[..|items| - 1];
      ProjectionsOfMasked(rest);
      assert MaskAll(items)[..|items| - 1] == MaskAll(rest);
    }
  }

  lemma StatusOfMasked(a: Assignment, c: Contributions)
    ensures StatusOf(a, MaskedContributions(c)) == StatusOf(a, c)
  {
    hide Filter;
    var m := MaskedContributions(c);
    forall i | 0 <= i < |c.evidence|
      ensures (BoundTo(m.evidence[i], a) && Counts(m.evidence[i]))
              == (BoundTo(c.evidence[i], a) && Counts(c.evidence[i])) {
    }
  }

  lemma {:induction false} StatusesOfMasked(xs: seq<Assignment>, c: Contributions)
    ensures Statuses(xs, MaskedContributions(c)) == Statuses(xs, c)
  {
    hide StatusOf;
    if xs != [] {
      StatusesOfMasked(xs[..|xs| - 1], c);
      StatusOfMasked(xs[|xs| - 1], c);
    }
  }

  lemma EligibleOfMasked(xs: seq<Assignment>, items: seq<EvidenceItem>, valid: set<AssignmentId>)
    ensures EligibleIds(xs, MaskAll(items), valid) == EligibleIds(xs, items, valid)
  {
    var m := MaskAll(items);
    forall i | 0 <= i < |items|
      ensures m[i].id == items[i].id && IsEligible(m[i], ById(xs), valid) == IsEligible(items[i], ById(xs), valid) {
    }
    forall id ensures id in EligibleIds(xs, m, valid) <==> id in EligibleIds(xs, items, valid) {
      if id in EligibleIds(xs, m, valid) {
        var i :| 0 <= i < |m| && IsEligible(m[i], ById(xs), valid) && m[i].id == id;
        assert IsEligible(items[i], ById(xs), valid) && items[i].id == id;
      }
      if id in EligibleIds(xs, items, valid) {
        var i :| 0 <= i < |items| && IsEligible(items[i], ById(xs), valid) && items[i].id == id;
        assert IsEligible(m[i], ById(xs), valid) && m[i].id == id;
      }
    }
  }

  lemma CoveredOfMasked(b: Board, c: Contributions, evidence: seq<SharedItem>)
    ensures CoveredDecisions(b, Some(MaskedContributions(c)), evidence) == CoveredDecisions(b, Some(c), evidence)
  {
    hide Filter, Approves, ById;
    var m := MaskedContributions(c);
    forall d ensures IsCovered(b, m, d) == IsCovered(b, c, d) {
      forall i | 0 <= i < |c.evidence| ensures Evidences(b, m.evidence[i], d) == Evidences(b, c.evidence[i], d) {
        assert m.evidence[i] == Mask(c.evidence[i]);
      }
      assert m.decisions == c.decisions;
      hide Evidences;
    }
    FilterSame(b.plan.requiredDecisions, d => IsCovered(b, m, d), d => IsCovered(b, c, d));
  }

  /** The analysis of a mandate's own evidence, as the services call it. */
  function AnalyzeItems(ps: Patterns, plan: Plan, mandate: MandateId, assignments: seq<Assignment>,
                        c: Contributions): Report
  {
    Analyze(ps, plan, mandate, ShareableEvidence(c.evidence), assignments, PrivateBlockerCount(c.evidence), Some(c))
  }

  lemma ReportOfMasked(ps: Patterns, plan: Plan, mandate: MandateId, assignments: seq<Assignment>, c: Contributions)
    ensures AnalyzeItems(ps, plan, mandate, assignments, MaskedContributions(c))
            == AnalyzeItems(ps, plan, mandate, assignments, c)
  {
    hide DeterministicIssues, GapIssues, AllComplete, Agreements, SortById, Statuses, ReviewBindings, ValidIds, Filter,
         PrivateIssues, CoveredDecisions, EligibleIds, ShareableEvidence, PrivateBlockerCount;
    ProjectionsOfMasked(c.evidence);
    StatusesOfMasked(SortById(assignments), c);
    var b := BoardOf(plan, mandate, assignments, Some(c));
    EligibleOfMasked(b.assignments, c.evidence, b.valid);
    CoveredOfMasked(b, c, UsableEvidence(b, ShareableEvidence(c.evidence), Some(c)));
  }

  /** Two evidence lists that differ only in what private items say, when, with what and where from give the same
      report. */
  lemma PrivateEvidenceStaysPrivate(ps: Patterns, plan: Plan, mandate: MandateId, assignments: seq<Assignment>,
                                    c: Contributions,
                                    evidence: seq<EvidenceItem>)
    requires |evidence| == |c.evidence| && forall i :: 0 <= i < |evidence| ==> Mask(evidence[i]) == Mask(c.evidence[i])
    ensures AnalyzeItems(ps, plan, mandate, assignments, c.(evidence := evidence))
            == AnalyzeItems(ps, plan, mandate, assignments, c)
  {
    hide AnalyzeItems, Mask;
    assert MaskAll(evidence) == MaskAll(c.evidence);
    ReportOfMasked(ps, plan, mandate, assignments, c);
    ReportOfMasked(ps, plan, mandate, assignments, c.(evidence := evidence));
  }

  // ---- The model cannot decide ----

  lemma {:induction false} AdviceNeverBlocks(plan: Plan, suggestions: seq<Suggestion>)
    ensures forall i :: 0 <= i < |Advice(plan, suggestions)| ==> !Advice(plan, suggestions)[i].blocking
  {
    if suggestions != [] {
      AdviceNeverBlocks(plan, suggestions[..|suggestions| - 1]);
    }
  }

  /** Filtering the usable evidence twice, once over unsorted assignments, changes nothing. */
  lemma SentIsUsable(plan: Plan, mandate: MandateId, evidence: seq<SharedItem>, assignments: seq<Assignment>,
                     c: Contributions)
    ensures var eligible := EligibleIds(assignments, c.evidence, ValidIds(plan, assignments, mandate));
            var b := BoardOf(plan, mandate, assignments, Some(c));
            UsableEvidence(b, Filter(evidence, (e: SharedItem) => e.id in eligible), Some(c))
              == UsableEvidence(b, evidence, Some(c))
  {
    hide Filter, EligibleIds, ValidIds, ReviewBindings, Statuses, SortById, ById;
    SortKeepsValid(plan, assignments, mandate);
    SortKeepsById(assignments, c);
    var b := BoardOf(plan, mandate, assignments, Some(c));
    var eligible := EligibleIds(assignments, c.evidence, ValidIds(plan, assignments, mandate));
    SameEligible(b.assignments, assignments, c.evidence, b.valid);
    var p := (e: SharedItem) => e.id in eligible;
    FilterTwice(evidence, p, p, p);
    FilterSame(evidence, p, (e: SharedItem) => e.id in EligibleIds(b.assignments, c.evidence, b.valid));
    FilterSame(Filter(evidence, p), p, (e: SharedItem) => e.id in EligibleIds(b.assignments, c.evidence, b.valid));
  }

  lemma SameEligible(xs: seq<Assignment>, ys: seq<Assignment>, items: seq<EvidenceItem>, valid: set<AssignmentId>)
    requires ById(xs) == ById(ys)
    ensures EligibleIds(xs, items, valid) == EligibleIds(ys, items, valid)
  {
  }

  predicate SameDecision(r: Report, base: Report) {
    && r.isAligned == base.isAligned && r.covered == base.covered && r.agreements == base.agreements
    && r.privateBlockers == base.privateBlockers
  }

  /** For every model output, valid or not, the hybrid report is the deterministic one with non-blocking advice behind
      it. */
  lemma ModelOnlyAdvises(ps: Patterns, plan: Plan, mandate: MandateId, evidence: seq<SharedItem>,
                         assignments: seq<Assignment>,
                         blockers: nat, c: Option<Contributions>, suggestions: Option<seq<Suggestion>>)
    ensures var r := AnalyzeWithModel(ps, plan, mandate, evidence, assignments, blockers, c, suggestions);
            var base := Analyze(ps, plan, mandate, evidence, assignments, blockers, c);
            && SameDecision(r, base) && base.issues <= r.issues
            && (forall i :: |base.issues| <= i < |r.issues| ==> !r.issues[i].blocking)
            && (HasBlocking(r.issues) <==> HasBlocking(base.issues))
  {
    hide DeterministicIssues, GapIssues, AllComplete, Agreements, SortById, Statuses, ReviewBindings, ValidIds, Filter,
         PrivateIssues, CoveredDecisions, EligibleIds, UsableEvidence, Advice, HasBlocking, BoardOf;
    if c.Some? {
      SentIsUsable(plan, mandate, evidence, assignments, c.value);
    }
    if suggestions.Some? {
      AdviceNeverBlocks(plan, suggestions.value);
    }
    var r := AnalyzeWithModel(ps, plan, mandate, evidence, assignments, blockers, c, suggestions);
    var base := Analyze(ps, plan, mandate, evidence, assignments, blockers, c);
    BehindNothingBlocks(base.issues, r.issues);
  }

  lemma BehindNothingBlocks(xs: seq<Issue>, ys: seq<Issue>)
    requires xs <= ys && forall i :: |xs| <= i < |ys| ==> !ys[i].blocking
    ensures HasBlocking(ys) <==> HasBlocking(xs)
  {
    if HasBlocking(xs) {
      var i :| 0 <= i < |xs| && xs[i].blocking;
      assert ys[i].blocking;
    }
  }

  // ---- Resource conflicts mean what they say ----

  lemma {:induction false} LeastIsLeast(ps: Patterns, items: seq<SharedItem>, bound: int)
    requires items != [] && forall i :: 0 <= i < |items| ==> Quantity(ps, items[i]).Some?
    ensures Least(ps, items) < bound <==> exists i :: 0 <= i < |items| && Quantity(ps, items[i]).value < bound
    ensures Greatest(ps, items) > bound <==> exists i :: 0 <= i < |items| && Quantity(ps, items[i]).value > bound
  {
    hide Quantity;
    var n := |items| - 1;
    if n > 0 {
      var rest := items[..n];
      LeastIsLeast(ps, rest, bound);
      assert forall i :: 0 <= i < n ==> rest[i] == items[i];
    }
  }

  predicate Exceeds(ps: Patterns, candidates: seq<SharedItem>, request: SharedItem, limit: SharedItem) {
    && request in candidates && request.kind == Commitment && Quantity(ps, request).Some?
    && limit in candidates && limit.kind == Constraint && Quantity(ps, limit).Some?
    && Quantity(ps, request).value > Quantity(ps, limit).value
  }

  /** Comparing the greatest request with the least limit finds exactly the requests above some limit. */
  lemma ResourceConflictMeans(ps: Patterns, candidates: seq<SharedItem>, decision: string)
    ensures ResourceConflicts(ps, candidates, decision) != [] <==>
              exists request, limit :: Exceeds(ps, candidates, request, limit)
  {
    hide Quantity, Least, Greatest, Filter;
    var limits, requests := Quantified(ps, candidates, Constraint), Quantified(ps, candidates, Commitment);
    var isLimit := (e: SharedItem) => e.kind == Constraint && Quantity(ps, e).Some?;
    var isRequest := (e: SharedItem) => e.kind == Commitment && Quantity(ps, e).Some?;
    if limits != [] && requests != [] && Greatest(ps, requests) > Least(ps, limits) {
      LeastIsLeast(ps, requests, Least(ps, limits));
      var j :| 0 <= j < |requests| && Quantity(ps, requests[j]).value > Least(ps, limits);
      LeastIsLeast(ps, limits, Quantity(ps, requests[j]).value);
      var i :| 0 <= i < |limits| && Quantity(ps, limits[i]).value < Quantity(ps, requests[j]).value;
      FilterMember(candidates, isLimit, limits[i]);
      FilterMember(candidates, isRequest, requests[j]);
      assert Exceeds(ps, candidates, requests[j], limits[i]);
    }
    if exists request, limit :: Exceeds(ps, candidates, request, limit) {
      var request, limit :| Exceeds(ps, candidates, request, limit);
      FilterMember(candidates, isLimit, limit);
      FilterMember(candidates, isRequest, request);
      var i :| 0 <= i < |limits| && limits[i] == limit;
      var j :| 0 <= j < |requests| && requests[j] == request;
      LeastIsLeast(ps, limits, Quantity(ps, request).value);
      LeastIsLeast(ps, requests, Least(ps, limits));
    }
  }

  // ---- What an aligned report says about the public evidence ----

  lemma AllEqualIsSmall<T>(s: set<T>)
    ensures |s| <= 1 <==> forall x, y :: x in s && y in s ==> x == y
  {
    if |s| > 1 {
      var x :| x in s;
      var rest := s - {x};
      assert |rest| > 0;
      var y :| y in rest;
      assert x in s && y in s && x != y;
    }
    forall x, y | x in s && y in s && |s| <= 1 ensures x == y {
      assert {x} <= s;
      SubsetSmaller({x, y}, s);
    }
  }

  lemma {:induction false} SubsetSmaller<T>(a: set<T>, b: set<T>)
    requires a <= b
    ensures |a| <= |b|
  {
    assert |b| == |a| + |b - a| by { assert b == a + (b - a) && a !! (b - a); }
  }

  /** Nothing disputed, nothing hard, one deadline, no request above a limit, no conflicting facts. */
  ghost predicate Peaceful(ps: Patterns, candidates: seq<SharedItem>) {
    && (forall e :: e in candidates ==> e.status != Disputed)
    && (forall e :: e in candidates ==> !(e.kind == Constraint && (ps.hard)(e.statement)))
    && (forall e, f :: e in candidates && f in candidates && e.deadline.Some? && f.deadline.Some? ==>
        e.deadline == f.deadline)
    && !(exists request, limit :: Exceeds(ps, candidates, request, limit))
    && !FactsConflict(ps, Filter(candidates, (e: SharedItem) => e.kind == Fact))
  }

  lemma DisputesMean(candidates: seq<SharedItem>, decision: string)
    ensures Disputes(candidates, decision) == [] <==> forall e :: e in candidates ==> e.status != Disputed
  {
    hide Filter;
    FilterEmpty(candidates, (e: SharedItem) => e.status == Disputed);
  }

  lemma HardMeans(ps: Patterns, candidates: seq<SharedItem>, decision: string)
    ensures HardConstraints(ps, candidates, decision) == [] <==>
              forall e :: e in candidates ==> !(e.kind == Constraint && (ps.hard)(e.statement))
  {
    hide Filter;
    FilterEmpty(candidates, (e: SharedItem) => e.kind == Constraint && (ps.hard)(e.statement));
  }

  lemma DeadlinesMean(candidates: seq<SharedItem>, decision: string)
    ensures DeadlineConflicts(candidates, decision) == [] <==>
              forall e, f :: e in candidates && f in candidates && e.deadline.Some? && f.deadline.Some? ==>
                e.deadline == f.deadline
  {
    hide Filter;
    var p := (e: SharedItem) => e.deadline.Some?;
    var dated := Filter(candidates, p);
    var deadlines := set i | 0 <= i < |dated| :: dated[i].deadline;
    AllEqualIsSmall(deadlines);
    forall e ensures e in candidates && e.deadline.Some? ==> e.deadline in deadlines {
      FilterMember(candidates, p, e);
      if e in dated {
        var i :| 0 <= i < |dated| && dated[i] == e;
        assert dated[i].deadline in deadlines;
      }
    }
    forall d | d in deadlines ensures exists e :: e in candidates && e.deadline.Some? && e.deadline == d {
      var i :| 0 <= i < |dated| && dated[i].deadline == d;
      FilterMember(candidates, p, dated[i]);
    }
  }

  /** The evidence of a decision raises no issue exactly when it is peaceful. */
  lemma DecisionIssuesMean(ps: Patterns, candidates: seq<SharedItem>, decision: string)
    ensures DecisionIssues(ps, candidates, decision) == [] <==> Peaceful(ps, candidates)
  {
    hide Disputes, HardConstraints, DeadlineConflicts, ResourceConflicts, FactsConflict, Filter, Exceeds;
    DisputesMean(candidates, decision);
    HardMeans(ps, candidates, decision);
    DeadlinesMean(candidates, decision);
    ResourceConflictMeans(ps, candidates, decision);
  }

  lemma {:induction false} EvidenceIssuesMean(ps: Patterns, evidence: seq<SharedItem>, decisions: seq<string>)
    requires EvidenceIssues(ps, evidence, decisions) == []
    ensures forall d :: d in decisions ==> Peaceful(ps, Filter(evidence, (e: SharedItem) => e.related == Some(d)))
  {
    hide DecisionIssues, Filter, Peaceful;
    if decisions != [] {
      var rest, last := decisions[..|decisions| - 1], decisions[|decisions| - 1];
      assert decisions == rest + [last];
      EvidenceIssuesMean(ps, evidence, rest);
      DecisionIssuesMean(ps, Filter(evidence, (e: SharedItem) => e.related == Some(last)), last);
    }
  }

  lemma {:induction false} DistinctKeepsDecisions(ds: seq<string>)
    ensures forall d :: d in DistinctDecisions(ds) <==> d in ds
  {
    if ds != [] {
      DistinctKeepsDecisions(ds[..|ds| - 1]);
      assert ds == ds[..|ds| - 1] + [ds[|ds| - 1]];
    }
  }

  lemma LaterPartsEmpty(ps: Patterns, b: Board, evidence: seq<SharedItem>)
    requires DeterministicIssues(ps, b, evidence) == []
    ensures UnplannedIssues(b, b.Required()) == []
            && EvidenceIssues(ps, evidence, DistinctDecisions(b.plan.requiredDecisions)) == []
  {
    hide RequiredIssues, UnplannedIssues, OptionalIssues, EvidenceIssues, Filter;
  }

  lemma {:induction false} UnplannedMean(b: Board, xs: seq<Assignment>)
    requires b.statuses.Some? && UnplannedIssues(b, xs) == []
    ensures forall a :: a in xs ==> a.person in PlannedRequired(b.plan)
  {
    hide PlannedRequired;
    if xs != [] {
      var rest, last := xs[..|xs| - 1], xs[|xs| - 1];
      assert xs == rest + [last];
      UnplannedMean(b, rest);
      assert UnplannedIssue(b, last) == [];
    }
  }

  /** An aligned report has peaceful usable evidence for every required decision, and no required assignment of anybody
      the plan does not require. */
  lemma AlignedIsPeaceful(ps: Patterns, plan: Plan, mandate: MandateId, evidence: seq<SharedItem>,
                          assignments: seq<Assignment>,
                          blockers: nat, c: Contributions)
    requires Analyze(ps, plan, mandate, evidence, assignments, blockers, Some(c)).isAligned
    ensures var usable := UsableEvidence(BoardOf(plan, mandate, assignments, Some(c)), evidence, Some(c));
            forall d :: d in plan.requiredDecisions ==>
              Peaceful(ps, Filter(usable, (e: SharedItem) => e.related == Some(d)))
    ensures forall a :: a in assignments && a.required ==> a.person in PlannedRequired(plan)
  {
    hide DeterministicIssues, UsableEvidence, GapIssues, AllComplete, Agreements, SortById, Statuses, ReviewBindings,
         ValidIds, Filter, PrivateIssues, CoveredDecisions, Peaceful, PlannedRequired;
    var b := BoardOf(plan, mandate, assignments, Some(c));
    var usable := UsableEvidence(b, evidence, Some(c));
    var covered := CoveredDecisions(b, Some(c), usable);
    DeterministicBlock(ps, b, usable);
    GapBlock(plan.requiredDecisions, covered);
    AnythingBlocks(DeterministicIssues(ps, b, usable), PrivateIssues(blockers),
                   GapIssues(plan.requiredDecisions, covered));
    LaterPartsEmpty(ps, b, usable);
    EvidenceIssuesMean(ps, usable, DistinctDecisions(plan.requiredDecisions));
    DistinctKeepsDecisions(plan.requiredDecisions);
    UnplannedMean(b, b.Required());
    forall a | a in assignments && a.required ensures a.person in PlannedRequired(plan) {
      SortKeepsMembers(assignments, a);
      FilterMember(b.assignments, (x: Assignment) => x.required, a);
    }
  }
}
