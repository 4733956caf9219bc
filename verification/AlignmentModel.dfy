/** Evidence-based alignment: contributions, issues and the report, as functions of persisted facts. */
module AlignmentModel {
  import opened Basics
  import opened Domain

  // Identifiers are compared only for equality and by their fixed total order.
  type AssignmentId = int
  type EvidenceId = int
  type MandateId = int
  type PersonId = int

  datatype Stakeholder = Stakeholder(
    person: PersonId, required: bool, direction: Direction, reason: string, engagement: EngagementType,
      responseRequired: bool)

  datatype Plan = Plan(requiredDecisions: seq<string>, stakeholders: seq<Stakeholder>)

  datatype Assignment = Assignment(
    id: AssignmentId, mandate: MandateId, person: PersonId, direction: Direction, reason: string, required: bool,
    engagement: EngagementType, responseRequired: bool, state: StakeholderState)

  datatype EvidenceType = Fact | Constraint | Concern | Preference | Commitment | OfferedTime | Decision

  datatype EvidenceStatus = Asserted | Clarified | Confirmed | Disputed | Withdrawn

  datatype Visibility = Shareable | Anonymous | Private

  datatype EvidenceItem = EvidenceItem(
    id: EvidenceId, mandate: MandateId, assignment: AssignmentId, stakeholder: PersonId, kind: EvidenceType,
      statement: string,
    visibility: Visibility, status: EvidenceStatus, source: string, channel: string, related: Option<string>,
    deadline: Option<Time>, resource: Option<string>)

  /** The shared projection of an item: no provenance, and a name only when the item is shareable. */
  datatype SharedItem = SharedItem(
    id: EvidenceId, kind: EvidenceType, statement: string, stakeholder: Option<PersonId>, status: EvidenceStatus,
    related: Option<string>, deadline: Option<Time>, resource: Option<string>)

  datatype EngagementDecision = EngagementDecision(
    mandate: MandateId, assignment: AssignmentId, stakeholder: PersonId, response: DecisionKind)

  /** The regular expressions of the engine, as uninterpreted functions of a text. */
  datatype Patterns = Patterns(
    date: string -> Option<string>,
    number: string -> Option<int>,
    negated: string -> bool,
    withoutNegation: string -> string,
    hard: string -> bool)

  // ---- Projections ----

  function Project(item: EvidenceItem): SharedItem {
    SharedItem(item.id, item.kind, item.statement,
               if item.visibility == Shareable then Some(item.stakeholder) else None,
               item.status, item.related, item.deadline, item.resource)
  }

  function ShareableEvidence(items: seq<EvidenceItem>): seq<SharedItem> {
    if items == [] then []
    else
      var rest, last := ShareableEvidence(items[..|items| - 1]), items[|items| - 1];
      if last.visibility == Private then rest else rest + [Project(last)]
  }

  function PrivateBlockerCount(items: seq<EvidenceItem>): nat {
    if items == [] then 0
    else
      var last := items[|items| - 1];
      PrivateBlockerCount(items[..|items| - 1]) + (if last.visibility == Private
                                                   && last.kind == Constraint then 1 else 0)
  }

  // ---- Contributions ----

  datatype ContributionState =
    | Contributed | MissingResponse | MissingContribution | Rejected | ChangeRequested | Undelivered

  datatype ContributionStatus = ContributionStatus(state: ContributionState, blocking: bool)

  /** What contributions are judged by; None of it means the judgement by states alone. */
  datatype Contributions = Contributions(
    evidence: seq<EvidenceItem>, decisions: seq<EngagementDecision>, availability: set<AssignmentId>)

  predicate IsInterview(e: EngagementType) { e == QuickResponse || e == StructuredInterview }

  /** The item belongs to the assignment: same mandate, assignment and person. */
  predicate BoundTo(item: EvidenceItem, a: Assignment) {
    item.mandate == a.mandate && item.assignment == a.id && item.stakeholder == a.person
  }

  predicate DecidesFor(d: EngagementDecision, a: Assignment) {
    d.mandate == a.mandate && d.assignment == a.id && d.stakeholder == a.person
  }

  predicate Counts(item: EvidenceItem) { item.status == Confirmed && item.visibility != Anonymous }

  function StatusOf(a: Assignment, c: Contributions): ContributionStatus {
    if a.state == StakeholderState.DeliveryFailed || a.state == Unreachable then
      ContributionStatus(Undelivered, a.required)
    else if a.state != Complete then ContributionStatus(MissingResponse, a.required)
    else if IsInterview(a.engagement) then
      if exists i :: 0 <= i < |c.evidence| && BoundTo(c.evidence[i], a) && Counts(c.evidence[i])
      then ContributionStatus(Contributed, false)
      else ContributionStatus(MissingContribution, a.required)
    else if a.engagement == ReviewApproval then
      var exact := Filter(c.decisions, d => DecidesFor(d, a));
      if |exact| != 1 then ContributionStatus(MissingResponse, a.required)
      else if exact[0].response == Reject then ContributionStatus(Rejected, true)
      else if exact[0].response == Change then ContributionStatus(ChangeRequested, true)
      else ContributionStatus(Contributed, false)
    else if a.engagement == Availability && a.id !in c.availability then ContributionStatus(MissingResponse, a.required)
    else ContributionStatus(Contributed, false)
  }

  // ---- Assignments against their plan ----

  /** Insertion in front of nothing equal: a stable sort by identifier. */
  function InsertById(sorted: seq<Assignment>, a: Assignment): seq<Assignment> {
    if sorted == [] || sorted[|sorted| - 1].id <= a.id then sorted + [a]
    else InsertById(sorted[..|sorted| - 1], a) + [sorted[|sorted| - 1]]
  }

  function SortById(xs: seq<Assignment>): seq<Assignment> {
    if xs == [] then [] else InsertById(SortById(xs[..|xs| - 1]), xs[|xs| - 1])
  }

  /** One entry per identifier; a later assignment replaces an earlier one. */
  function ById(xs: seq<Assignment>): map<AssignmentId, Assignment> {
    if xs == [] then map[] else ById(xs[..|xs| - 1])[xs[|xs| - 1].id := xs[|xs| - 1]]
  }

  function Statuses(xs: seq<Assignment>, c: Contributions): map<AssignmentId, ContributionStatus> {
    if xs == [] then map[] else Statuses(xs[..|xs| - 1], c)[xs[|xs| - 1].id := StatusOf(xs[|xs| - 1], c)]
  }

  predicate IsPlanned(s: Stakeholder, a: Assignment) {
    && s.direction == a.direction && s.reason == a.reason && s.required == a.required
    && s.engagement == a.engagement && s.responseRequired == a.responseRequired
  }

  predicate IsValid(plan: Plan, xs: seq<Assignment>, mandate: MandateId, a: Assignment) {
    && a.mandate == mandate
    && |Filter(xs, (x: Assignment) => x.person == a.person)| == 1
    && var planned := Filter(plan.stakeholders, (s: Stakeholder) => s.person == a.person);
       |planned| == 1 && IsPlanned(planned[0], a)
  }

  function ValidIds(plan: Plan, xs: seq<Assignment>, mandate: MandateId): set<AssignmentId> {
    set i | 0 <= i < |xs| && IsValid(plan, xs, mandate, xs[i]) :: xs[i].id
  }

  predicate IsEligible(item: EvidenceItem, byId: map<AssignmentId, Assignment>, valid: set<AssignmentId>) {
    && item.assignment in valid && item.assignment in byId
    && IsInterview(byId[item.assignment].engagement)
    && item.mandate == byId[item.assignment].mandate && item.stakeholder == byId[item.assignment].person
  }

  function EligibleIds(xs: seq<Assignment>, evidence: seq<EvidenceItem>, valid: set<AssignmentId>): set<EvidenceId> {
    set i | 0 <= i < |evidence| && IsEligible(evidence[i], ById(xs), valid) :: evidence[i].id
  }

  /** Review assignments whose reason is exactly one required decision. */
  function ReviewCandidates(plan: Plan, xs: seq<Assignment>, valid: set<AssignmentId>): map<AssignmentId, string> {
    if xs == [] then map[]
    else
      var rest, a := ReviewCandidates(plan, xs[..|xs| - 1], valid), xs[|xs| - 1];
      if a.id in valid && a.engagement == ReviewApproval && |Filter(plan.requiredDecisions, d => d == a.reason)| == 1
      then rest[a.id := a.reason]
      else rest
  }

  /** A decision with exactly one candidate is bound to it. */
  function ReviewBindings(plan: Plan, xs: seq<Assignment>, valid: set<AssignmentId>): map<AssignmentId, string> {
    var candidates := ReviewCandidates(plan, xs, valid);
    map id | id in candidates && (forall k :: k in candidates && candidates[k] == candidates[id] ==> k == id) ::
      candidates[id]
  }

  // ---- Issues ----

  datatype IssueType =
    | Contradiction | ResourceConflict | DeadlineConflict | MissingEvidence | AuthorityGap | HardConstraint
    | PrivateBlocker | AgreementIssue

  /** The fixed texts of issues. */
  datatype Summary =
    | NoAssignmentText | PlanMismatchText | NoContractText | NotCompletedText
    | RejectedText | ChangesText | ApprovalMissingText | EvidenceMissingText | UndeliveredText | ResponseMissingText
    | DisputedText | FactConflictText | DeadlineText | ResourceText | HardText | GapText | PrivateText | AdvisoryText

  /** An issue up to its fresh identifier. */
  datatype Issue = Issue(
    kind: IssueType, summary: Summary, evidence: seq<EvidenceId>, stakeholders: set<PersonId>, related: Option<string>,
      blocking: bool)

  function PersonIssue(kind: IssueType, summary: Summary, person: PersonId): Issue {
    Issue(kind, summary, [], {person}, None, true)
  }

  function IdsOf(items: seq<SharedItem>): seq<EvidenceId> { seq(|items|, i requires 0 <= i < |items| => items[i].id) }

  function NamesOf(items: seq<SharedItem>): set<PersonId> {
    set i | 0 <= i < |items| && items[i].stakeholder.Some? :: items[i].stakeholder.value
  }

  function EvidenceIssue(kind: IssueType, summary: Summary, items: seq<SharedItem>, decision: string): Issue {
    Issue(kind, summary, IdsOf(items), NamesOf(items), Some(decision), true)
  }

  /** The state of all assignments that the issue checks read; statuses are None without contributions. */
  datatype Board = Board(
    plan: Plan,
    assignments: seq<Assignment>,
    statuses: Option<map<AssignmentId, ContributionStatus>>,
    valid: set<AssignmentId>,
    bindings: map<AssignmentId, string>)
  {
    function Required(): seq<Assignment> { Filter(assignments, (a: Assignment) => a.required) }

    function RequiredOf(person: PersonId): seq<Assignment> { Filter(Required(), (a: Assignment) => a.person == person) }

    function Status(id: AssignmentId): ContributionStatus {
      if statuses.Some? && id in statuses.value then statuses.value[id] else ContributionStatus(MissingResponse, true)
    }
  }

  function PlannedRequired(plan: Plan): set<PersonId> {
    set i | 0 <= i < |plan.stakeholders| && plan.stakeholders[i].required :: plan.stakeholders[i].person
  }

  function ContributionIssue(a: Assignment, status: ContributionStatus): seq<Issue> {
    if !status.blocking || status.state == Contributed then []
    else if status.state == Rejected then [PersonIssue(HardConstraint, RejectedText, a.person)]
    else if status.state == ChangeRequested then [PersonIssue(HardConstraint, ChangesText, a.person)]
    else if a.engagement == ReviewApproval then [PersonIssue(AuthorityGap, ApprovalMissingText, a.person)]
    else if status.state == MissingContribution then
      [PersonIssue(MissingEvidence, EvidenceMissingText, a.person)]
    else if status.state == Undelivered then
      [PersonIssue(MissingEvidence, UndeliveredText, a.person)]
    else [PersonIssue(MissingEvidence, ResponseMissingText, a.person)]
  }

  /** The issue of one planned required person, if any. */
  function RequiredIssue(b: Board, person: PersonId): seq<Issue> {
    var matching := b.RequiredOf(person);
    if |matching| != 1 then [PersonIssue(MissingEvidence, NoAssignmentText, person)]
    else
      var a := matching[0];
      if b.statuses.Some? then
        if a.id !in b.valid then
          [PersonIssue(AuthorityGap, PlanMismatchText, a.person)]
        else if a.engagement == ReviewApproval && a.id !in b.bindings then
          [PersonIssue(AuthorityGap, NoContractText, a.person)]
        else ContributionIssue(a, b.Status(a.id))
      else if a.state != Complete then
        [PersonIssue(MissingEvidence, NotCompletedText, a.person)]
      else []
  }

  /** The issue of one required assignment of a person who is not planned as required. */
  function UnplannedIssue(b: Board, a: Assignment): seq<Issue> {
    if a.person !in PlannedRequired(b.plan) && (b.statuses.Some? || a.state != Complete) then
      [PersonIssue(MissingEvidence, NotCompletedText, a.person)]
    else []
  }

  /** The issue of one optional assignment: only a valid, bound contribution can block. */
  function OptionalIssue(b: Board, a: Assignment): seq<Issue> {
    if b.statuses.None? || a.required || a.id !in b.valid
        || (a.engagement == ReviewApproval && a.id !in b.bindings) then []
    else ContributionIssue(a, b.Status(a.id))
  }

  // ---- Issues of the public evidence of one decision ----

  function Quantity(ps: Patterns, item: SharedItem): Option<int> {
    if item.resource.Some? && item.resource.value != "" && (ps.number)(item.resource.value).Some? then
      (ps.number)(item.resource.value)
    else (ps.number)(item.statement)
  }

  function Dates(ps: Patterns, facts: seq<SharedItem>): set<Option<string>> {
    set i | 0 <= i < |facts| :: (ps.date)(facts[i].statement)
  }

  function Quantities(ps: Patterns, facts: seq<SharedItem>): set<Option<int>> {
    set i | 0 <= i < |facts| :: Quantity(ps, facts[i])
  }

  /** All facts dated and differing, or all counted and differing, or one sentence both affirmed and negated. */
  predicate FactsConflict(ps: Patterns, facts: seq<SharedItem>) {
    && |facts| >= 2
    && (|| (None !in Dates(ps, facts) && |Dates(ps, facts)| > 1)
        || (None !in Quantities(ps, facts) && |Quantities(ps, facts)| > 1)
        || (&& (forall i :: 0 <= i < |facts| ==>
                (ps.withoutNegation)(facts[i].statement) == (ps.withoutNegation)(facts[0].statement))
            && (exists i :: 0 <= i < |facts| && (ps.negated)(facts[i].statement))
            && (exists i :: 0 <= i < |facts| && !(ps.negated)(facts[i].statement))))
  }

  function Quantified(ps: Patterns, items: seq<SharedItem>, kind: EvidenceType): seq<SharedItem> {
    Filter(items, (e: SharedItem) => e.kind == kind && Quantity(ps, e).Some?)
  }

  function Least(ps: Patterns, items: seq<SharedItem>): int
    requires items != [] && forall i :: 0 <= i < |items| ==> Quantity(ps, items[i]).Some?
  {
    var last := Quantity(ps, items[|items| - 1]).value;
    if |items| == 1 then last
    else
      var rest := Least(ps, items[..|items| - 1]);
      if rest <= last then rest else last
  }

  function Greatest(ps: Patterns, items: seq<SharedItem>): int
    requires items != [] && forall i :: 0 <= i < |items| ==> Quantity(ps, items[i]).Some?
  {
    var last := Quantity(ps, items[|items| - 1]).value;
    if |items| == 1 then last
    else
      var rest := Greatest(ps, items[..|items| - 1]);
      if rest >= last then rest else last
  }

  function OneIf(holds: bool, issue: Issue): seq<Issue> { if holds then [issue] else [] }

  function Disputes(candidates: seq<SharedItem>, decision: string): seq<Issue> {
    var disputed := Filter(candidates, (e: SharedItem) => e.status == Disputed);
    OneIf(disputed != [], EvidenceIssue(Contradiction, DisputedText, disputed, decision))
  }

  function Contradictions(ps: Patterns, candidates: seq<SharedItem>, decision: string): seq<Issue> {
    var facts := Filter(candidates, (e: SharedItem) => e.kind == Fact);
    OneIf(FactsConflict(ps, facts),
          EvidenceIssue(Contradiction, FactConflictText, facts, decision))
  }

  function DeadlineConflicts(candidates: seq<SharedItem>, decision: string): seq<Issue> {
    var dated := Filter(candidates, (e: SharedItem) => e.deadline.Some?);
    OneIf(|set i | 0 <= i < |dated| :: dated[i].deadline| > 1,
          EvidenceIssue(DeadlineConflict, DeadlineText, dated, decision))
  }

  function ResourceConflicts(ps: Patterns, candidates: seq<SharedItem>, decision: string): seq<Issue> {
    var limits, requests := Quantified(ps, candidates, Constraint), Quantified(ps, candidates, Commitment);
    OneIf(limits != [] && requests != [] && Greatest(ps, requests) > Least(ps, limits),
          EvidenceIssue(ResourceConflict, ResourceText, limits + requests, decision))
  }

  function HardConstraints(ps: Patterns, candidates: seq<SharedItem>, decision: string): seq<Issue> {
    var hard := Filter(candidates, (e: SharedItem) => e.kind == Constraint && (ps.hard)(e.statement));
    OneIf(hard != [], EvidenceIssue(HardConstraint, HardText, hard, decision))
  }

  function DecisionIssues(ps: Patterns, candidates: seq<SharedItem>, decision: string): seq<Issue> {
    Disputes(candidates, decision) + Contradictions(ps, candidates, decision) + DeadlineConflicts(candidates, decision)
    + ResourceConflicts(ps, candidates, decision) + HardConstraints(ps, candidates, decision)
  }

  /** Each required decision once, in order of first appearance. */
  function DistinctDecisions(ds: seq<string>): seq<string> {
    if ds == [] then []
    else
      var rest, last := DistinctDecisions(ds[..|ds| - 1]), ds[|ds| - 1];
      if last in rest then rest else rest + [last]
  }

  // ---- All issues ----

  function RequiredIssues(b: Board, persons: seq<PersonId>): seq<Issue> {
    if persons == [] then [] else RequiredIssues(b, persons[..|persons| - 1]) + RequiredIssue(b, persons[|persons| - 1])
  }

  function UnplannedIssues(b: Board, xs: seq<Assignment>): seq<Issue> {
    if xs == [] then [] else UnplannedIssues(b, xs[..|xs| - 1]) + UnplannedIssue(b, xs[|xs| - 1])
  }

  function OptionalIssues(b: Board, xs: seq<Assignment>): seq<Issue> {
    if xs == [] then [] else OptionalIssues(b, xs[..|xs| - 1]) + OptionalIssue(b, xs[|xs| - 1])
  }

  function EvidenceIssues(ps: Patterns, evidence: seq<SharedItem>, decisions: seq<string>): seq<Issue> {
    if decisions == [] then []
    else
      var d := decisions[|decisions| - 1];
      EvidenceIssues(ps, evidence, decisions[..|decisions| - 1])
      + DecisionIssues(ps, Filter(evidence, (e: SharedItem) => e.related == Some(d)), d)
  }

  function DeterministicIssues(ps: Patterns, b: Board, evidence: seq<SharedItem>): seq<Issue> {
    RequiredIssues(b, Ascending(PlannedRequired(b.plan)))
    + UnplannedIssues(b, b.Required())
    + OptionalIssues(b, b.assignments)
    + EvidenceIssues(ps, evidence, DistinctDecisions(b.plan.requiredDecisions))
  }

  // ---- Coverage ----

  /** An approval by the bound, complete review assignment of the decision. */
  predicate Approves(b: Board, d: EngagementDecision, decision: string) {
    var byId := ById(b.assignments);
    && d.response == Approve && d.assignment in b.valid && d.assignment in b.bindings
    && b.bindings[d.assignment] == decision
    && d.assignment in byId
    && var a := byId[d.assignment];
       a.engagement == ReviewApproval && b.Status(a.id).state == Contributed && d.mandate == a.mandate
         && d.stakeholder == a.person
  }

  /** Confirmed evidence from a matching complete interview. */
  predicate Evidences(b: Board, item: EvidenceItem, decision: string) {
    var byId := ById(b.assignments);
    && item.related == Some(decision) && Counts(item) && IsEligible(item, byId, b.valid)
    && b.Status(byId[item.assignment].id).state == Contributed
  }

  predicate IsCovered(b: Board, c: Contributions, decision: string) {
    || (exists i :: 0 <= i < |c.decisions| && Approves(b, c.decisions[i], decision))
    || (exists i :: 0 <= i < |c.evidence| && Evidences(b, c.evidence[i], decision))
  }

  function CoveredDecisions(b: Board, c: Option<Contributions>, evidence: seq<SharedItem>): seq<string> {
    match c
    case Some(contributions) => Filter(b.plan.requiredDecisions, d => IsCovered(b, contributions, d))
    case None =>
      Filter(b.plan.requiredDecisions,
             d => exists i :: 0 <= i < |evidence| && evidence[i].related == Some(d) && evidence[i].status == Confirmed)
  }

  function GapIssues(decisions: seq<string>, covered: seq<string>): seq<Issue> {
    if decisions == [] then []
    else
      var last := decisions[|decisions| - 1];
      GapIssues(decisions[..|decisions| - 1], covered)
      + (if last in covered then []
         else [Issue(AuthorityGap, GapText, [], {}, Some(last), true)])
  }

  // ---- The report ----

  datatype Report = Report(
    agreements: seq<string>, issues: seq<Issue>, covered: seq<string>, privateBlockers: nat, isAligned: bool)

  predicate HasBlocking(issues: seq<Issue>) { exists i :: 0 <= i < |issues| && issues[i].blocking }

  /** Every planned required person has exactly one valid, complete contribution; without contributions, a complete
      assignment. */
  predicate AllComplete(b: Board) {
    if b.statuses.Some? then
      forall p :: p in PlannedRequired(b.plan) ==>
        |Filter(b.Required(), (a: Assignment) => a.person == p && a.id in b.valid
                && b.Status(a.id).state == Contributed)| == 1
    else
      PlannedRequired(b.plan) != {}
      && forall p :: p in PlannedRequired(b.plan) ==>
           exists i :: 0 <= i < |b.Required()| && b.Required()[i].person == p && b.Required()[i].state == Complete
  }

  function Agreements(evidence: seq<SharedItem>, issues: seq<Issue>): seq<string> {
    if evidence == [] then []
    else
      var rest, last := Agreements(evidence[..|evidence| - 1], issues), evidence[|evidence| - 1];
      if last.kind == Commitment && last.status == Confirmed
         && !(exists i :: 0 <= i < |issues| && issues[i].blocking && issues[i].related == last.related)
      then rest + [last.statement]
      else rest
  }

  /** What the checks read, built from the assignments in order of identifier. */
  function BoardOf(plan: Plan, mandate: MandateId, assignments: seq<Assignment>, c: Option<Contributions>): Board {
    var sorted := SortById(assignments);
    match c
    case None => Board(plan, sorted, None, {}, map[])
    case Some(contributions) =>
      var valid := ValidIds(plan, sorted, mandate);
      Board(plan, sorted, Some(Statuses(sorted, contributions)), valid, ReviewBindings(plan, sorted, valid))
  }

  function UsableEvidence(b: Board, evidence: seq<SharedItem>, c: Option<Contributions>): seq<SharedItem> {
    match c
    case None => evidence
    case Some(contributions) =>
      var eligible := EligibleIds(b.assignments, contributions.evidence, b.valid);
      Filter(evidence, (e: SharedItem) => e.id in eligible)
  }

  function PrivateIssues(count: nat): seq<Issue> {
    if count == 0 then []
    else [Issue(PrivateBlocker, PrivateText, [], {}, None, true)]
  }

  function Analyze(ps: Patterns, plan: Plan, mandate: MandateId, evidence: seq<SharedItem>,
                   assignments: seq<Assignment>,
                   privateBlockers: nat, c: Option<Contributions>): Report
  {
    var b := BoardOf(plan, mandate, assignments, c);
    var usable := UsableEvidence(b, evidence, c);
    var covered := CoveredDecisions(b, c, usable);
    var issues := DeterministicIssues(ps, b, usable) + PrivateIssues(privateBlockers)
                  + (if c.Some? then GapIssues(plan.requiredDecisions, covered) else []);
    var voices := if c.Some? then Filter(usable, (e: SharedItem) => e.stakeholder.Some?) else usable;
    Report(Agreements(voices, issues), issues, covered, privateBlockers,
           AllComplete(b) && (forall i :: 0 <= i < |plan.requiredDecisions| ==> plan.requiredDecisions[i] in covered)
             && !HasBlocking(issues))
  }

  // ---- The model's advice ----

  datatype Suggestion = Suggestion(kind: IssueType, related: Option<string>)

  function Advice(plan: Plan, suggestions: seq<Suggestion>): seq<Issue> {
    if suggestions == [] then []
    else
      var rest, last := Advice(plan, suggestions[..|suggestions| - 1]), suggestions[|suggestions| - 1];
      if last.related.None? || last.related.value in plan.requiredDecisions
      then rest + [Issue(last.kind, AdvisoryText, [], {}, last.related, false)]
      else rest
  }

  /** The hybrid analysis; None stands for a model call that failed or did not fit its schema. */
  function AnalyzeWithModel(ps: Patterns, plan: Plan, mandate: MandateId, evidence: seq<SharedItem>,
                            assignments: seq<Assignment>, privateBlockers: nat, c: Option<Contributions>,
                            suggestions: Option<seq<Suggestion>>): Report
  {
    var eligible :=
      if c.Some? then EligibleIds(assignments, c.value.evidence, ValidIds(plan, assignments, mandate)) else {};
    var sent := if c.Some? then Filter(evidence, (e: SharedItem) => e.id in eligible) else evidence;
    var report := Analyze(ps, plan, mandate, sent, assignments, privateBlockers, c);
    match suggestions
    case None => report
    case Some(items) => report.(issues := report.issues + Advice(plan, items))
  }
}
