/** The engine's loops: issues appended one by one, proved to be the specified report. */
module AlignmentEngine {
  import opened Basics
  import opened Domain
  import opened AlignmentModel

  class Engine {
    const mandate: MandateId
    const patterns: Patterns

    constructor (mandate: MandateId, patterns: Patterns)
      ensures this.mandate == mandate && this.patterns == patterns
    {
      this.mandate, this.patterns := mandate, patterns;
    }

    /** Persons in order, then required assignments nobody planned, then optional ones, then every decision's
        evidence. */
    method DeterministicIssueList(b: Board, evidence: seq<SharedItem>) returns (issues: seq<Issue>)
      ensures issues == DeterministicIssues(patterns, b, evidence)
    {
      hide Filter, RequiredIssues, UnplannedIssues, OptionalIssues, EvidenceIssues, Ascending, DistinctDecisions;
      issues := AppendRequired(b, Ascending(PlannedRequired(b.plan)));
      issues := AppendUnplanned(b, b.Required(), issues);
      issues := AppendOptional(b, issues);
      issues := AppendEvidence(evidence, DistinctDecisions(b.plan.requiredDecisions), issues);
    }

    method AppendRequired(b: Board, persons: seq<PersonId>) returns (issues: seq<Issue>)
      ensures issues == RequiredIssues(b, persons)
    {
      hide RequiredIssue;
      issues := [];
      for i := 0 to |persons|
        invariant issues == RequiredIssues(b, persons[..i])
      {
        assert persons[..i + 1][..i] == persons[..i];
        issues := issues + RequiredIssue(b, persons[i]);
      }
      assert persons[..|persons|] == persons;
    }

    method AppendUnplanned(b: Board, required: seq<Assignment>, before: seq<Issue>) returns (issues: seq<Issue>)
      ensures issues == before + UnplannedIssues(b, required)
    {
      hide PlannedRequired;
      issues := before;
      for i := 0 to |required|
        invariant issues == before + UnplannedIssues(b, required[..i])
      {
        assert required[..i + 1][..i] == required[..i];
        var a := required[i];
        if a.person !in PlannedRequired(b.plan) && (b.statuses.Some? || a.state != Complete) {
          issues := issues + [PersonIssue(MissingEvidence, NotCompletedText, a.person)];
        }
      }
      assert required[..|required|] == required;
    }

    method AppendOptional(b: Board, before: seq<Issue>) returns (issues: seq<Issue>)
      ensures issues == before + OptionalIssues(b, b.assignments)
    {
      hide ContributionIssue;
      issues := before;
      var xs := b.assignments;
      for i := 0 to |xs|
        invariant issues == before + OptionalIssues(b, xs[..i])
      {
        assert xs[..i + 1][..i] == xs[..i];
        if b.statuses.None? || xs[i].required || xs[i].id !in b.valid { continue; }
        if xs[i].engagement == ReviewApproval && xs[i].id !in b.bindings { continue; }
        issues := issues + ContributionIssue(xs[i], b.Status(xs[i].id));
      }
      assert xs[..|xs|] == xs;
    }

    method AppendEvidence(evidence: seq<SharedItem>, decisions: seq<string>, before: seq<Issue>)
      returns (issues: seq<Issue>)
      ensures issues == before + EvidenceIssues(patterns, evidence, decisions)
    {
      hide DecisionIssues, Filter;
      issues := before;
      for i := 0 to |decisions|
        invariant issues == before + EvidenceIssues(patterns, evidence, decisions[..i])
      {
        assert decisions[..i + 1][..i] == decisions[..i];
        var decision := decisions[i];
        issues := issues + DecisionIssues(patterns, Filter(evidence, (e: SharedItem) => e.related == Some(decision)),
                                          decision);
      }
      assert decisions[..|decisions|] == decisions;
    }

    method AnalyzeMandate(plan: Plan, evidence: seq<SharedItem>, assignments: seq<Assignment>, privateBlockers: nat,
                          c: Option<Contributions>) returns (report: Report)
      ensures report == Analyze(patterns, plan, mandate, evidence, assignments, privateBlockers, c)
    {
      hide DeterministicIssues, GapIssues, AllComplete, Agreements, BoardOf, UsableEvidence, CoveredDecisions, Filter,
           HasBlocking;
      var b := BoardOf(plan, mandate, assignments, c);
      var usable := UsableEvidence(b, evidence, c);
      var issues := DeterministicIssueList(b, usable);
      ghost var deterministic := issues;
      if privateBlockers > 0 {
        issues := issues + [Issue(PrivateBlocker, PrivateText, [], {}, None, true)];
      }
      assert issues == deterministic + PrivateIssues(privateBlockers);
      var covered := CoveredDecisions(b, c, usable);
      if c.Some? {
        issues := AppendGaps(plan.requiredDecisions, covered, issues);
      }
      assert issues == deterministic + PrivateIssues(privateBlockers)
                       + (if c.Some? then GapIssues(plan.requiredDecisions, covered) else []);
      var voices := if c.Some? then Filter(usable, (e: SharedItem) => e.stakeholder.Some?) else usable;
      report := Report(Agreements(voices, issues), issues, covered, privateBlockers,
                       AllComplete(b)
                         && (forall i :: 0 <= i < |plan.requiredDecisions| ==> plan.requiredDecisions[i] in covered)
                       && !HasBlocking(issues));
    }

    method AppendGaps(decisions: seq<string>, covered: seq<string>, before: seq<Issue>) returns (issues: seq<Issue>)
      ensures issues == before + GapIssues(decisions, covered)
    {
      issues := before;
      for i := 0 to |decisions|
        invariant issues == before + GapIssues(decisions[..i], covered)
      {
        assert decisions[..i + 1][..i] == decisions[..i];
        if decisions[i] !in covered {
          issues := issues + [Issue(AuthorityGap, GapText, [], {}, Some(decisions[i]), true)];
        }
      }
      assert decisions[..|decisions|] == decisions;
    }
  }
}
