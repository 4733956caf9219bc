/** What one more public item does to the issues of a decision. */
module EvidenceGrowth {
  import opened Basics
  import opened Domain
  import opened AlignmentModel
  import opened AlignmentTheorems

  // ---- The values of a list, as a set and one by one ----

  predicate HasValue<T, V(==)>(xs: seq<T>, f: T -> Option<V>, v: Option<V>) {
    exists i :: 0 <= i < |xs| && f(xs[i]) == v
  }

  predicate AllHave<T, V>(xs: seq<T>, f: T -> Option<V>) { forall i :: 0 <= i < |xs| ==> f(xs[i]).Some? }

  /** Some item has another value. */
  predicate Differs<T, V(==)>(xs: seq<T>, f: T -> Option<V>, v: Option<V>) {
    exists i :: 0 <= i < |xs| && f(xs[i]) != v
  }

  /** The set holds exactly the values of the list. */
  ghost predicate Collects<T, V(!new)>(values: set<Option<V>>, xs: seq<T>, f: T -> Option<V>) {
    && (forall i :: 0 <= i < |xs| ==> f(xs[i]) in values)
    && (forall v :: v in values ==> HasValue(xs, f, v))
  }

  /** Every item has a value, the new one too, and some item has another value than the new one. */
  predicate Splits<T, V(==)>(xs: seq<T>, f: T -> Option<V>, extra: T) {
    f(extra).Some? && AllHave(xs, f) && Differs(xs, f, f(extra))
  }

  lemma SpreadOf<T, V(!new)>(values: set<Option<V>>, xs: seq<T>, f: T -> Option<V>, v: Option<V>)
    requires Collects(values, xs, f) && xs != []
    ensures None !in values <==> AllHave(xs, f)
    ensures Differs(xs, f, v) <==> |values| > 1 || v !in values
  {
    AllEqualIsSmall(values);
    assert f(xs[0]) in values;
    if None in values {
      assert HasValue(xs, f, None);
    }
    if |values| > 1 || v !in values {
      var x :| x in values && x != v;
      assert HasValue(xs, f, x);
    }
  }

  /** Values that all exist and differ, once one more has joined. */
  lemma SpreadOfMore<T, V(!new)>(values: set<Option<V>>, xs: seq<T>, f: T -> Option<V>, extra: T)
    requires Collects(values, xs + [extra], f)
    ensures None !in values && |values| > 1 <==> Splits(xs, f, extra)
  {
    hide Collects;
    var more := xs + [extra];
    assert more[|xs|] == extra;
    SpreadOf(values, more, f, f(extra));
    assert f(extra) in values by { InCollection(values, more, f, |xs|); }
    AllHaveMore(xs, f, extra);
  }

  lemma InCollection<T, V(!new)>(values: set<Option<V>>, xs: seq<T>, f: T -> Option<V>, i: nat)
    requires Collects(values, xs, f) && i < |xs|
    ensures f(xs[i]) in values
  {
  }

  lemma AllHaveMore<T, V>(xs: seq<T>, f: T -> Option<V>, extra: T)
    ensures AllHave(xs + [extra], f) <==> AllHave(xs, f) && f(extra).Some?
    ensures Differs(xs + [extra], f, f(extra)) <==> Differs(xs, f, f(extra))
  {
    var more := xs + [extra];
    assert more[|xs|] == extra && forall i :: 0 <= i < |xs| ==> more[i] == xs[i];
  }

  // ---- When a conflict between facts survives one more fact ----

  function Dating(ps: Patterns): SharedItem -> Option<string> { (f: SharedItem) => (ps.date)(f.statement) }

  function Counting(ps: Patterns): SharedItem -> Option<int> { (f: SharedItem) => Quantity(ps, f) }

  lemma ValuesCollect(ps: Patterns, facts: seq<SharedItem>)
    ensures Collects(Dates(ps, facts), facts, Dating(ps))
    ensures Collects(Quantities(ps, facts), facts, Counting(ps))
  {
    hide Quantity;
    forall d | d in Dates(ps, facts) ensures HasValue(facts, Dating(ps), d) {
      var i :| 0 <= i < |facts| && (ps.date)(facts[i].statement) == d;
    }
    forall q | q in Quantities(ps, facts) ensures HasValue(facts, Counting(ps), q) {
      var i :| 0 <= i < |facts| && Quantity(ps, facts[i]) == q;
    }
  }

  function SentenceOf(ps: Patterns, f: SharedItem): string { (ps.withoutNegation)(f.statement) }

  predicate IsNegated(ps: Patterns, f: SharedItem) { (ps.negated)(f.statement) }

  /** All facts repeat the sentence of the new one, and some fact has the other polarity. */
  predicate PolaritySplits(ps: Patterns, facts: seq<SharedItem>, extra: SharedItem) {
    && (forall f :: f in facts ==> SentenceOf(ps, f) == SentenceOf(ps, extra))
    && (exists f :: f in facts && IsNegated(ps, f) != IsNegated(ps, extra))
  }

  predicate OneSentenceMixed(ps: Patterns, facts: seq<SharedItem>)
    requires facts != []
  {
    && (forall i :: 0 <= i < |facts| ==>
        (ps.withoutNegation)(facts[i].statement) == (ps.withoutNegation)(facts[0].statement))
    && (exists i :: 0 <= i < |facts| && (ps.negated)(facts[i].statement))
    && (exists i :: 0 <= i < |facts| && !(ps.negated)(facts[i].statement))
  }

  lemma PolarityConflictsExactly(ps: Patterns, facts: seq<SharedItem>, member: SharedItem)
    requires member in facts
    ensures OneSentenceMixed(ps, facts) <==>
              && (forall f :: f in facts ==> SentenceOf(ps, f) == SentenceOf(ps, member))
              && (exists f :: f in facts && IsNegated(ps, f) != IsNegated(ps, member))
  {
    var k :| 0 <= k < |facts| && facts[k] == member;
    assert facts[0] in facts;
    if OneSentenceMixed(ps, facts) {
      var i :| 0 <= i < |facts| && (ps.negated)(facts[i].statement);
      var j :| 0 <= j < |facts| && !(ps.negated)(facts[j].statement);
      assert IsNegated(ps, facts[i]) && !IsNegated(ps, facts[j]) && facts[i] in facts && facts[j] in facts;
    }
    if (&& (forall f :: f in facts ==> SentenceOf(ps, f) == SentenceOf(ps, member))
        && (exists f :: f in facts && IsNegated(ps, f) != IsNegated(ps, member))) {
      var f :| f in facts && IsNegated(ps, f) != IsNegated(ps, member);
      var i :| 0 <= i < |facts| && facts[i] == f;
      forall j | 0 <= j < |facts|
        ensures (ps.withoutNegation)(facts[j].statement) == (ps.withoutNegation)(facts[0].statement)
      {
        assert SentenceOf(ps, facts[j]) == SentenceOf(ps, facts[0]);
      }
      assert (ps.negated)(facts[i].statement) != (ps.negated)(facts[k].statement);
    }
  }

  lemma ConflictUnfolds(ps: Patterns, facts: seq<SharedItem>)
    requires facts != []
    ensures FactsConflict(ps, facts) <==>
              && |facts| >= 2
              && (|| (None !in Dates(ps, facts) && |Dates(ps, facts)| > 1)
                  || (None !in Quantities(ps, facts) && |Quantities(ps, facts)| > 1)
                  || OneSentenceMixed(ps, facts))
  {
    hide Dates, Quantities;
  }

  /** Facts conflict once one more has joined, whatever they did before, exactly when the new one is dated, counted or
      phrased as all of them are and one of them differs from it. */
  lemma ConflictAfterExactly(ps: Patterns, facts: seq<SharedItem>, extra: SharedItem)
    ensures FactsConflict(ps, facts + [extra]) <==>
              || Splits(facts, Dating(ps), extra)
              || Splits(facts, Counting(ps), extra)
              || PolaritySplits(ps, facts, extra)
  {
    hide Quantity, Dates, Quantities, OneSentenceMixed, SentenceOf, IsNegated, Splits, FactsConflict, Collects, Dating,
         Counting;
    var more := facts + [extra];
    assert more[|facts|] == extra;
    ValuesCollect(ps, more);
    SpreadOfMore(Dates(ps, more), facts, Dating(ps), extra);
    SpreadOfMore(Quantities(ps, more), facts, Counting(ps), extra);
    PolarityConflictsExactly(ps, more, extra);
    ConflictUnfolds(ps, more);
    LoneFactSplitsNothing(ps, facts, extra);
  }

  lemma LoneFactSplitsNothing(ps: Patterns, facts: seq<SharedItem>, extra: SharedItem)
    ensures facts == [] ==>
              && !Splits(facts, Dating(ps), extra) && !Splits(facts, Counting(ps), extra)
              && !PolaritySplits(ps, facts, extra)
  {
  }

  lemma SplitsExactly<V(!new)>(values: set<Option<V>>, facts: seq<SharedItem>, f: SharedItem -> Option<V>,
                               extra: SharedItem)
    requires Collects(values, facts, f) && facts != []
    ensures Splits(facts, f, extra) <==>
              f(extra).Some? && None !in values && (|values| > 1 || f(extra) !in values)
  {
    hide Collects;
    SpreadOf(values, facts, f, f(extra));
  }

  lemma PolaritySplitsExactly(ps: Patterns, facts: seq<SharedItem>, extra: SharedItem)
    requires facts != []
    ensures PolaritySplits(ps, facts, extra) <==>
              && (forall f :: f in facts ==> SentenceOf(ps, f) == SentenceOf(ps, extra))
              && (OneSentenceMixed(ps, facts) || IsNegated(ps, facts[0]) != IsNegated(ps, extra))
  {
    hide OneSentenceMixed, SentenceOf, IsNegated;
    assert facts[0] in facts;
    PolarityConflictsExactly(ps, facts, facts[0]);
  }

  /** A conflict between facts survives one more fact exactly when the new fact carries a comparison on: it is dated
      where all are dated, counted where all are counted, or repeats the one sentence of all, and joins or starts a
      difference there. */
  lemma ConflictSurvivesExactly(ps: Patterns, facts: seq<SharedItem>, extra: SharedItem)
    requires FactsConflict(ps, facts)
    ensures FactsConflict(ps, facts + [extra]) <==>
              || (&& (ps.date)(extra.statement).Some? && None !in Dates(ps, facts)
                  && (|Dates(ps, facts)| > 1 || (ps.date)(extra.statement) !in Dates(ps, facts)))
              || (&& Quantity(ps, extra).Some? && None !in Quantities(ps, facts)
                  && (|Quantities(ps, facts)| > 1 || Quantity(ps, extra) !in Quantities(ps, facts)))
              || (&& (forall f :: f in facts ==> SentenceOf(ps, f) == SentenceOf(ps, extra))
                  && (OneSentenceMixed(ps, facts) || IsNegated(ps, facts[0]) != IsNegated(ps, extra)))
  {
    hide Quantity, Dates, Quantities, SentenceOf, IsNegated, OneSentenceMixed, Splits, PolaritySplits, Collects;
    ConflictAfterExactly(ps, facts, extra);
    ValuesCollect(ps, facts);
    SplitsExactly(Dates(ps, facts), facts, Dating(ps), extra);
    SplitsExactly(Quantities(ps, facts), facts, Counting(ps), extra);
    PolaritySplitsExactly(ps, facts, extra);
  }

  // ---- What one more item does to the issues of a decision ----

  predicate Raises(issues: seq<Issue>, summary: Summary) {
    exists i :: 0 <= i < |issues| && issues[i].summary == summary
  }

  /** Every kind of issue raised before is raised still. */
  predicate KeepsIssues(before: seq<Issue>, after: seq<Issue>) {
    forall i :: 0 <= i < |before| ==> Raises(after, before[i].summary)
  }

  function FactsOf(items: seq<SharedItem>): seq<SharedItem> { Filter(items, (e: SharedItem) => e.kind == Fact) }

  /** Issues other than a contradiction between facts are never lost. */
  lemma OtherIssuesStay(ps: Patterns, candidates: seq<SharedItem>, extra: SharedItem, decision: string)
    ensures var more := candidates + [extra];
            && (Disputes(candidates, decision) != [] ==> Disputes(more, decision) != [])
            && (DeadlineConflicts(candidates, decision) != [] ==> DeadlineConflicts(more, decision) != [])
            && (ResourceConflicts(ps, candidates, decision) != [] ==> ResourceConflicts(ps, more, decision) != [])
            && (HardConstraints(ps, candidates, decision) != [] ==> HardConstraints(ps, more, decision) != [])
  {
    hide Disputes, DeadlineConflicts, ResourceConflicts, HardConstraints, Exceeds;
    var more := candidates + [extra];
    DisputesMean(candidates, decision);
    DisputesMean(more, decision);
    DeadlinesMean(candidates, decision);
    DeadlinesMean(more, decision);
    HardMeans(ps, candidates, decision);
    HardMeans(ps, more, decision);
    ResourceConflictMeans(ps, candidates, decision);
    ResourceConflictMeans(ps, more, decision);
    forall request, limit | Exceeds(ps, candidates, request, limit) ensures Exceeds(ps, more, request, limit) {
      ExceedsStill(ps, candidates, extra, request, limit);
    }
  }

  lemma ExceedsStill(ps: Patterns, candidates: seq<SharedItem>, extra: SharedItem, request: SharedItem,
                     limit: SharedItem)
    requires Exceeds(ps, candidates, request, limit)
    ensures Exceeds(ps, candidates + [extra], request, limit)
  {
    hide Quantity;
  }

  /** The list raises the given text if it is not empty, and nothing else. */
  predicate Speaks(issues: seq<Issue>, text: Summary) { forall t :: Raises(issues, t) <==> t == text && issues != [] }

  lemma SingleSpeaks(issues: seq<Issue>, text: Summary)
    requires |issues| <= 1 && (issues != [] ==> issues[0].summary == text)
    ensures Speaks(issues, text)
  {
  }

  lemma ChecksSpeak(ps: Patterns, candidates: seq<SharedItem>, decision: string)
    ensures Speaks(Disputes(candidates, decision), DisputedText)
    ensures Speaks(Contradictions(ps, candidates, decision), FactConflictText)
    ensures Speaks(DeadlineConflicts(candidates, decision), DeadlineText)
    ensures Speaks(ResourceConflicts(ps, candidates, decision), ResourceText)
    ensures Speaks(HardConstraints(ps, candidates, decision), HardText)
  {
    hide FactsConflict, Filter, Quantified, Least, Greatest, IdsOf, NamesOf, Raises, Speaks, Quantity;
    SingleSpeaks(Disputes(candidates, decision), DisputedText);
    SingleSpeaks(Contradictions(ps, candidates, decision), FactConflictText);
    SingleSpeaks(DeadlineConflicts(candidates, decision), DeadlineText);
    SingleSpeaks(ResourceConflicts(ps, candidates, decision), ResourceText);
    SingleSpeaks(HardConstraints(ps, candidates, decision), HardText);
  }

  /** The five checks are told apart by their texts. */
  lemma RaisedBy(ps: Patterns, candidates: seq<SharedItem>, decision: string)
    ensures forall t :: Raises(DecisionIssues(ps, candidates, decision), t) <==>
              || (t == DisputedText && Disputes(candidates, decision) != [])
              || (t == FactConflictText && Contradictions(ps, candidates, decision) != [])
              || (t == DeadlineText && DeadlineConflicts(candidates, decision) != [])
              || (t == ResourceText && ResourceConflicts(ps, candidates, decision) != [])
              || (t == HardText && HardConstraints(ps, candidates, decision) != [])
  {
    hide Disputes, Contradictions, DeadlineConflicts, ResourceConflicts, HardConstraints, Raises;
    ChecksSpeak(ps, candidates, decision);
    RaisedInParts(Disputes(candidates, decision), Contradictions(ps, candidates, decision),
                  DeadlineConflicts(candidates, decision),
                  ResourceConflicts(ps, candidates, decision), HardConstraints(ps, candidates, decision));
  }

  lemma RaisedInParts(a: seq<Issue>, b: seq<Issue>, c: seq<Issue>, d: seq<Issue>, e: seq<Issue>)
    ensures forall t :: Raises(a + b + c + d + e, t) <==>
              Raises(a, t) || Raises(b, t) || Raises(c, t) || Raises(d, t) || Raises(e, t)
  {
    RaisedInBoth(a, b);
    RaisedInBoth(a + b, c);
    RaisedInBoth(a + b + c, d);
    RaisedInBoth(a + b + c + d, e);
  }

  lemma RaisedInBoth(a: seq<Issue>, b: seq<Issue>)
    ensures forall t :: Raises(a + b, t) <==> Raises(a, t) || Raises(b, t)
  {
    forall t ensures Raises(a + b, t) <==> Raises(a, t) || Raises(b, t) {
      if Raises(a, t) {
        var i :| 0 <= i < |a| && a[i].summary == t;
        assert (a + b)[i].summary == t;
      }
      if Raises(b, t) {
        var i :| 0 <= i < |b| && b[i].summary == t;
        assert (a + b)[|a| + i].summary == t;
      }
    }
  }

  /** One more item keeps every issue of a decision, except that a fact can end a contradiction between facts: it does
      exactly when it splits neither dates nor quantities nor the polarity of one sentence. */
  lemma MoreEvidenceKeepsIssuesExactly(ps: Patterns, candidates: seq<SharedItem>, extra: SharedItem, decision: string)
    ensures var facts := FactsOf(candidates);
            KeepsIssues(DecisionIssues(ps, candidates, decision),
                        DecisionIssues(ps, candidates + [extra], decision)) <==>
              (extra.kind == Fact && FactsConflict(ps, facts) ==>
                 Splits(facts, Dating(ps), extra) || Splits(facts, Counting(ps), extra)
                   || PolaritySplits(ps, facts, extra))
  {
    hide DecisionIssues, FactsConflict, Filter, Splits, PolaritySplits, Disputes, DeadlineConflicts,
         ResourceConflicts, HardConstraints, Contradictions, Raises, KeepsIssues, FactsOf, Dating, Counting;
    var facts, more := FactsOf(candidates), candidates + [extra];
    OtherIssuesStay(ps, candidates, extra, decision);
    RaisedBy(ps, candidates, decision);
    RaisedBy(ps, more, decision);
    FactsOfMore(candidates, extra);
    ConflictAfterExactly(ps, facts, extra);
    ContradictionRaised(ps, candidates, decision);
    ContradictionRaised(ps, more, decision);
    var before, after := DecisionIssues(ps, candidates, decision), DecisionIssues(ps, more, decision);
    KeptTexts(before, after);
    assert Raises(before, FactConflictText) <==> Contradictions(ps, candidates, decision) != [];
  }

  lemma ContradictionRaised(ps: Patterns, candidates: seq<SharedItem>, decision: string)
    ensures Contradictions(ps, candidates, decision) != [] <==> FactsConflict(ps, FactsOf(candidates))
  {
    hide FactsConflict, Filter;
  }

  lemma KeptTexts(before: seq<Issue>, after: seq<Issue>)
    ensures KeepsIssues(before, after) <==> forall t :: Raises(before, t) ==> Raises(after, t)
  {
  }

  lemma FactsOfMore(candidates: seq<SharedItem>, extra: SharedItem)
    ensures FactsOf(candidates + [extra]) == if extra.kind == Fact then
            FactsOf(candidates) + [extra] else FactsOf(candidates)
  {
    var more := candidates + [extra];
    assert more[..|more| - 1] == candidates && more[|more| - 1] == extra;
    var rest := FactsOf(more[..|more| - 1]);
    assert FactsOf(more) == if more[|more| - 1].kind == Fact then rest + [more[|more| - 1]] else rest;
  }

  // ---- A conflict lost ----

  /** The expressions of the engine on the three sentences below. */
  const ISO_DATES := Patterns(s => if |s| == 10 then Some(s) else None, s => if |s| == 10 then Some(2026) else None,
                              s => false, s => s, s => false)

  function ConfirmedFact(id: EvidenceId, statement: string, decision: string): SharedItem {
    SharedItem(id, Fact, statement, None, Confirmed, Some(decision), None, None)
  }

  predicate PlainFact(e: SharedItem) { e.kind == Fact && e.status == Confirmed && e.deadline.None? }

  lemma {:induction false} FactsOfFacts(items: seq<SharedItem>)
    requires forall i :: 0 <= i < |items| ==> PlainFact(items[i])
    ensures FactsOf(items) == items
  {
    if items != [] {
      FactsOfFacts(items[..|items| - 1]);
    }
  }

  lemma PlainFactsOnlyConflict(ps: Patterns, items: seq<SharedItem>, decision: string)
    requires forall i :: 0 <= i < |items| ==> PlainFact(items[i])
    ensures if FactsConflict(ps, items) then Raises(DecisionIssues(ps, items, decision), FactConflictText)
            else DecisionIssues(ps, items, decision) == []
  {
    hide DecisionIssues, FactsConflict, Raises, Filter;
    FactsOfFacts(items);
    assert forall e :: e in items ==> PlainFact(e);
    RaisedBy(ps, items, decision);
    DecisionIssuesMean(ps, items, decision);
  }

  lemma DatedApart(ps: Patterns, first: SharedItem, second: SharedItem)
    requires (ps.date)(first.statement).Some? && (ps.date)(second.statement).Some?
    requires (ps.date)(first.statement) != (ps.date)(second.statement)
    ensures Splits([first], Dating(ps), second)
  {
    assert Dating(ps)([first][0]) != Dating(ps)(second);
  }

  lemma NothingSplits(ps: Patterns, first: SharedItem, second: SharedItem, third: SharedItem)
    requires (ps.date)(third.statement).None? && Quantity(ps, third).None?
             && SentenceOf(ps, first) != SentenceOf(ps, third)
    ensures !Splits([first, second], Dating(ps), third) && !Splits([first, second], Counting(ps), third)
    ensures !PolaritySplits(ps, [first, second], third)
  {
    hide Quantity;
    assert [first, second][0] == first && first in [first, second];
  }

  /** Two launch dates contradict each other; with "ready" as a third fact the decision has no issue at all. */
  lemma UndatedFactHidesConflict(decision: string)
    ensures var first, second := ConfirmedFact(1, "2026-05-01", decision), ConfirmedFact(2, "2026-06-01", decision);
            var third := ConfirmedFact(3, "ready", decision);
            && Raises(DecisionIssues(ISO_DATES, [first, second], decision), FactConflictText)
            && DecisionIssues(ISO_DATES, [first, second, third], decision) == []
  {
    hide DecisionIssues, FactsConflict, Raises, Splits, PolaritySplits, Dating, Counting;
    var first, second := ConfirmedFact(1, "2026-05-01", decision), ConfirmedFact(2, "2026-06-01", decision);
    var third := ConfirmedFact(3, "ready", decision);
    assert first.statement[6] != second.statement[6] && |first.statement| == 10 && |third.statement| == 5;
    DatedApart(ISO_DATES, first, second);
    ConflictAfterExactly(ISO_DATES, [first], second);
    NothingSplits(ISO_DATES, first, second, third);
    ConflictAfterExactly(ISO_DATES, [first, second], third);
    assert [first] + [second] == [first, second] && [first, second] + [third] == [first, second, third];
    PlainFactsOnlyConflict(ISO_DATES, [first, second], decision);
    PlainFactsOnlyConflict(ISO_DATES, [first, second, third], decision);
  }
}
