/** Enumerations shared by outreach and alignment. */
module Domain {

  datatype StakeholderState =
    | NotContacted
    | ContactQueued
    | Delivered
    | AwaitingAcknowledgement
    | Acknowledged
    | Interviewing
    | Complete
    | FollowUpDue
    | AlternateChannel
    | Declined
    | Unreachable
    | DeliveryFailed

  datatype EngagementType = Inform | Acknowledge | QuickResponse | StructuredInterview | ReviewApproval | Availability

  datatype Direction = Upward | Downward | Lateral | External

  datatype DecisionKind = Approve | Reject | Change

  /** The items that satisfy p, in order. */
  function Filter<T>(xs: seq<T>, p: T -> bool): (r: seq<T>)
    ensures forall i :: 0 <= i < |r| ==> p(r[i]) && r[i] in xs
  {
    if xs == [] then []
    else
      var rest, last := Filter(xs[..|xs| - 1], p), xs[|xs| - 1];
      if p(last) then rest + [last] else rest
  }

  lemma {:induction false} FilterMember<T>(xs: seq<T>, p: T -> bool, x: T)
    ensures x in Filter(xs, p) <==> x in xs && p(x)
  {
    if xs != [] {
      FilterMember(xs[..|xs| - 1], p, x);
      assert xs == xs[..|xs| - 1] + [xs[|xs| - 1]];
    }
  }

  lemma {:induction false} FilterEmpty<T>(xs: seq<T>, p: T -> bool)
    ensures Filter(xs, p) == [] <==> forall x :: x in xs ==> !p(x)
  {
    if xs != [] {
      FilterEmpty(xs[..|xs| - 1], p);
      assert xs == xs[..|xs| - 1] + [xs[|xs| - 1]];
    }
  }

  lemma {:induction false} FilterSame<T>(xs: seq<T>, p: T -> bool, q: T -> bool)
    requires forall x :: x in xs ==> p(x) == q(x)
    ensures Filter(xs, p) == Filter(xs, q)
  {
    if xs != [] {
      FilterSame(xs[..|xs| - 1], p, q);
    }
  }

  /** Filtering twice is filtering by both. */
  lemma {:induction false} FilterTwice<T>(xs: seq<T>, p: T -> bool, q: T -> bool, both: T -> bool)
    requires forall x :: x in xs ==> both(x) == (p(x) && q(x))
    ensures Filter(Filter(xs, p), q) == Filter(xs, both)
  {
    if xs != [] {
      var rest, last := xs[..|xs| - 1], xs[|xs| - 1];
      FilterTwice(rest, p, q, both);
      if p(last) {
        assert (Filter(rest, p) + [last])[..|Filter(rest, p) + [last]| - 1] == Filter(rest, p);
      }
    }
  }

  predicate IsFirst(s: set<int>, first: int) { first in s && forall p :: p in s ==> first <= p }

  lemma {:induction false} MinimumExists(s: set<int>)
    requires s != {}
    ensures exists first :: IsFirst(s, first)
    decreases |s|
  {
    assert (forall x :: x !in s) ==> s == {};
    var x :| x in s;
    var rest := s - {x};
    if rest == {} {
      assert forall p :: p in s ==> p == x || p in rest;
      assert IsFirst(s, x);
    } else {
      MinimumExists(rest);
      var y :| IsFirst(rest, y);
      assert forall p :: p in s ==> p == x || p in rest;
      assert IsFirst(s, if x <= y then x else y);
    }
  }

  /** A set in ascending order. */
  function Ascending(s: set<int>): (r: seq<int>)
    ensures forall p :: p in r <==> p in s
  {
    if s == {} then []
    else
      MinimumExists(s);
      var first :| first in s && IsFirst(s, first);
      [first] + Ascending(s - {first})
  }
}
