/** The reporting hierarchy: documents, manager chains and directions, with what a valid document guarantees. */
module DirectoryModel {
  import opened Basics
  import opened Domain

  // References are compared after casefolding; identifiers here are already folded.
  type PersonId = string
  type Reference = string

  datatype Person = Person(
    id: PersonId, name: Reference, aliases: seq<Reference>, managerId: Option<PersonId>, department: string)
  {
    /** An empty identifier counts as no manager. */
    function Manager(): Option<PersonId> { if managerId == Some("") then None else managerId }
  }

  datatype Policy = Policy(person: PersonId, directions: set<Direction>, departments: set<string>, maxUpwardLevels: nat)

  datatype Document = Document(people: seq<Person>, policies: seq<Policy>)

  datatype DirectoryError =
    | DuplicatePerson | DuplicatePolicy | UnknownManager | ReportingCycle
    | UnknownPerson | AmbiguousPerson
    | DirectionMismatch | DirectionNotAllowed | DepartmentNotAllowed | TooFarUpward

  type People = map<PersonId, Person>

  function PeopleById(people: seq<Person>): (m: People)
    ensures forall id :: id in m <==> exists i :: 0 <= i < |people| && people[i].id == id
    ensures forall id :: id in m ==> m[id].id == id && m[id] in people
  {
    if people == [] then map[]
    else
      var last := people[|people| - 1];
      assert people == people[..|people| - 1] + [last];
      PeopleById(people[..|people| - 1])[last.id := last]
  }

  // ---- The manager relation ----

  function ManagerOf(people: People, id: PersonId): Option<PersonId> {
    if id in people then people[id].Manager() else None
  }

  /** The k-th manager above a person. */
  function Up(people: People, id: PersonId, k: nat): Option<PersonId> {
    if k == 0 then Some(id)
    else
      match Up(people, id, k - 1)
      case None => None
      case Some(m) => ManagerOf(people, m)
  }

  lemma {:induction false} UpJoin(people: People, id: PersonId, j: nat, k: nat)
    requires Up(people, id, j).Some?
    ensures Up(people, id, j + k) == Up(people, Up(people, id, j).value, k)
  {
    if k > 0 {
      UpJoin(people, id, j, k - 1);
    }
  }

  lemma {:induction false} UpStaysNone(people: People, id: PersonId, j: nat, k: nat)
    requires j <= k && Up(people, id, j).None?
    ensures Up(people, id, k).None?
    decreases k
  {
    if k > j {
      UpStaysNone(people, id, j, k - 1);
    }
  }

  lemma {:induction false} UpWasSome(people: People, id: PersonId, j: nat, k: nat)
    requires j <= k && Up(people, id, k).Some?
    ensures Up(people, id, j).Some?
  {
    if Up(people, id, j).None? {
      UpStaysNone(people, id, j, k);
    }
  }

  predicate UniquePeople(d: Document) { forall i, j :: 0 <= i < j < |d.people| ==> d.people[i].id != d.people[j].id }

  predicate UniquePolicies(d: Document) {
    forall i, j :: 0 <= i < j < |d.policies| ==> d.policies[i].person != d.policies[j].person
  }

  predicate KnownManagers(people: People) {
    forall id :: id in people && people[id].Manager().Some? ==> people[id].Manager().value in people
  }

  /** Nobody is their own manager at any distance. */
  ghost predicate Acyclic(people: People) {
    forall id, k: nat :: id in people && k >= 1 ==> Up(people, id, k) != Some(id)
  }

  /** Everything a document must satisfy. */
  ghost predicate WellFormed(d: Document) {
    var people := PeopleById(d.people);
    UniquePeople(d) && UniquePolicies(d) && KnownManagers(people) && Acyclic(people)
  }

  // ---- Climbing with a guard, as the code does ----

  /** The managers above a person, nearest first; the walk stops at a repetition or an unknown manager. */
  function Climb(people: People, id: PersonId, visited: set<PersonId>): seq<PersonId>
    decreases people.Keys - visited
  {
    match ManagerOf(people, id)
    case None => []
    case Some(m) =>
      if m in visited then []
      else if m !in people then [m]
      else [m] + Climb(people, m, visited + {m})
  }

  /** The person's chain ends, and every manager on it is known. */
  predicate Grounded(people: People, id: PersonId, length: nat) {
    Up(people, id, length).Some? && ManagerOf(people, Up(people, id, length).value).None?
  }

  ghost predicate AllGrounded(people: People) { forall id :: id in people ==> exists n: nat :: Grounded(people, id, n) }

  lemma {:induction false} CycleNeverEnds(people: People, id: PersonId, k: nat, n: nat)
    requires k >= 1 && Up(people, id, k) == Some(id)
    ensures Up(people, id, n).Some?
    decreases n
  {
    if n < k {
      UpWasSome(people, id, n, k);
    } else {
      CycleNeverEnds(people, id, k, n - k);
      UpJoin(people, id, k, n - k);
    }
  }

  lemma GroundedHasNoCycle(people: People, id: PersonId, n: nat, k: nat)
    requires Grounded(people, id, n) && k >= 1
    ensures Up(people, id, k) != Some(id)
  {
    if Up(people, id, k) == Some(id) {
      CycleNeverEnds(people, id, k, n + 1);
    }
  }

  /** Chains that end exclude cycles. */
  lemma GroundedIsAcyclic(people: People)
    requires AllGrounded(people)
    ensures Acyclic(people)
  {
    forall id, k: nat | id in people && k >= 1 ensures Up(people, id, k) != Some(id) {
      var n: nat :| Grounded(people, id, n);
      GroundedHasNoCycle(people, id, n, k);
    }
  }

  /** A repeated, known manager on a chain is a cycle. */
  lemma RepeatIsCycle(people: People, id: PersonId, i: nat, j: nat)
    requires i < j && Up(people, id, i).Some? && Up(people, id, i).value in people
             && Up(people, id, j) == Up(people, id, i)
    ensures !Acyclic(people)
  {
    var m := Up(people, id, i).value;
    UpJoin(people, id, i, j - i);
    assert Up(people, m, j - i) == Some(m);
  }

  lemma {:induction false} UpIsKnown(people: People, id: PersonId, k: nat)
    requires KnownManagers(people) && id in people && Up(people, id, k).Some?
    ensures Up(people, id, k).value in people
  {
    if k > 0 {
      UpWasSome(people, id, k - 1, k);
      UpIsKnown(people, id, k - 1);
    }
  }

  // ---- Dead guards ----

  /** m is one of the first n managers above start. */
  predicate WithinReach(people: People, start: PersonId, n: nat, m: PersonId) {
    exists k :: 1 <= k <= n && Up(people, start, k) == Some(m)
  }

  ghost predicate HasVisited(people: People, start: PersonId, n: nat, visited: set<PersonId>) {
    forall m :: m in visited <==> WithinReach(people, start, n, m)
  }

  lemma VisitedGrows(people: People, start: PersonId, n: nat, visited: set<PersonId>)
    requires HasVisited(people, start, n, visited) && Up(people, start, n + 1).Some?
    ensures HasVisited(people, start, n + 1, visited + {Up(people, start, n + 1).value})
  {
    var next := Up(people, start, n + 1).value;
    forall m ensures m in visited + {next} <==> WithinReach(people, start, n + 1, m) {
      if WithinReach(people, start, n, m) {
        var k :| 1 <= k <= n && Up(people, start, k) == Some(m);
        assert 1 <= k <= n + 1;
      }
      if m == next {
        assert 1 <= n + 1 <= n + 1 && Up(people, start, n + 1) == Some(m);
      }
    }
  }

  /** The next manager of a well-formed hierarchy is known and not visited yet. */
  lemma NextIsNew(people: People, start: PersonId, n: nat, visited: set<PersonId>)
    requires KnownManagers(people) && Acyclic(people) && start in people && HasVisited(people, start, n, visited)
    requires Up(people, start, n + 1).Some?
    ensures Up(people, start, n + 1).value in people && Up(people, start, n + 1).value !in visited
  {
    UpIsKnown(people, start, n + 1);
    var m := Up(people, start, n + 1).value;
    if m in visited {
      var k :| 1 <= k <= n && Up(people, start, k) == Some(m);
      RepeatIsCycle(people, start, k, n + 1);
    }
  }

  /** In a well-formed hierarchy neither guard of the walk ever fires: it lists exactly all managers, to the top. */
  lemma {:induction false} ClimbIsWholeChain(people: People, start: PersonId, at: nat, visited: set<PersonId>)
    requires KnownManagers(people) && Acyclic(people) && start in people && Up(people, start, at).Some?
    requires HasVisited(people, start, at, visited)
    ensures var c := Climb(people, Up(people, start, at).value, visited);
            && (forall i :: 0 <= i < |c| ==> Up(people, start, at + 1 + i) == Some(c[i]))
            && Up(people, start, at + 1 + |c|).None?
    decreases people.Keys - visited
  {
    hide HasVisited, KnownManagers, Acyclic;
    var id := Up(people, start, at).value;
    assert Up(people, start, at + 1) == ManagerOf(people, id);
    if Up(people, start, at + 1).Some? {
      var m := Up(people, start, at + 1).value;
      NextIsNew(people, start, at, visited);
      VisitedGrows(people, start, at, visited);
      ClimbIsWholeChain(people, start, at + 1, visited + {m});
      var c, more := Climb(people, id, visited), Climb(people, m, visited + {m});
      assert c == [m] + more;
      forall i | 0 <= i < |c| ensures Up(people, start, at + 1 + i) == Some(c[i]) {
        if i > 0 {
          assert at + 1 + i == at + 1 + 1 + (i - 1) && c[i] == more[i - 1];
        }
      }
    }
  }

  function Chain(people: People, id: PersonId): seq<PersonId> { Climb(people, id, {}) }

  lemma ChainIsUp(people: People, id: PersonId)
    requires KnownManagers(people) && Acyclic(people) && id in people
    ensures var c := Chain(people, id);
            && (forall i :: 0 <= i < |c| ==> Up(people, id, 1 + i) == Some(c[i]))
            && Up(people, id, 1 + |c|).None?
  {
    hide Climb, KnownManagers, Acyclic;
    ClimbIsWholeChain(people, id, 0, {});
  }

  /** Nobody appears twice on a chain. */
  lemma ChainIsDistinct(people: People, id: PersonId, i: nat, j: nat)
    requires KnownManagers(people) && Acyclic(people) && id in people && i < j < |Chain(people, id)|
    ensures Chain(people, id)[i] != Chain(people, id)[j]
  {
    hide Chain, KnownManagers, Acyclic, Up;
    ChainIsUp(people, id);
    var c := Chain(people, id);
    assert Up(people, id, 1 + i) == Some(c[i]) && Up(people, id, 1 + j) == Some(c[j]);
    UpIsKnown(people, id, 1 + i);
    if c[i] == c[j] {
      RepeatIsCycle(people, id, 1 + i, 1 + j);
    }
  }

  // ---- Above and below ----

  /** a manages b at some distance. */
  ghost predicate Above(people: People, a: PersonId, b: PersonId) {
    exists k: nat :: k >= 1 && Up(people, b, k) == Some(a)
  }

  lemma AboveIsInChain(people: People, a: PersonId, b: PersonId)
    requires KnownManagers(people) && Acyclic(people) && b in people
    ensures Above(people, a, b) <==> a in Chain(people, b)
  {
    ChainIsUp(people, b);
    var c := Chain(people, b);
    if Above(people, a, b) {
      var k: nat :| k >= 1 && Up(people, b, k) == Some(a);
      if k > |c| {
        UpStaysNone(people, b, |c| + 1, k);
      }
      assert c[k - 1] == a;
    }
    if a in c {
      var i :| 0 <= i < |c| && c[i] == a;
      assert Up(people, b, i + 1) == Some(a);
    }
  }

  lemma AboveTransitive(people: People, a: PersonId, b: PersonId, c: PersonId)
    requires Above(people, a, b) && Above(people, b, c)
    ensures Above(people, a, c)
  {
    var j: nat :| j >= 1 && Up(people, c, j) == Some(b);
    var k: nat :| k >= 1 && Up(people, b, k) == Some(a);
    UpJoin(people, c, j, k);
    assert j + k >= 1 && Up(people, c, j + k) == Some(a);
  }

  lemma NotAboveSelf(people: People, a: PersonId)
    requires Acyclic(people) && a in people
    ensures !Above(people, a, a)
  {
  }

  lemma AboveIsOneWay(people: People, a: PersonId, b: PersonId)
    requires Acyclic(people) && a in people && Above(people, a, b)
    ensures !Above(people, b, a)
  {
    NotAboveSelf(people, a);
    if Above(people, b, a) {
      AboveTransitive(people, a, b, a);
    }
  }

  function Direction(people: People, initiator: PersonId, target: PersonId): Direction {
    if initiator in Chain(people, target) then Downward
    else if target in Chain(people, initiator) then Upward
    else Lateral
  }

  /** Directions mirror each other, downward is above, and downward composes. */
  lemma DirectionsMirror(people: People, a: PersonId, b: PersonId)
    requires KnownManagers(people) && Acyclic(people) && a in people && b in people
    ensures Direction(people, a, b) == Downward <==> Direction(people, b, a) == Upward
    ensures Direction(people, a, b) == Lateral <==> Direction(people, b, a) == Lateral
    ensures Direction(people, a, b) == Downward <==> Above(people, a, b)
    ensures Direction(people, a, a) == Lateral
  {
    hide Acyclic, Chain;
    AboveIsInChain(people, a, b);
    AboveIsInChain(people, b, a);
    AboveIsInChain(people, a, a);
    if Above(people, a, b) {
      AboveIsOneWay(people, a, b);
    }
    if Above(people, b, a) {
      AboveIsOneWay(people, b, a);
    }
    if Above(people, a, a) {
      AboveIsOneWay(people, a, a);
    }
  }

  lemma DownwardTransitive(people: People, a: PersonId, b: PersonId, c: PersonId)
    requires KnownManagers(people) && Acyclic(people) && a in people && b in people && c in people
    requires Direction(people, a, b) == Downward && Direction(people, b, c) == Downward
    ensures Direction(people, a, c) == Downward
  {
    DirectionsMirror(people, a, b);
    DirectionsMirror(people, b, c);
    AboveTransitive(people, a, b, c);
    DirectionsMirror(people, a, c);
  }

  // ---- The path to one manager ----

  /** The walk up to the target, or nothing when the target is not above. */
  function PathTo(chain: seq<PersonId>, target: PersonId): seq<PersonId> {
    if chain == [] then []
    else if chain[0] == target then [target]
    else
      var rest := PathTo(chain[1..], target);
      if rest == [] then [] else [chain[0]] + rest
  }

  lemma {:induction false} PathIsPrefix(chain: seq<PersonId>, target: PersonId)
    ensures PathTo(chain, target) == [] <==> target !in chain
    ensures PathTo(chain, target) <= chain
    ensures PathTo(chain, target) != [] ==> chain[|PathTo(chain, target)| - 1] == target
  {
    if chain != [] {
      PathIsPrefix(chain[1..], target);
      assert chain == [chain[0]] + chain[1..];
    }
  }

  /** The k-th manager is the target at exactly the position the path ends. */
  lemma OneDistance(people: People, id: PersonId, target: PersonId, n: nat, k: nat)
    requires KnownManagers(people) && Acyclic(people) && id in people && k >= 1
    requires n <= |Chain(people, id)|
    requires if n == 0 then target !in Chain(people, id) else Chain(people, id)[n - 1] == target
    ensures Up(people, id, k) == Some(target) <==> k == n
  {
    hide KnownManagers, Acyclic, Up, Chain;
    var c := Chain(people, id);
    ChainIsUp(people, id);
    if k > |c| {
      UpStaysNone(people, id, 1 + |c|, k);
    } else {
      assert Up(people, id, 1 + (k - 1)) == Some(c[k - 1]);
      if 1 <= n && k < n {
        ChainIsDistinct(people, id, k - 1, n - 1);
      } else if 1 <= n && n < k {
        ChainIsDistinct(people, id, n - 1, k - 1);
      }
    }
  }

  /** The length of the path is the reporting distance: the one k with the target as k-th manager, 0 when there is
      none. */
  lemma PathIsDistance(people: People, id: PersonId, target: PersonId)
    requires KnownManagers(people) && Acyclic(people) && id in people
    ensures var n := |PathTo(Chain(people, id), target)|;
            && (n == 0 <==> !Above(people, target, id))
            && (forall k: nat :: k >= 1 ==> (Up(people, id, k) == Some(target) <==> k == n))
  {
    hide KnownManagers, Acyclic, Up, Chain, PathTo;
    var n := |PathTo(Chain(people, id), target)|;
    PathIsPrefix(Chain(people, id), target);
    AboveIsInChain(people, target, id);
    forall k: nat | k >= 1 ensures Up(people, id, k) == Some(target) <==> k == n {
      OneDistance(people, id, target, n, k);
    }
  }

  // ---- References and targets ----

  predicate Refers(p: Person, ref: Reference) { p.id == ref || p.name == ref || ref in p.aliases }

  /** Who a reference can mean, each person once. */
  function Candidates(d: Document, ref: Reference): set<PersonId> {
    set i | 0 <= i < |d.people| && Refers(d.people[i], ref) :: d.people[i].id
  }

  function Resolve(d: Document, ref: Reference): Result<Person, DirectoryError> {
    var ids := Candidates(d, ref);
    if ids == {} then Err(UnknownPerson)
    else if exists a, b :: a in ids && b in ids && a != b then Err(AmbiguousPerson)
    else
      var id :| id in ids;
      Ok(PeopleById(d.people)[id])
  }

  function Classify(d: Document, initiator: Reference, target: Reference): Result<Direction, DirectoryError> {
    match Resolve(d, initiator)
    case Err(e) => Err(e)
    case Ok(i) =>
      match Resolve(d, target)
      case Err(e) => Err(e)
      case Ok(t) => Ok(Direction(PeopleById(d.people), i.id, t.id))
  }

  function PolicyOf(policies: seq<Policy>, id: PersonId): Option<Policy> {
    if policies == [] then None
    else if policies[|policies| - 1].person == id then Some(policies[|policies| - 1])
    else PolicyOf(policies[..|policies| - 1], id)
  }

  /** Whether an initiator may contact a target; both are resolved again by their identifiers for the direction. */
  function ValidateTarget(d: Document, initiator: Reference, target: Reference, requested: Direction)
    : Result<Person, DirectoryError>
  {
    match Resolve(d, initiator)
    case Err(e) => Err(e)
    case Ok(i) =>
      match Resolve(d, target)
      case Err(e) => Err(e)
      case Ok(t) =>
        match Classify(d, i.id, t.id)
        case Err(e) => Err(e)
        case Ok(actual) =>
          var policy := PolicyOf(d.policies, i.id);
          if actual != requested then Err(DirectionMismatch)
          else if policy.None? || actual !in policy.value.directions then Err(DirectionNotAllowed)
          else if t.department !in policy.value.departments then Err(DepartmentNotAllowed)
          else if actual == Upward
              && |PathTo(Chain(PeopleById(d.people), i.id), t.id)| > policy.value.maxUpwardLevels then Err(TooFarUpward)
          else Ok(t)
  }

  lemma {:induction false} PathToFirst(path: seq<PersonId>, target: PersonId, rest: seq<PersonId>)
    requires target !in path
    ensures PathTo(path + [target] + rest, target) == path + [target]
  {
    var all := path + [target] + rest;
    if path != [] {
      PathToFirst(path[1..], target, rest);
      assert all[1..] == path[1..] + [target] + rest;
      assert path == [path[0]] + path[1..];
    }
  }

  /** What an accepted contact means, in terms of reporting distances. */
  ghost predicate MayContact(d: Document, i: Person, t: Person, requested: Direction) {
    var people, policy := PeopleById(d.people), PolicyOf(d.policies, i.id);
    && (match requested
        case Downward => Above(people, i.id, t.id)
        case Upward => Above(people, t.id, i.id)
        case Lateral => !Above(people, i.id, t.id) && !Above(people, t.id, i.id)
        case External => false)
    && policy.Some? && requested in policy.value.directions && t.department in policy.value.departments
    && (requested == Upward ==>
        exists k: nat :: 1 <= k <= policy.value.maxUpwardLevels && Up(people, i.id, k) == Some(t.id))
  }

  /** A target is accepted exactly when both references resolve, both identifiers resolve again, and the initiator may
      contact the target; the accepted person is the target. */
  lemma TargetsAreJudgedExactly(d: Document, initiator: Reference, target: Reference, requested: Direction)
    requires WellFormed(d)
    ensures var i, t := Resolve(d, initiator), Resolve(d, target);
            ValidateTarget(d, initiator, target, requested).Ok? <==>
              && i.Ok? && t.Ok? && Resolve(d, i.value.id) == i && Resolve(d, t.value.id) == t
              && MayContact(d, i.value, t.value, requested)
    ensures ValidateTarget(d, initiator, target, requested).Ok? ==>
              ValidateTarget(d, initiator, target, requested) == Resolve(d, target)
  {
    hide UniquePeople, UniquePolicies, KnownManagers, Acyclic, Candidates, Resolve, PathTo, PeopleById, PolicyOf,
         Direction, Up, Above, Climb, MayContact;
    if Resolve(d, initiator).Ok? && Resolve(d, target).Ok? {
      ResolvedIsKnown(d, initiator);
      ResolvedIsKnown(d, target);
      ResolvesToItself(d, initiator);
      ResolvesToItself(d, target);
      ContactRule(d, Resolve(d, initiator).value, Resolve(d, target).value, requested);
    }
  }

  lemma ContactRule(d: Document, i: Person, t: Person, requested: Direction)
    requires WellFormed(d) && i.id in PeopleById(d.people) && t.id in PeopleById(d.people)
    ensures var people, policy := PeopleById(d.people), PolicyOf(d.policies, i.id);
            MayContact(d, i, t, requested) <==>
              && Direction(people, i.id, t.id) == requested
              && policy.Some? && requested in policy.value.directions && t.department in policy.value.departments
              && !(requested == Upward && |PathTo(Chain(people, i.id), t.id)| > policy.value.maxUpwardLevels)
  {
    hide UniquePeople, UniquePolicies, KnownManagers, Acyclic, PathTo, PeopleById, PolicyOf, Direction, Up, Above,
         Climb;
    var people := PeopleById(d.people);
    DirectionsMirror(people, i.id, t.id);
    DirectionsMirror(people, t.id, i.id);
    NeverExternal(people, i.id, t.id);
    PathIsDistance(people, i.id, t.id);
    if Direction(people, i.id, t.id) == Upward {
      var n := |PathTo(Chain(people, i.id), t.id)|;
      assert n >= 1 && Up(people, i.id, n) == Some(t.id);
    }
  }

  lemma NeverExternal(people: People, a: PersonId, b: PersonId)
    ensures Direction(people, a, b) != External
  {
  }

  lemma ResolvedIsKnown(d: Document, ref: Reference)
    ensures Resolve(d, ref).Ok? ==>
              Resolve(d, ref).value.id in PeopleById(d.people) && Resolve(d, ref).value.id in Candidates(d, ref)
  {
    if Resolve(d, ref).Ok? {
      var ids := Candidates(d, ref);
      assert forall id :: id in ids ==> id in PeopleById(d.people);
    }
  }

  /** Whoever a reference resolves to is a candidate of their own identifier, so resolving the identifier gives the same
      person or is ambiguous. */
  lemma ResolvesToItself(d: Document, ref: Reference)
    ensures Resolve(d, ref).Ok? ==>
              var p := Resolve(d, ref).value;
              Resolve(d, p.id) == Ok(p) || Resolve(d, p.id) == Err(AmbiguousPerson)
  {
    if Resolve(d, ref).Ok? {
      ResolvedIsKnown(d, ref);
      var p := Resolve(d, ref).value;
      var i :| 0 <= i < |d.people| && d.people[i].id == p.id;
      assert Refers(d.people[i], p.id);
      assert p.id in Candidates(d, p.id);
    }
  }

  /** A resolved person is resolved again by their identifier exactly when nobody else answers to it: a display name or
      an alias equal to another person's identifier makes the second resolution ambiguous. */
  lemma ReresolvesExactly(d: Document, ref: Reference)
    requires Resolve(d, ref).Ok?
    ensures var p := Resolve(d, ref).value;
            Resolve(d, p.id) == Ok(p) <==> forall i :: 0 <= i < |d.people| && Refers(d.people[i], p.id) ==>
              d.people[i].id == p.id
  {
    ResolvedIsKnown(d, ref);
    ResolvesToItself(d, ref);
    var p := Resolve(d, ref).value;
    var ids := Candidates(d, p.id);
    var i :| 0 <= i < |d.people| && d.people[i].id == p.id;
    assert Refers(d.people[i], p.id) && p.id in ids;
    if forall i :: 0 <= i < |d.people| && Refers(d.people[i], p.id) ==> d.people[i].id == p.id {
      assert ids == {p.id};
    }
    if Resolve(d, p.id) == Ok(p) {
      forall i | 0 <= i < |d.people| && Refers(d.people[i], p.id) ensures d.people[i].id == p.id {
        assert d.people[i].id in ids;
      }
    }
  }

  lemma NobodyManages(people: People)
    requires forall id :: id in people ==> people[id].Manager().None?
    ensures KnownManagers(people) && Acyclic(people)
  {
    forall id, k: nat | id in people && k >= 1 ensures Up(people, id, k) != Some(id) {
      UpStaysNone(people, id, 1, k);
    }
  }

  lemma AliasIsAmbiguous(d: Document)
    requires |d.people| == 2 && d.people[0].id != d.people[1].id && d.people[0].id in d.people[1].aliases
    requires !Refers(d.people[1], d.people[0].name) && !Refers(d.people[0], d.people[1].name)
    ensures Resolve(d, d.people[0].name).Ok? && Resolve(d, d.people[0].id) == Err(AmbiguousPerson)
    ensures ValidateTarget(d, d.people[0].name, d.people[1].name, Lateral) == Err(AmbiguousPerson)
  {
    hide Direction, Chain, PathTo, MayContact, PeopleById;
    var bob, eve := d.people[0], d.people[1];
    assert Refers(bob, bob.id) && Refers(eve, bob.id) && Refers(bob, bob.name) && Refers(eve, eve.name);
    assert Candidates(d, bob.name) == {bob.id} && Candidates(d, eve.name) == {eve.id};
    assert bob.id in Candidates(d, bob.id) && eve.id in Candidates(d, bob.id);
    ResolvedIsKnown(d, bob.name);
  }

  /** Such a document exists and is well-formed. */
  lemma ReresolutionCanFail()
    ensures var d :=
            Document([Person("bob", "Robert", [], None, "ops"), Person("eve", "Eve", ["bob"], None, "ops")], []);
            && WellFormed(d)
            && Resolve(d, "Robert").Ok? && Resolve(d, "bob") == Err(AmbiguousPerson)
            && ValidateTarget(d, "Robert", "Eve", Lateral) == Err(AmbiguousPerson)
  {
    hide Acyclic, KnownManagers, ValidateTarget, Resolve, Candidates;
    var d := Document([Person("bob", "Robert", [], None, "ops"), Person("eve", "Eve", ["bob"], None, "ops")], []);
    assert d.people[0].id[0] != d.people[1].id[0];
    assert |"Robert"| == 6 && |"bob"| == |"eve"| == |"Eve"| == 3 && "Eve"[0] != "bob"[0];
    NobodyManages(PeopleById(d.people));
    AliasIsAmbiguous(d);
  }
}
