/** The directory's loops: validation of a document and the two walks up the reporting hierarchy. */
module OrganizationDirectory {
  import opened Basics
  import opened Domain
  import opened DirectoryModel

  /** Exactly the well-formed documents pass, and each refusal names something true of the document. */
  ghost predicate Judged(d: Document, r: Result<(), DirectoryError>) {
    match r
    case Ok(_) => WellFormed(d)
    case Err(DuplicatePerson) => !UniquePeople(d)
    case Err(DuplicatePolicy) => UniquePeople(d) && !UniquePolicies(d)
    case Err(UnknownManager) => UniquePeople(d) && UniquePolicies(d) && !KnownManagers(PeopleById(d.people))
    case Err(ReportingCycle) => UniquePeople(d) && UniquePolicies(d) && !Acyclic(PeopleById(d.people))
    case Err(_) => false
  }

  lemma JudgedIsExact(d: Document, r: Result<(), DirectoryError>)
    requires Judged(d, r)
    ensures r.Ok? <==> WellFormed(d)
  {
  }

  class Directory {
    const document: Document
    const people: People

    constructor (document: Document)
      ensures this.document == document && people == PeopleById(document.people)
    {
      this.document, people := document, PeopleById(document.people);
    }

    static method ValidateDocument(d: Document) returns (r: Result<(), DirectoryError>)
      ensures Judged(d, r)
    {
      hide Acyclic, KnownManagers;
      var unique, byId := IndexPeople(d);
      if !unique { return Err(DuplicatePerson); }
      var policies := CheckPolicies(d);
      if !policies { return Err(DuplicatePolicy); }
      for i := 0 to |d.people|
        invariant forall j :: 0 <= j < i ==> Checked(byId, d.people[j])
      {
        var error := WalkUp(byId, d.people[i]);
        if error.Some? { return Err(error.value); }
      }
      AllChecked(d);
      r := Ok(());
    }

    static method IndexPeople(d: Document) returns (unique: bool, byId: People)
      ensures unique <==> UniquePeople(d)
      ensures unique ==> byId == PeopleById(d.people)
      ensures unique ==> forall i :: 0 <= i < |d.people| ==>
                d.people[i].id in byId && byId[d.people[i].id] == d.people[i]
    {
      hide PeopleById;
      byId := map[];
      NobodyById();
      for i := 0 to |d.people|
        invariant byId == PeopleById(d.people[..i])
        invariant forall j, k :: 0 <= j < k < i ==> d.people[j].id != d.people[k].id
      {
        PeopleSnoc(d.people, i);
        StoredEarlier(d.people, i, d.people[i].id);
        if d.people[i].id in byId { return false, byId; }
        byId := byId[d.people[i].id := d.people[i]];
      }
      assert d.people[..|d.people|] == d.people;
      UniqueAreStored(d.people, |d.people|);
      unique := true;
    }

    static method CheckPolicies(d: Document) returns (unique: bool)
      ensures unique <==> UniquePolicies(d)
    {
      var seen: set<PersonId> := {};
      for i := 0 to |d.policies|
        invariant forall p :: p in seen <==> exists j :: 0 <= j < i && d.policies[j].person == p
        invariant forall j, k :: 0 <= j < k < i ==> d.policies[j].person != d.policies[k].person
      {
        if d.policies[i].person in seen { return false; }
        seen := seen + {d.policies[i].person};
      }
      unique := true;
    }

    /** One person's walk to the top: an unknown manager or a repetition ends it with an error that holds of the
        hierarchy. */
    static method WalkUp(byId: People, person: Person) returns (error: Option<DirectoryError>)
      requires person.id in byId && byId[person.id] == person
      requires forall id :: id in byId ==> byId[id].id == id
      ensures match error
              case None => Checked(byId, person)
              case Some(UnknownManager) => !KnownManagers(byId)
              case Some(ReportingCycle) => !Acyclic(byId)
              case Some(_) => false
    {
      hide Acyclic, Checked;
      var current, visited: set<PersonId> := person, {};
      ghost var k: nat := 0;
      while current.Manager().Some?
        invariant current.id in byId && byId[current.id] == current
        invariant Up(byId, person.id, k) == Some(current.id) && HasVisited(byId, person.id, k, visited)
        invariant visited <= byId.Keys && (k > 0 ==> KnownManager(byId, person)) && (k == 0 ==> current == person)
        decreases byId.Keys - visited
      {
        var manager := current.Manager().value;
        assert Up(byId, person.id, k + 1) == Some(manager);
        if manager in visited {
          RepeatedManager(byId, person.id, k, visited, manager);
          return Some(ReportingCycle);
        }
        if manager !in byId { return Some(UnknownManager); }
        VisitedGrows(byId, person.id, k, visited);
        visited := visited + {manager};
        current, k := byId[manager], k + 1;
      }
      EndIsChecked(byId, person, k);
      error := None;
    }

    /** Every manager above a person; well-formedness makes both guards dead, but the walk ends without it. */
    method ManagerChainIds(person: Person) returns (visited: set<PersonId>)
      requires person.id in people && people[person.id] == person
      requires forall id :: id in people ==> people[id].id == id
      ensures visited == set m | m in Chain(people, person.id)
    {
      var current := person;
      visited := {};
      ghost var path: seq<PersonId> := [];
      while current.Manager().Some?
        invariant current.id in people && people[current.id] == current
        invariant Chain(people, person.id) == path + Climb(people, current.id, visited)
        invariant forall m :: m in visited <==> m in path
        decreases people.Keys - visited
      {
        var manager := current.Manager().value;
        if manager in visited { break; }
        visited := visited + {manager};
        ghost var rest := Climb(people, current.id, visited - {manager});
        path := path + [manager];
        assert visited - {manager} + {manager} == visited;
        if manager !in people { break; }
        current := people[manager];
      }
    }

    /** The path up to a target, found on the way; nothing if the walk ends without meeting it. */
    method ManagerChainTo(person: Person, target: PersonId) returns (path: seq<PersonId>)
      requires person.id in people && people[person.id] == person
      requires forall id :: id in people ==> people[id].id == id
      ensures path == PathTo(Chain(people, person.id), target)
    {
      var current, visited: set<PersonId> := person, {};
      path := [];
      while current.Manager().Some?
        invariant current.id in people && people[current.id] == current
        invariant Chain(people, person.id) == path + Climb(people, current.id, visited)
        invariant target !in path
        decreases people.Keys - visited
      {
        var manager := current.Manager().value;
        if manager in visited { break; }
        ghost var rest := if manager in people then Climb(people, manager, visited + {manager}) else [];
        assert Climb(people, current.id, visited) == [manager] + rest;
        visited := visited + {manager};
        ghost var before := path;
        path := path + [manager];
        assert Chain(people, person.id) == path + rest;
        if manager == target {
          PathToFirst(before, target, rest);
          return path;
        }
        if manager !in people { break; }
        current := people[manager];
      }
      PathIsPrefix(Chain(people, person.id), target);
      path := [];
    }

    method ClassifyDirection(initiator: Reference, target: Reference) returns (r: Result<Direction, DirectoryError>)
      requires people == PeopleById(document.people)
      ensures r == Classify(document, initiator, target)
    {
      hide Resolve, Chain;
      var i := Resolve(document, initiator);
      if i.Err? { return Err(i.error); }
      var t := Resolve(document, target);
      if t.Err? { return Err(t.error); }
      ResolvedIsStored(document, initiator);
      ResolvedIsStored(document, target);
      var aboveTarget := ManagerChainIds(t.value);
      if i.value.id in aboveTarget { return Ok(Downward); }
      var aboveInitiator := ManagerChainIds(i.value);
      r := Ok(if t.value.id in aboveInitiator then Upward else Lateral);
    }

    method CheckTarget(initiator: Reference, target: Reference, requested: Direction)
      returns (r: Result<Person, DirectoryError>)
      requires people == PeopleById(document.people)
      ensures r == ValidateTarget(document, initiator, target, requested)
    {
      hide Resolve, Chain, Classify;
      var i := Resolve(document, initiator);
      if i.Err? { return Err(i.error); }
      var t := Resolve(document, target);
      if t.Err? { return Err(t.error); }
      ResolvedIsStored(document, initiator);
      var policy := PolicyOf(document.policies, i.value.id);
      var actual := ClassifyDirection(i.value.id, t.value.id);
      if actual.Err? { return Err(actual.error); }
      if actual.value != requested { return Err(DirectionMismatch); }
      if policy.None? || actual.value !in policy.value.directions { return Err(DirectionNotAllowed); }
      if t.value.department !in policy.value.departments { return Err(DepartmentNotAllowed); }
      if actual.value == Upward {
        var path := ManagerChainTo(i.value, t.value.id);
        if |path| > policy.value.maxUpwardLevels { return Err(TooFarUpward); }
      }
      r := Ok(t.value);
    }
  }

  lemma PeopleSnoc(people: seq<Person>, i: nat)
    requires i < |people|
    ensures PeopleById(people[..i + 1]) == PeopleById(people[..i])[people[i].id := people[i]]
  {
    assert people[..i + 1][..i] == people[..i];
  }

  lemma StoredEarlier(people: seq<Person>, i: nat, id: PersonId)
    requires i <= |people|
    ensures id in PeopleById(people[..i]) <==> exists j :: 0 <= j < i && people[j].id == id
  {
    hide PeopleById;
    if id in PeopleById(people[..i]) {
      var j :| 0 <= j < i && people[..i][j].id == id;
      assert people[j].id == id;
    }
    if exists j :: 0 <= j < i && people[j].id == id {
      var j :| 0 <= j < i && people[j].id == id;
      assert people[..i][j].id == id;
    }
  }

  lemma {:induction false} UniqueAreStored(people: seq<Person>, n: nat)
    requires n <= |people| && forall j, k :: 0 <= j < k < n ==> people[j].id != people[k].id
    ensures forall i :: 0 <= i < n ==>
              people[i].id in PeopleById(people[..n]) && PeopleById(people[..n])[people[i].id] == people[i]
  {
    hide PeopleById;
    if n > 0 {
      UniqueAreStored(people, n - 1);
      PeopleSnoc(people, n - 1);
    }
  }

  lemma NobodyById()
    ensures PeopleById([]) == map[]
  {
  }

  lemma ResolvedIsStored(d: Document, ref: Reference)
    ensures Resolve(d, ref).Ok? ==>
              var p := Resolve(d, ref).value; p.id in PeopleById(d.people) && PeopleById(d.people)[p.id] == p
  {
    ResolvedIsKnown(d, ref);
  }

  predicate KnownManager(byId: People, person: Person) { person.Manager().Some? ==> person.Manager().value in byId }

  ghost predicate Checked(byId: People, person: Person) {
    KnownManager(byId, person) && exists n: nat :: Grounded(byId, person.id, n)
  }

  lemma EndIsChecked(byId: People, person: Person, k: nat)
    requires person.id in byId && byId[person.id] == person && Up(byId, person.id, k).Some?
    requires ManagerOf(byId, Up(byId, person.id, k).value).None? && (k > 0 ==> KnownManager(byId, person))
    ensures Checked(byId, person)
  {
    assert Grounded(byId, person.id, k);
  }

  lemma RepeatedManager(byId: People, id: PersonId, k: nat, visited: set<PersonId>, manager: PersonId)
    requires HasVisited(byId, id, k, visited) && visited <= byId.Keys && manager in visited
             && Up(byId, id, k + 1) == Some(manager)
    ensures !Acyclic(byId)
  {
    var i :| 1 <= i <= k && Up(byId, id, i) == Some(manager);
    RepeatIsCycle(byId, id, i, k + 1);
  }

  lemma AllChecked(d: Document)
    requires UniquePeople(d) && forall j :: 0 <= j < |d.people| ==> Checked(PeopleById(d.people), d.people[j])
    ensures KnownManagers(PeopleById(d.people)) && Acyclic(PeopleById(d.people))
  {
    var byId := PeopleById(d.people);
    forall id | id in byId ensures KnownManager(byId, byId[id]) && exists n: nat :: Grounded(byId, id, n) {
      var j :| 0 <= j < |d.people| && d.people[j] == byId[id];
      assert Checked(byId, d.people[j]);
    }
    GroundedIsAcyclic(byId);
  }
}
