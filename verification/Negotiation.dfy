/** One negotiation round: recording responses against a stored proposal, under races and replays. */
module Negotiation {
  import opened Basics

  type PersonId = string
  type MessageId = string

  datatype ResponseKind = Accept | Reject | Change

  datatype ProposalState = AwaitingResponses | Aligned | Unresolved

  datatype Proposal = Proposal(id: nat, round: nat, required: seq<PersonId>, state: ProposalState, expiresAt: Time)

  datatype Response = Response(
    stakeholder: PersonId, kind: ResponseKind, changeText: Option<string>, source: MessageId,
      key: Digest<(nat, MessageId)>, at: Time)

  datatype Outcome = AlignedOutcome | NextRound | MeetingRequired

  datatype NegotiationError =
    | UnknownProposal | SourceRequired | NotAwaiting | Expired | NotARespondent | ChangeTextRequired

  /** The stored proposal and its responses in receipt order. */
  datatype Store = Store(proposal: Proposal, responses: seq<Response>)

  datatype Request = Request(stakeholder: PersonId, kind: ResponseKind, changeText: Option<string>, source: MessageId,
                             now: Time)

  /** White space, as stripping a text removes it. */
  predicate IsSpace(c: char) {
    var n := c as int;
    || 9 <= n <= 13 || 28 <= n <= 32 || n == 0x85 || n == 0xA0 || n == 0x1680 || 0x2000 <= n <= 0x200A
    || n == 0x2028 || n == 0x2029 || n == 0x202F || n == 0x205F || n == 0x3000
  }

  function Strip(text: string): string
    decreases |text|
  {
    if text == "" then ""
    else if IsSpace(text[0]) then Strip(text[1..])
    else if IsSpace(text[|text| - 1]) then Strip(text[..|text| - 1])
    else text
  }

  predicate Blank(text: string) { Strip(text) == "" }

  function KeyOf(proposal: nat, source: MessageId): Digest<(nat, MessageId)> { DigestOf((proposal, source)) }

  function FindKey(responses: seq<Response>, key: Digest<(nat, MessageId)>): Option<Response> {
    if responses == [] then None
    else if responses[0].key == key then Some(responses[0])
    else FindKey(responses[1..], key)
  }

  // ---- The outcome of a round ----

  /** The latest answer of every respondent: later receipts overwrite earlier ones. */
  function LatestResponses(responses: seq<Response>): map<PersonId, Response> {
    if responses == [] then map[]
    else
      var last := responses[|responses| - 1];
      LatestResponses(responses[..|responses| - 1])[last.stakeholder := last]
  }

  function RequiredSet(p: Proposal): set<PersonId> { set s | s in p.required }

  predicate AllAnswered(p: Proposal, responses: seq<Response>) {
    RequiredSet(p) <= (set i | 0 <= i < |responses| :: responses[i].stakeholder)
  }

  function RoundOutcome(p: Proposal, responses: seq<Response>): Outcome {
    var latest := LatestResponses(responses);
    if latest.Keys == RequiredSet(p) && forall s :: s in latest ==> latest[s].kind == Accept then AlignedOutcome
    else if p.round == 1 then NextRound
    else MeetingRequired
  }

  function EvaluateRound(s: Store): Outcome {
    if s.proposal.state == Aligned then AlignedOutcome else RoundOutcome(s.proposal, s.responses)
  }

  // ---- Recording a response: a check on what was read, then one transaction ----

  datatype Checked = Replayed(response: Response) | Fresh(response: Response)

  function CleanedChange(q: Request): Option<string> {
    if q.kind != Change || q.changeText.None? || Blank(q.changeText.value) then
        None else Some(Strip(q.changeText.value))
  }

  function Check(s: Store, q: Request): Result<Checked, NegotiationError> {
    if Blank(q.source) then Err(SourceRequired)
    else
      var key := KeyOf(s.proposal.id, q.source);
      var existing := FindKey(s.responses, key);
      if existing.Some? then Ok(Replayed(existing.value))
      else if s.proposal.state != AwaitingResponses then Err(NotAwaiting)
      else if q.now >= s.proposal.expiresAt then Err(Expired)
      else if q.stakeholder !in s.proposal.required then Err(NotARespondent)
      else if q.kind == Change && CleanedChange(q).None? then Err(ChangeTextRequired)
      else Ok(Fresh(Response(q.stakeholder, q.kind, CleanedChange(q), q.source, key, q.now)))
  }

  /** The transaction of a fresh response; the store may have moved since the check. */
  function Commit(s: Store, r: Response): (Store, Result<Response, NegotiationError>) {
    var duplicate := FindKey(s.responses, r.key);
    if duplicate.Some? then (s, Ok(duplicate.value))
    else if s.proposal.state != AwaitingResponses then (s, Err(NotAwaiting))
    else if r.at >= s.proposal.expiresAt then (s, Err(Expired))
    else
      var all := s.responses + [r];
      var state :=
        if !AllAnswered(s.proposal, all) then AwaitingResponses
        else if RoundOutcome(s.proposal, all) == AlignedOutcome then Aligned
        else Unresolved;
      (Store(s.proposal.(state := state), all), Ok(r))
  }

  /** Both steps without a race in between. */
  function RecordResponse(s: Store, q: Request): (Store, Result<Response, NegotiationError>) {
    match Check(s, q)
    case Err(e) => (s, Err(e))
    case Ok(Replayed(r)) => (s, Ok(r))
    case Ok(Fresh(r)) => Commit(s, r)
  }

  // ---- The invariant ----

  /** The stored state is what the stored answers say. */
  predicate StateTells(s: Store) {
    match s.proposal.state
    case AwaitingResponses => !AllAnswered(s.proposal, s.responses)
    case Aligned => AllAnswered(s.proposal, s.responses) && RoundOutcome(s.proposal, s.responses) == AlignedOutcome
    case Unresolved => AllAnswered(s.proposal, s.responses) && RoundOutcome(s.proposal, s.responses) != AlignedOutcome
  }

  predicate ResponsesOk(s: Store) {
    && (forall i :: 0 <= i < |s.responses| ==> s.responses[i].stakeholder in s.proposal.required)
    && (forall i, j :: 0 <= i < j < |s.responses| ==> s.responses[i].key != s.responses[j].key)
    && (forall i :: 0 <= i < |s.responses| ==> s.responses[i].kind == Change ==> s.responses[i].changeText.Some?)
  }

  /** With a required respondent the state tells the answers; with none the round can only wait. */
  predicate StoreInv(s: Store) {
    ResponsesOk(s) && if s.proposal.required == [] then s.proposal.state == AwaitingResponses else StateTells(s)
  }

  lemma {:induction false} FindKeyFinds(responses: seq<Response>, key: Digest<(nat, MessageId)>)
    ensures FindKey(responses, key).None? ==> forall i :: 0 <= i < |responses| ==> responses[i].key != key
    ensures FindKey(responses, key).Some? ==>
              FindKey(responses, key).value in responses && FindKey(responses, key).value.key == key
  {
    if responses != [] && responses[0].key != key {
      FindKeyFinds(responses[1..], key);
      forall i | 0 < i < |responses| ensures responses[i] == responses[1..][i - 1] {
      }
    }
  }

  /** A response that its check accepted against some earlier state of this proposal. */
  predicate WellFormed(p: Proposal, r: Response) {
    && r.stakeholder in p.required && r.key == KeyOf(p.id, r.source)
    && (r.kind == Change ==> r.changeText.Some?) && (r.kind != Change ==> r.changeText.None?)
  }

  lemma CheckIsWellFormed(s: Store, q: Request)
    ensures Check(s, q).Ok? && Check(s, q).value.Fresh? ==> WellFormed(s.proposal, Check(s, q).value.response)
  {
  }

  /** Every commit keeps the invariant, whatever happened since the check. */
  lemma CommitKeeps(s: Store, r: Response)
    requires StoreInv(s) && WellFormed(s.proposal, r)
    ensures StoreInv(Commit(s, r).0)
  {
    hide AllAnswered, RoundOutcome;
    FindKeyFinds(s.responses, r.key);
    StateIsIrrelevant(s.proposal, s.responses + [r]);
  }

  lemma StateIsIrrelevant(p: Proposal, responses: seq<Response>)
    ensures forall state :: AllAnswered(p.(state := state), responses) == AllAnswered(p, responses)
    ensures forall state :: RoundOutcome(p.(state := state), responses) == RoundOutcome(p, responses)
  {
    assert forall state :: RequiredSet(p.(state := state)) == RequiredSet(p);
  }

  // ---- Races: any number of calls between their check and their transaction ----

  datatype World = World(store: Store, inFlight: seq<Response>)

  datatype Move = Begin(request: Request) | Finish(index: nat)

  function Step(w: World, move: Move): World {
    match move
    case Begin(q) =>
      var checked := Check(w.store, q);
      if checked.Ok? && checked.value.Fresh? then w.(inFlight := w.inFlight + [checked.value.response]) else w
    case Finish(i) =>
      if i < |w.inFlight| then World(Commit(w.store, w.inFlight[i]).0, w.inFlight[..i] + w.inFlight[i + 1..]) else w
  }

  function Run(w: World, moves: seq<Move>): World
    decreases |moves|
  {
    if moves == [] then w else Run(Step(w, moves[0]), moves[1..])
  }

  predicate WorldInv(w: World) {
    StoreInv(w.store) && forall i :: 0 <= i < |w.inFlight| ==> WellFormed(w.store.proposal, w.inFlight[i])
  }

  /** Everything but the state of a proposal is fixed, answers are only added, and a closed round is frozen. */
  predicate Follows(s: Store, t: Store) {
    && t.proposal.(state := s.proposal.state) == s.proposal
    && s.responses <= t.responses
    && (s.proposal.state != AwaitingResponses ==> t == s)
  }

  lemma StepKeeps(w: World, move: Move)
    requires WorldInv(w)
    ensures WorldInv(Step(w, move)) && Follows(w.store, Step(w, move).store)
  {
    hide StoreInv, Check, AllAnswered, RoundOutcome;
    match move
    case Begin(q) => CheckIsWellFormed(w.store, q);
    case Finish(i) =>
      if i < |w.inFlight| {
        CommitKeeps(w.store, w.inFlight[i]);
      }
  }

  /** Over every interleaving of checks and transactions the stored state tells the stored answers, closed rounds never
      change, and answers are never lost. */
  lemma {:induction false} RunKeeps(w: World, moves: seq<Move>)
    requires WorldInv(w)
    ensures WorldInv(Run(w, moves)) && Follows(w.store, Run(w, moves).store)
    decreases |moves|
  {
    hide WorldInv, Step;
    if moves != [] {
      StepKeeps(w, moves[0]);
      RunKeeps(Step(w, moves[0]), moves[1..]);
    }
  }

  // ---- What the states mean ----

  /** The i-th answer is the last one received from the person. */
  predicate LastFrom(responses: seq<Response>, i: int, person: PersonId) {
    && 0 <= i < |responses| && responses[i].stakeholder == person
    && forall j :: i < j < |responses| ==> responses[j].stakeholder != person
  }

  /** The answer a person stands by: the last one received from them. */
  predicate StandsBy(responses: seq<Response>, person: PersonId, kind: ResponseKind) {
    exists i :: 0 <= i < |responses| && LastFrom(responses, i, person) && responses[i].kind == kind
  }

  predicate HasAnswered(responses: seq<Response>, person: PersonId) {
    exists i :: 0 <= i < |responses| && responses[i].stakeholder == person
  }

  lemma {:induction false} LatestIsLast(responses: seq<Response>, person: PersonId) returns (i: int)
    ensures person in LatestResponses(responses) <==> HasAnswered(responses, person)
    ensures person in LatestResponses(responses) ==>
              LastFrom(responses, i, person) && responses[i] == LatestResponses(responses)[person]
  {
    i := -1;
    if responses != [] {
      var n := |responses| - 1;
      if responses[n].stakeholder == person {
        i := n;
        assert HasAnswered(responses, person);
      } else {
        i := LatestIsLast(responses[..n], person);
        if HasAnswered(responses, person) {
          var k :| 0 <= k < |responses| && responses[k].stakeholder == person;
          assert responses[..n][k].stakeholder == person;
        }
        if HasAnswered(responses[..n], person) {
          assert responses[i].stakeholder == person;
        }
      }
    }
  }

  lemma OutcomeOfLatest(p: Proposal, responses: seq<Response>)
    requires forall i :: 0 <= i < |responses| ==> responses[i].stakeholder in p.required
    ensures AllAnswered(p, responses) <==> forall person :: person in p.required ==> HasAnswered(responses, person)
    ensures RoundOutcome(p, responses) == AlignedOutcome <==>
              forall person :: person in p.required ==> StandsBy(responses, person, Accept)
  {
    hide LatestResponses;
    var latest := LatestResponses(responses);
    forall person ensures person in latest ==>
      person in RequiredSet(p) && (latest[person].kind == Accept <==> StandsBy(responses, person, Accept))
                  ensures StandsBy(responses, person, Accept) ==> person in latest
    {
      var i := LatestIsLast(responses, person);
    }
    if forall person :: person in p.required ==> StandsBy(responses, person, Accept) {
      assert latest.Keys == RequiredSet(p);
    }
    if RoundOutcome(p, responses) == AlignedOutcome {
      forall person | person in p.required ensures StandsBy(responses, person, Accept) {
        assert person in RequiredSet(p);
      }
    }
    if forall person :: person in p.required ==> HasAnswered(responses, person) {
      var answered := set i | 0 <= i < |responses| :: responses[i].stakeholder;
      forall person | person in RequiredSet(p) ensures person in answered {
        assert HasAnswered(responses, person);
      }
    }
    if AllAnswered(p, responses) {
      forall person | person in p.required ensures HasAnswered(responses, person) {
        assert person in RequiredSet(p);
      }
    }
  }

  /** Waiting exactly while someone has not answered, aligned exactly when every latest answer is an acceptance,
      unresolved otherwise; and evaluating the round agrees with the stored state in both rounds. */
  lemma StatesMeanAnswers(w: World, moves: seq<Move>)
    requires WorldInv(w) && w.store.proposal.required != []
    ensures var s := Run(w, moves).store;
            && (s.proposal.state == AwaitingResponses <==>
                exists person :: person in s.proposal.required && !HasAnswered(s.responses, person))
            && (s.proposal.state == Aligned <==> forall person :: person in s.proposal.required ==>
                StandsBy(s.responses, person, Accept))
            && EvaluateRound(s) == (if s.proposal.state == Aligned then AlignedOutcome
                                    else if s.proposal.round == 1 then NextRound else MeetingRequired)
  {
    hide HasAnswered, StandsBy, AllAnswered, Run, Follows;
    RunKeeps(w, moves);
    var s := Run(w, moves).store;
    Unchanged(w.store, s);
    OutcomeOfLatest(s.proposal, s.responses);
    StandersAnswered(s.responses);
  }

  lemma StandersAnswered(responses: seq<Response>)
    ensures forall person, kind :: StandsBy(responses, person, kind) ==> HasAnswered(responses, person)
  {
  }

  /** Once a message has been recorded, recording it again returns the same response and changes nothing, in every later
      state and whatever else the replay carries. */
  lemma ReplayIsInert(w: World, r: Response, moves: seq<Move>, q: Request)
    requires WorldInv(w) && WellFormed(w.store.proposal, r) && Commit(w.store, r).1.Ok?
    requires q.source == r.source && !Blank(q.source)
    ensures var t := Run(World(Commit(w.store, r).0, w.inFlight), moves).store;
            RecordResponse(t, q) == (t, Ok(Commit(w.store, r).1.value))
  {
    hide AllAnswered, RoundOutcome, Run;
    CommitKeeps(w.store, r);
    FindKeyFinds(w.store.responses, r.key);
    var after := World(Commit(w.store, r).0, w.inFlight);
    RunKeeps(after, moves);
    var t := Run(after, moves).store;
    var recorded := Commit(w.store, r).1.value;
    assert recorded in after.store.responses && recorded.key == r.key;
    FindKeyFinds(t.responses, r.key);
    KeyIsUnique(after.store, t, recorded);
  }

  lemma KeyIsUnique(s: Store, t: Store, r: Response)
    requires ResponsesOk(t) && s.responses <= t.responses && r in s.responses
    ensures FindKey(t.responses, r.key) == Some(r)
  {
    FindKeyFinds(t.responses, r.key);
    var i :| 0 <= i < |s.responses| && s.responses[i] == r;
    assert t.responses[i] == r;
  }

  /** Without a required respondent nobody can answer, so the round waits for ever although no answer is missing and
      evaluating it says aligned: the state agrees with the outcome exactly when someone is required. */
  lemma StateAgreesWithOutcomeExactly(w: World, moves: seq<Move>)
    requires WorldInv(w)
    ensures var s := Run(w, moves).store;
            (s.proposal.state == Aligned <==> EvaluateRound(s) == AlignedOutcome) <==> w.store.proposal.required != []
  {
    hide Run, Follows, StandsBy, HasAnswered;
    RunKeeps(w, moves);
    var s := Run(w, moves).store;
    Unchanged(w.store, s);
    AnswersNeedRespondents(s);
    if w.store.proposal.required != [] {
      StatesMeanAnswers(w, moves);
    }
  }

  /** Such a proposal, freshly opened. */
  lemma NobodyRequiredWaits(id: nat, expiresAt: Time)
    ensures var s := Store(Proposal(id, 1, [], AwaitingResponses, expiresAt), []);
            WorldInv(World(s, [])) && EvaluateRound(s) == AlignedOutcome && s.proposal.state != Aligned
  {
  }

  lemma AnswersNeedRespondents(s: Store)
    requires ResponsesOk(s)
    ensures s.responses != [] ==> s.proposal.required != []
  {
    if s.responses != [] {
      assert s.responses[0].stakeholder in s.proposal.required;
    }
  }

  lemma Unchanged(s: Store, t: Store)
    requires Follows(s, t)
    ensures t.proposal.required == s.proposal.required && t.proposal.round == s.proposal.round
  {
  }

  // ---- The coordinator ----

  class NegotiationCoordinator {
    var proposal: Proposal
    var responses: seq<Response>

    function State(): Store
      reads this
    {
      Store(proposal, responses)
    }

    ghost predicate Valid()
      reads this
    {
      StoreInv(State())
    }

    constructor (id: nat, round: nat, required: seq<PersonId>, expiresAt: Time)
      requires round == 1 || round == 2
      ensures Valid() && State() == Store(Proposal(id, round, required, AwaitingResponses, expiresAt), [])
    {
      proposal, responses := Proposal(id, round, required, AwaitingResponses, expiresAt), [];
      new;
      assert required != [] ==> required[0] in RequiredSet(proposal);
    }

    /** The transaction: it re-reads the state and the responses before it writes. */
    method CommitResponse(r: Response) returns (reply: Result<Response, NegotiationError>)
      requires Valid() && WellFormed(proposal, r)
      modifies this
      ensures Valid() && (State(), reply) == Commit(old(State()), r)
    {
      hide AllAnswered, RoundOutcome, FindKey, StoreInv;
      CommitKeeps(State(), r);
      var duplicate := FindKey(responses, r.key);
      if duplicate.Some? { return Ok(duplicate.value); }
      if proposal.state != AwaitingResponses { return Err(NotAwaiting); }
      if r.at >= proposal.expiresAt { return Err(Expired); }
      responses := responses + [r];
      if AllAnswered(proposal, responses) {
        var outcome := RoundOutcome(proposal, responses);
        proposal := proposal.(state := if outcome == AlignedOutcome then Aligned else Unresolved);
      }
      reply := Ok(r);
    }

    method Respond(q: Request) returns (reply: Result<Response, NegotiationError>)
      requires Valid()
      modifies this
      ensures Valid() && (State(), reply) == RecordResponse(old(State()), q)
    {
      hide Commit, Check, StoreInv;
      CheckIsWellFormed(State(), q);
      var checked := Check(State(), q);
      if checked.Err? { return Err(checked.error); }
      if checked.value.Replayed? { return Ok(checked.value.response); }
      reply := CommitResponse(checked.value.response);
    }
  }
}
