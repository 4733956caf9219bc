/** One non-interview engagement: its assignment, its event log, and every step computed from a stored snapshot. */
module OutreachModel {
  import opened Basics
  import opened Domain

  type RouteId = string
  type MessageId = string

  /** The lifecycle of an assignment. */
  datatype Contact = Contact(
    engagement: EngagementType,
    responseRequired: bool,
    state: StakeholderState,
    routes: seq<RouteId>,
    routeIndex: nat,
    attempts: nat,
    nextActionAt: Option<Time>,
    lastDeliveryAt: Option<Time>,
    acknowledgedAt: Option<Time>,
    completedAt: Option<Time>)

  predicate IsTerminal(s: StakeholderState) {
    s == StakeholderState.Complete || s == Declined || s == Unreachable || s == StakeholderState.DeliveryFailed
  }

  predicate IsInterview(e: EngagementType) { e == QuickResponse || e == StructuredInterview }

  // ---- The state machine ----

  datatype Proof = DeliveryProof | AcknowledgementProof | ResponsesProof | DecisionProof | AvailabilityProof

  datatype TransitionError = InvalidTransition

  function Targets(s: StakeholderState): set<StakeholderState> {
    match s
    case NotContacted => {ContactQueued, StakeholderState.DeliveryFailed}
    case ContactQueued => {StakeholderState.Delivered, StakeholderState.DeliveryFailed}
    case Delivered => {AwaitingAcknowledgement, AlternateChannel, StakeholderState.Complete,
                       StakeholderState.DeliveryFailed}
    case AwaitingAcknowledgement =>
      {Acknowledged, StakeholderState.Complete, FollowUpDue, Declined, AlternateChannel,
       StakeholderState.DeliveryFailed}
    case Acknowledged => {Interviewing, StakeholderState.Complete, Declined}
    case Interviewing => {StakeholderState.Complete, Declined}
    case FollowUpDue => {AwaitingAcknowledgement, AlternateChannel, Unreachable, StakeholderState.DeliveryFailed}
    case AlternateChannel => {StakeholderState.Delivered, AwaitingAcknowledgement, Unreachable,
                              StakeholderState.DeliveryFailed}
    case _ => {}
  }

  /** What completing an engagement takes: whether it answers, from which state, with which proof. */
  function CompletionContract(e: EngagementType): (bool, StakeholderState, Proof) {
    match e
    case Inform => (false, StakeholderState.Delivered, DeliveryProof)
    case Acknowledge => (true, Acknowledged, AcknowledgementProof)
    case QuickResponse => (true, Interviewing, ResponsesProof)
    case StructuredInterview => (true, Interviewing, ResponsesProof)
    case ReviewApproval => (true, AwaitingAcknowledgement, DecisionProof)
    case Availability => (true, AwaitingAcknowledgement, AvailabilityProof)
  }

  function Transition(a: Contact, target: StakeholderState, proof: Option<Proof>, now: Time)
    : Result<Contact, TransitionError>
  {
    if target !in Targets(a.state) then Err(InvalidTransition)
    else if target == StakeholderState.Complete && (a.responseRequired, a.state, proof)
              != (CompletionContract(a.engagement).0, CompletionContract(a.engagement).1,
                  Some(CompletionContract(a.engagement).2))
    then Err(InvalidTransition)
    else
      Ok(a.(state := target,
            nextActionAt := if IsTerminal(target) then None else a.nextActionAt,
            completedAt := if IsTerminal(target) then Some(now) else None))
  }

  // ---- The event log ----

  /** A delivery identifier digests the attempt, the route position and the route. */
  type DeliveryId = Digest<(nat, nat, RouteId)>

  datatype Event =
    | PrimarySent(delivery: DeliveryId, attempt: nat, index: nat, route: RouteId)
    | ReminderSent(delivery: DeliveryId, attempt: nat, index: nat, route: RouteId)
    | AlternateSent(delivery: DeliveryId, attempt: nat, index: nat, route: RouteId, failed: Option<DeliveryId>)
    | DeliveryConfirmed(confirmed: DeliveryId)
    | DeliveryRefused(refused: DeliveryId)
    | RoutesExhausted(exhausted: DeliveryId)
    | GaveUp(undeliverable: bool, at: nat)
    | Answered(message: MessageId)
  {
    predicate IsSend() { PrimarySent? || ReminderSent? || AlternateSent? }
  }

  /** The idempotency key of an event, unique in the log. */
  datatype EventKey =
    | PrimaryKey | ReminderKey | DueAlternateKey
    | AlternateKey(after: DeliveryId)
    | ResultKey(of: DeliveryId)
    | ExhaustedKey(last: DeliveryId)
    | GaveUpKey(undeliverable: bool, at: nat)
    | AnswerKey(message: MessageId)

  function KeyOf(e: Event): EventKey {
    match e
    case PrimarySent(_, _, _, _) => PrimaryKey
    case ReminderSent(_, _, _, _) => ReminderKey
    case AlternateSent(_, _, _, _, None) => DueAlternateKey
    case AlternateSent(_, _, _, _, Some(d)) => AlternateKey(d)
    case DeliveryConfirmed(d) => ResultKey(d)
    case DeliveryRefused(d) => ResultKey(d)
    case RoutesExhausted(d) => ExhaustedKey(d)
    case GaveUp(u, at) => GaveUpKey(u, at)
    case Answered(m) => AnswerKey(m)
  }

  predicate HasKey(log: seq<Event>, key: EventKey) { exists i :: 0 <= i < |log| && KeyOf(log[i]) == key }

  function DeliveryOf(a: Contact): DeliveryId
    requires a.routeIndex < |a.routes|
  {
    DigestOf((a.attempts, a.routeIndex, a.routes[a.routeIndex]))
  }

  // ---- Steps: what each call prepares from the snapshot it has read ----

  /** Which route positions resolve to a registered route now. */
  type Resolver = nat -> bool

  predicate CanSend(a: Contact, resolves: Resolver, i: nat) { i < |a.routes| && resolves(i) }

  datatype Windows = Windows(acknowledgement: int, reminder: int)

  /** A snapshot, the assignment to store in its place and the events to append with it. */
  datatype Draft = Draft(expected: Contact, updated: Contact, events: seq<Event>, escalates: bool)

  type Prepared = Result<Option<Draft>, TransitionError>

  /** The initial contact. */
  function PrepareStart(a: Contact, resolves: Resolver, w: Windows, now: Time): Prepared {
    if a.responseRequired != (a.engagement != Inform) || IsInterview(a.engagement) || !CanSend(a, resolves, 0)
       || !(a.state == NotContacted || a.state == ContactQueued)
    then Ok(None)
    else
      var queued := if a.state == NotContacted then Transition(a, ContactQueued, None, now) else Ok(a);
      match queued
      case Err(e) => Err(e)
      case Ok(q) =>
        match Transition(q, StakeholderState.Delivered, None, now)
        case Err(e) => Err(e)
        case Ok(d) =>
          match if a.responseRequired then Transition(d, AwaitingAcknowledgement, None, now) else Ok(d)
          case Err(e) => Err(e)
          case Ok(p) =>
            var started := p.(attempts := 1, routeIndex := 0, lastDeliveryAt := Some(now),
                              nextActionAt := if a.responseRequired then Some(now + w.acknowledgement) else None);
            Ok(Some(Draft(a, started, [PrimarySent(DeliveryOf(started), 1, 0, a.routes[0])], false)))
  }

  function GiveUpDraft(a: Contact, undeliverable: bool, now: Time): Prepared {
    match Transition(a, if undeliverable then StakeholderState.DeliveryFailed else Unreachable, None, now)
    case Err(e) => Err(e)
    case Ok(updated) => Ok(Some(Draft(a, updated, [GaveUp(undeliverable, a.attempts)], true)))
  }

  /** The time-driven step: reminder, then one alternate route, then giving up. */
  function DueDraft(a: Contact, resolves: Resolver, w: Windows, now: Time): Prepared {
    if IsTerminal(a.state) || a.engagement == Inform || IsInterview(a.engagement)
        || (a.nextActionAt.Some? && a.nextActionAt.value > now)
    then Ok(None)
    else if a.routes == [] then GiveUpDraft(a, true, now)
    else if a.attempts == 1 then
      if !CanSend(a, resolves, a.routeIndex) then Ok(None)
      else
        match Transition(a, FollowUpDue, None, now)
        case Err(e) => Err(e)
        case Ok(f) =>
          var reminder := f.(attempts := 2, lastDeliveryAt := Some(now), nextActionAt := Some(now + w.reminder));
          Ok(Some(Draft(a, reminder, [ReminderSent(DeliveryOf(reminder), 2, a.routeIndex, a.routes[a.routeIndex])],
                        true)))
    else if a.attempts == 2 then
      if a.routeIndex + 1 >= |a.routes| then GiveUpDraft(a, false, now)
      else if !CanSend(a, resolves, a.routeIndex + 1) then Ok(None)
      else
        match Transition(a, AlternateChannel, None, now)
        case Err(e) => Err(e)
        case Ok(f) =>
          var alternate := f.(attempts := 3, routeIndex := a.routeIndex + 1, lastDeliveryAt := Some(now),
                              nextActionAt := Some(now + w.acknowledgement));
          Ok(Some(Draft(a, alternate,
                        [AlternateSent(DeliveryOf(alternate), 3, a.routeIndex + 1, a.routes[a.routeIndex + 1], None)],
                          true)))
    else GiveUpDraft(a, false, now)
  }

  /** The newest event about the delivery decides: its own send for the current attempt, not yet resolved. */
  predicate MatchesCurrentAttempt(a: Contact, log: seq<Event>, d: DeliveryId) {
    log != []
    && var last := log[|log| - 1];
       KeyOf(last) != ResultKey(d)
       && ((&& last.IsSend() && last.delivery == d && last.attempt == a.attempts && last.index == a.routeIndex
            && a.routeIndex < |a.routes| && last.route == a.routes[a.routeIndex])
           || MatchesCurrentAttempt(a, log[..|log| - 1], d))
  }

  /** The states in which a delivery report can arrive. */
  predicate AwaitsReport(a: Contact) {
    if a.engagement == Inform then a.state == StakeholderState.Delivered || a.state == AlternateChannel
    else a.state == AwaitingAcknowledgement || a.state == FollowUpDue || a.state == AlternateChannel
  }

  predicate Reportable(a: Contact, log: seq<Event>, d: DeliveryId, resolves: Resolver) {
    && !IsInterview(a.engagement) && !IsTerminal(a.state) && AwaitsReport(a)
    && CanSend(a, resolves, a.routeIndex) && MatchesCurrentAttempt(a, log, d)
  }

  function SuccessDraft(a: Contact, log: seq<Event>, d: DeliveryId, resolves: Resolver, now: Time): Prepared {
    if !Reportable(a, log, d, resolves) then Ok(None)
    else if a.engagement != Inform then Ok(Some(Draft(a, a, [DeliveryConfirmed(d)], false)))
    else
      match if a.state == AlternateChannel then Transition(a, StakeholderState.Delivered, None, now) else Ok(a)
      case Err(e) => Err(e)
      case Ok(delivered) =>
        match Transition(delivered, StakeholderState.Complete, Some(DeliveryProof), now)
        case Err(e) => Err(e)
        case Ok(done) => Ok(Some(Draft(a, done, [DeliveryConfirmed(d)], false)))
  }

  /** On to the next registered route; an alternate contact first steps back to the state alternates are tried from. */
  function AdvanceDraft(a: Contact, d: DeliveryId, w: Windows, now: Time): Prepared
    requires a.routeIndex + 1 < |a.routes|
  {
    var source :=
      if a.state == AlternateChannel
      then Transition(a, if a.engagement == Inform then StakeholderState.Delivered else AwaitingAcknowledgement, None,
                      now)
      else Ok(a);
    match source
    case Err(e) => Err(e)
    case Ok(s) =>
      match Transition(s, AlternateChannel, None, now)
      case Err(e) => Err(e)
      case Ok(f) =>
        var attempts := if a.attempts + 1 >= 3 then a.attempts + 1 else 3;
        var alternate := f.(routeIndex := a.routeIndex + 1, attempts := attempts, lastDeliveryAt := Some(now),
                            nextActionAt := if a.engagement == Inform then None else Some(now + w.acknowledgement));
        Ok(Some(Draft(a, alternate,
                      [DeliveryRefused(d),
                       AlternateSent(DeliveryOf(alternate), attempts, a.routeIndex + 1, a.routes[a.routeIndex + 1],
                                     Some(d))], true)))
  }

  function ExhaustDraft(a: Contact, d: DeliveryId, now: Time): Prepared {
    match Transition(a, StakeholderState.DeliveryFailed, None, now)
    case Err(e) => Err(e)
    case Ok(failed) => Ok(Some(Draft(a, failed, [DeliveryRefused(d), RoutesExhausted(d)], true)))
  }

  /** A failed delivery moves on to the next registered route, or ends the assignment. */
  function FailureDraft(a: Contact, log: seq<Event>, d: DeliveryId, resolves: Resolver, w: Windows,
                        now: Time): Prepared
  {
    if !Reportable(a, log, d, resolves) then Ok(None)
    else if a.routeIndex + 1 >= |a.routes| then ExhaustDraft(a, d, now)
    else if !CanSend(a, resolves, a.routeIndex + 1) then Ok(None)
    else AdvanceDraft(a, d, w, now)
  }

  /** An authenticated answer over the active route completes the engagement. */
  function AnswerDraft(a: Contact, log: seq<Event>, message: MessageId, authentic: bool, now: Time): Prepared {
    if IsTerminal(a.state) || IsInterview(a.engagement) || a.engagement == Inform || !authentic
        || HasKey(log, AnswerKey(message))
    then Ok(None)
    else if a.engagement != Acknowledge && !a.responseRequired then Ok(None)
    else
      var pending :=
        if a.state == StakeholderState.Delivered || a.state == FollowUpDue || a.state == AlternateChannel
        then Transition(a, AwaitingAcknowledgement, None, now)
        else Ok(a);
      match pending
      case Err(e) => Err(e)
      case Ok(p) =>
        if p.state != AwaitingAcknowledgement then Ok(None)
        else
          match if a.engagement == Acknowledge then Transition(p, Acknowledged, None, now) else Ok(p)
          case Err(e) => Err(e)
          case Ok(q) =>
            var answered := if a.engagement == Acknowledge then q.(acknowledgedAt := Some(now)) else q;
            match Transition(answered, StakeholderState.Complete, Some(CompletionContract(a.engagement).2), now)
            case Err(e) => Err(e)
            case Ok(done) => Ok(Some(Draft(a, done, [Answered(message)], false)))
  }

  // ---- The transaction ----

  datatype Stored = Stored(contact: Contact, log: seq<Event>)

  predicate FreshKeys(log: seq<Event>, events: seq<Event>) {
    forall i :: 0 <= i < |events| ==> !HasKey(log, KeyOf(events[i])) && !HasKey(events[..i], KeyOf(events[i]))
  }

  /** Compare-and-save of the whole snapshot, then every event exactly once; goes stands for a live mandate and a
      current delivery claim. Anything else rolls everything back. */
  function Commit(s: Stored, d: Draft, goes: bool): Stored {
    if goes && s.contact == d.expected && FreshKeys(s.log, d.events) then Stored(d.updated, s.log + d.events) else s
  }
}
