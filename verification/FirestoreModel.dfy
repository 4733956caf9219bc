/** The document store: every transaction body as one function from the documents it reads to those it writes. */
module FirestoreModel {
  import opened Basics
  import opened Studio
  import opened CloudModel
  import opened RunStore

  // ---- Document names ----

  const TIMELINE_ID_WIDTH: nat := 8
  const TIMELINE_ID_LIMIT: nat := 1_0000_0000

  function Pow10(w: nat): nat { if w == 0 then 1 else 10 * Pow10(w - 1) }

  /** The w low decimal digits of n, padded with zeros. */
  function Digits(n: nat, w: nat): (s: string)
    ensures |s| == w
  {
    if w == 0 then "" else Digits(n / 10, w - 1) + [('0' as int + n % 10) as char]
  }

  function NumberOf(s: string): nat {
    if s == "" then 0
    else
      var last := s[|s| - 1];
      10 * NumberOf(s[..|s| - 1]) + (if '0' <= last <= '9' then last as int - '0' as int else 0)
  }

  /** The document name of a timeline ordinal; None where the code raises. */
  function TimelineDocumentId(ordinal: int): Option<string> {
    if 1 <= ordinal < TIMELINE_ID_LIMIT then Some(Digits(ordinal, TIMELINE_ID_WIDTH)) else None
  }

  lemma {:induction false} DigitsRoundTrip(n: nat, w: nat)
    requires n < Pow10(w)
    ensures NumberOf(Digits(n, w)) == n
  {
    if w > 0 {
      DigitsRoundTrip(n / 10, w - 1);
      var s := Digits(n, w);
      assert s[..|s| - 1] == Digits(n / 10, w - 1);
    }
  }

  /** Different ordinals get different documents. */
  lemma DocumentIdIsInjective(i: int, j: int)
    requires TimelineDocumentId(i).Some? && TimelineDocumentId(i) == TimelineDocumentId(j)
    ensures i == j
  {
    assert Pow10(8) == TIMELINE_ID_LIMIT;
    DigitsRoundTrip(i, TIMELINE_ID_WIDTH);
    DigitsRoundTrip(j, TIMELINE_ID_WIDTH);
  }

  // ---- Documents ----

  datatype TimelineDocument = TimelineDocument(record: TimelineRecord, recordHash: Digest<RawRecord>, writtenAt: Time)

  datatype ActiveDocument = ActiveDocument(runAlias: Alias, state: RunState, ownerVersion: nat, updatedAt: Time)

  type TimelineCollection = map<string, TimelineDocument>

  /** The run documents (metadata with server timestamps), their timeline collections and the control document. */
  datatype Database = Database(
    runs: map<Alias, Metadata>,
    timelines: map<Alias, TimelineCollection>,
    active: Option<ActiveDocument>)
  {
    function Timeline(a: Alias): TimelineCollection { if a in timelines then timelines[a] else map[] }

    function Activate(a: Alias, m: Metadata, server: Time): Database {
      Database(runs[a := m], timelines, Some(ActiveDocument(a, RunState.Running, m.version, server)))
    }

    function WithDocument(a: Alias, id: string, d: TimelineDocument): Database {
      Database(runs, timelines[a := Timeline(a)[id := d]], active)
    }

    /** A missing active document, or one that names another run. */
    predicate ActiveLost(a: Alias) { active.None? || active.value.runAlias != a }
  }

  const EMPTY := Database(map[], map[], None)

  datatype Committed<+T> = Committed(database: Database, reply: Result<T, StoreError>)

  function Abort<T>(db: Database, e: StoreError): Committed<T> { Committed(db, Err(e)) }

  function CreateRun(db: Database, request: Request, a: Alias, key: string, now: Time, server: Time): Committed<()> {
    if db.active.Some? then Abort(db, ActiveRun)
    else if a in db.runs then Abort(db, RunAliasConflict)
    else
      var m := NewMetadata(request, a, key, now).(createdAt := server, updatedAt := server);
      Committed(Database(db.runs[a := m], db.timelines, Some(ActiveDocument(a, RunState.Queued, m.version, server))),
                Ok(()))
  }

  function FailQueuedDispatch(db: Database, a: Alias, key: string, now: Time, server: Time): Committed<bool> {
    if a !in db.runs then Abort(db, UnknownRun)
    else
      var m := db.runs[a];
      if m.keyHash != DigestOf(key) then Abort(db, IdempotencyMismatch)
      else if m.state == RunState.Failed then Committed(db, Ok(false))
      else if m.state != RunState.Queued then Abort(db, DispatchStateConflict)
      else if db.ActiveLost(a) then Abort(db, ActiveOwnerLost)
      else
        var updated := AfterDispatchFailure(m, now).(updatedAt := server, completedAt := Some(server));
        Committed(Database(db.runs[a := updated], db.timelines, None), Ok(true))
  }

  function ClaimRun(db: Database, a: Alias, key: string, owner: Owner, now: Time, lease: int,
                    recovery: Option<TimelineRecord>, server: Time): Committed<ClaimResult>
  {
    if !(1 <= lease <= 900) then Abort(db, LeaseOutOfRange)
    else if a !in db.runs then Abort(db, UnknownRun)
    else
      var m := db.runs[a];
      if m.keyHash != DigestOf(key) then Abort(db, IdempotencyMismatch)
      else if m.Terminal() then Committed(db, Ok(ClaimResult(Terminal, None, m.version)))
      else if db.ActiveLost(a) then Abort(db, ActiveOwnerLost)
      else if m.state == RunState.Queued then
        var updated := AfterClaim(m, owner, now, lease).(startedAt := Some(server), updatedAt := server);
        Committed(db.Activate(a, updated, server), Ok(ClaimResult(Claimed, Some(now + lease), updated.version)))
      else if m.leaseExpiresAt.Some? && m.leaseExpiresAt.value > now then
        Committed(db,
                  Ok(ClaimResult(if m.claimOwner == Some(owner) then Duplicate else Conflict, m.leaseExpiresAt,
                                 m.version)))
      else
        match recovery
        case None => Abort(db, ExpiredClaim)
        case Some(r) => RecoverRun(db, a, m, owner, now, lease, r, server)
  }

  /** The last part of a claim: the recovery document must not exist yet. */
  function RecoverRun(db: Database, a: Alias, m: Metadata, owner: Owner, now: Time, lease: int, r: TimelineRecord,
                      server: Time)
    : Committed<ClaimResult>
  {
    match NextRecordRefusal(m, r)
    case Some(e) => Abort(db, e)
    case None =>
      if r.event.effect != Inert then Abort(db, RecoveryNotInert)
      else
        match TimelineDocumentId(r.ordinal)
        case None => Abort(db, InvalidDocument)
        case Some(id) =>
          if id in db.Timeline(a) then Abort(db, TimelineDivergence)
          else
            var updated := AfterRecovery(m, r, owner, now, lease).(updatedAt := server);
            Committed(db.WithDocument(a, id, TimelineDocument(r, RecordHash(r), server)).Activate(a, updated, server),
                      Ok(ClaimResult(Recovered, Some(now + lease), updated.version)))
  }

  function RenewClaim(db: Database, a: Alias, owner: Owner, now: Time, lease: int, server: Time): Committed<bool> {
    if !(1 <= lease <= 900) then Abort(db, LeaseOutOfRange)
    else if a !in db.runs then Abort(db, UnknownRun)
    else if db.ActiveLost(a) then Abort(db, ActiveOwnerLost)
    else
      var m := db.runs[a];
      if m.state != RunState.Running || m.claimOwner != Some(owner) || m.leaseExpiresAt.None?
          || m.leaseExpiresAt.value <= now
      then Committed(db, Ok(false))
      else Committed(db.Activate(a, AfterRenewal(m, now, lease).(updatedAt := server), server), Ok(true))
  }

  function AppendTimeline(db: Database, a: Alias, owner: Owner, r: TimelineRecord, now: Time,
                          server: Time): Committed<bool>
  {
    match TimelineDocumentId(r.ordinal)
    case None => Abort(db, InvalidDocument)
    case Some(id) =>
      if a !in db.runs then Abort(db, UnknownRun)
      else
        var m := db.runs[a];
        if id in db.Timeline(a) then
          if db.Timeline(a)[id].recordHash == RecordHash(r) then
              Committed(db, Ok(false)) else Abort(db, TimelineDivergence)
        else if db.ActiveLost(a) then Abort(db, ActiveOwnerLost)
        else
          match ClaimRefusal(m, owner, now)
          case Some(e) => Abort(db, e)
          case None =>
            match NextRecordRefusal(m, r)
            case Some(e) => Abort(db, e)
            case None =>
              var updated := AfterAppend(m, r, now).(updatedAt := server);
              Committed(db.WithDocument(a, id, TimelineDocument(r, RecordHash(r), server)).Activate(a, updated, server),
                        Ok(true))
  }

  function FinishRun(db: Database, a: Alias, owner: Owner, b: TerminalBinding, now: Time,
                     server: Time): Committed<bool>
  {
    if a !in db.runs then Abort(db, UnknownRun)
    else
      var m := db.runs[a];
      if m.Terminal() then
        if BindingFromMetadata(m) == b then Committed(db, Ok(false)) else Abort(db, TerminalDivergence)
      else
        match ClaimRefusal(m, owner, now)
        case Some(e) => Abort(db, e)
        case None =>
          if db.ActiveLost(a) then Abort(db, ActiveOwnerLost)
          else
            var updated := AfterFinish(m, b, now).(updatedAt := server, completedAt := Some(server));
            Committed(Database(db.runs[a := updated], db.timelines, None), Ok(true))
  }
}
