/** The document store refines the in-memory store, transaction by transaction and over whole runs. */
module FirestoreRefinement {
  import opened Basics
  import opened Studio
  import opened CloudModel
  import opened RunStore
  import Firestore = FirestoreModel

  // ---- The refinement relation ----

  /** Metadata up to the four timestamps the server overwrites; presence still counts, the lease expiry is the
      client's. */
  function Untimed(m: Metadata): Metadata {
    m.(createdAt := 0, updatedAt := 0,
       startedAt := if m.startedAt.Some? then Some(0) else None,
       completedAt := if m.completedAt.Some? then Some(0) else None)
  }

  /** Every stored record has exactly its document, and every document its record. */
  predicate TimelineMatches(docs: Firestore.TimelineCollection, tl: Timeline) {
    && (forall k :: k in tl ==>
          && Firestore.TimelineDocumentId(k).Some?
          && Firestore.TimelineDocumentId(k).value in docs
          && docs[Firestore.TimelineDocumentId(k).value].record == tl[k]
          && docs[Firestore.TimelineDocumentId(k).value].recordHash == RecordHash(tl[k]))
    && (forall id :: id in docs ==>
          docs[id].record.ordinal in tl && Firestore.TimelineDocumentId(docs[id].record.ordinal) == Some(id))
  }

  predicate RunMatches(m: Metadata, docs: Firestore.TimelineCollection, run: Run) {
    Untimed(m) == Untimed(run.meta) && TimelineMatches(docs, run.timeline)
  }

  /** The active document names the active run and carries its version and state. */
  predicate ActiveMatches(active: Option<Firestore.ActiveDocument>, s: Store) {
    match active
    case None => s.active.None?
    case Some(d) =>
      && s.active == Some(d.runAlias) && d.runAlias in s.runs
      && d.ownerVersion == s.runs[d.runAlias].meta.version && d.state == s.runs[d.runAlias].meta.state
  }

  predicate Refines(db: Firestore.Database, s: Store) {
    && db.runs.Keys == s.runs.Keys
    && (forall a :: a in db.timelines ==> a in db.runs)
    && (forall a :: a in s.runs ==> RunMatches(db.runs[a], db.Timeline(a), s.runs[a]))
    && ActiveMatches(db.active, s)
  }

  /** One transaction against one in-memory step: the same effect, and the same answer unless the transaction is
      refused, which it is only where the in-memory step has no effect either. */
  predicate Simulates<T(==)>(fs: Firestore.Committed<T>, s: Store, mem: Step<T>) {
    && Refines(fs.database, mem.store)
    && (fs.reply == mem.reply || (fs.reply.Err? && mem.store == s))
  }

  // ---- One run and its documents change together ----

  lemma UntouchedTimeline(db: Firestore.Database, a: Alias, id: string, d: Firestore.TimelineDocument)
    ensures var t := db.WithDocument(a, id, d);
            && t.Timeline(a) == db.Timeline(a)[id := d]
            && forall b :: b != a ==> t.Timeline(b) == db.Timeline(b)
  {
  }

  lemma MatchesAfterRecord(docs: Firestore.TimelineCollection, tl: Timeline, r: TimelineRecord, at: Time)
    requires TimelineMatches(docs, tl) && r.ordinal !in tl && Firestore.TimelineDocumentId(r.ordinal).Some?
    ensures var id := Firestore.TimelineDocumentId(r.ordinal).value;
            && id !in docs
            && TimelineMatches(docs[id := Firestore.TimelineDocument(r, RecordHash(r), at)], tl[r.ordinal := r])
  {
    hide Firestore.TimelineDocumentId;
    forall k | k in tl && Firestore.TimelineDocumentId(k) == Firestore.TimelineDocumentId(r.ordinal) ensures false {
      Firestore.DocumentIdIsInjective(k, r.ordinal);
    }
  }

  /** Storing back a live run under its active document. */
  lemma PutRefines(db: Firestore.Database, s: Store, a: Alias, m: Metadata, docs: Firestore.TimelineCollection,
                   run: Run, server: Time)
    requires Refines(db, s) && a in s.runs && RunMatches(m, docs, run)
    requires m.state == RunState.Running && s.active == Some(a)
    requires docs == db.Timeline(a)
    ensures Refines(db.Activate(a, m, server), s.Put(a, run))
  {
    hide RunMatches;
    SameFields(m, run);
  }

  lemma SameFields(m: Metadata, run: Run)
    ensures Untimed(m) == Untimed(run.meta) ==>
              && m.version == run.meta.version && m.state == run.meta.state && m.keyHash == run.meta.keyHash
              && m.claimOwner == run.meta.claimOwner && m.leaseExpiresAt == run.meta.leaseExpiresAt
              && m.timelineCount == run.meta.timelineCount && m.savedOrdinal == run.meta.savedOrdinal
              && m.Terminal() == run.meta.Terminal() && BindingFromMetadata(m) == BindingFromMetadata(run.meta)
    ensures forall ds :: RunMatches(m, ds, run) ==> Untimed(m) == Untimed(run.meta)
  {
  }

  /** The run a live call works on: its document has the same fields, and the active document names it. */
  lemma LiveRun(db: Firestore.Database, s: Store, a: Alias)
    requires Refines(db, s) && StoreInv(s)
    ensures a in db.runs <==> a in s.runs
    ensures a in s.runs ==>
      && RunMatches(db.runs[a], db.Timeline(a), s.runs[a])
      && Consistent(s.runs[a].meta)
      && (!s.runs[a].meta.Terminal() ==> s.active == Some(a) && !db.ActiveLost(a))
      && (s.runs[a].meta.Terminal() ==> db.ActiveLost(a) && s.active != Some(a))
  {
    hide RunMatches, Consistent, GapFree;
    if a in s.runs {
      assert RunInv(a, s.runs[a]);
    }
  }

  // ---- Transactions ----

  lemma CreateSimulates(db: Firestore.Database, s: Store, request: Request, a: Alias, key: string, now: Time,
                        server: Time)
    requires Refines(db, s) && StoreInv(s)
    ensures Simulates(Firestore.CreateRun(db, request, a, key, now, server), s, Create(s, request, a, key, now))
  {
    hide StoreInv, RunMatches, NewMetadata;
    if Create(s, request, a, key, now).reply.Ok? {
      var m := NewMetadata(request, a, key, now);
      NewMatches(request, a, key, now, server);
      var t := Firestore.CreateRun(db, request, a, key, now, server).database;
      forall b | b in s.runs ensures RunMatches(t.runs[b], t.Timeline(b), s.runs[b]) {
        assert t.Timeline(b) == db.Timeline(b);
      }
    }
  }

  lemma NewMatches(request: Request, a: Alias, key: string, now: Time, server: Time)
    ensures var m := NewMetadata(request, a, key, now);
            RunMatches(m.(createdAt := server, updatedAt := server), map[], Run(m, map[]))
    ensures NewMetadata(request, a, key, now).state == RunState.Queued
  {
  }

  /** Storing back a run that ends, together with the removal of the active document. */
  lemma ReleaseRefines(db: Firestore.Database, s: Store, a: Alias, m: Metadata, run: Run)
    requires Refines(db, s) && a in s.runs && s.active == Some(a) && RunMatches(m, db.Timeline(a), run)
    ensures Refines(Firestore.Database(db.runs[a := m], db.timelines, None), s.Release(a, run))
  {
    hide RunMatches;
  }

  lemma FailSimulates(db: Firestore.Database, s: Store, a: Alias, key: string, now: Time, server: Time)
    requires Refines(db, s) && StoreInv(s)
    ensures Simulates(Firestore.FailQueuedDispatch(db, a, key, now, server), s, FailQueuedDispatch(s, a, key, now))
  {
    hide StoreInv, Refines, TimelineMatches;
    LiveRun(db, s, a);
    if a in s.runs {
      SameFields(db.runs[a], s.runs[a]);
      if FailQueuedDispatch(s, a, key, now).reply == Ok(true) {
        ReleaseRefines(db, s, a,
                       AfterDispatchFailure(db.runs[a], now).(updatedAt := server, completedAt := Some(server)),
                       s.runs[a].With(AfterDispatchFailure(s.runs[a].meta, now)));
      }
    }
  }

  lemma FinishSimulates(db: Firestore.Database, s: Store, a: Alias, owner: Owner, b: TerminalBinding, now: Time,
                        server: Time)
    requires Refines(db, s) && StoreInv(s)
    ensures Simulates(Firestore.FinishRun(db, a, owner, b, now, server), s, Finish(s, a, owner, b, now))
  {
    hide StoreInv, Refines, TimelineMatches, ValidBinding;
    LiveRun(db, s, a);
    if a in s.runs {
      SameFields(db.runs[a], s.runs[a]);
      if Finish(s, a, owner, b, now).reply == Ok(true) {
        ReleaseRefines(db, s, a, AfterFinish(db.runs[a], b, now).(updatedAt := server, completedAt := Some(server)),
                       s.runs[a].With(AfterFinish(s.runs[a].meta, b, now)));
      }
    }
  }

  lemma RenewSimulates(db: Firestore.Database, s: Store, a: Alias, owner: Owner, now: Time, lease: int, server: Time)
    requires Refines(db, s) && StoreInv(s)
    ensures Simulates(Firestore.RenewClaim(db, a, owner, now, lease, server), s, Renew(s, a, owner, now, lease))
  {
    hide StoreInv, Refines, TimelineMatches;
    LiveRun(db, s, a);
    if a in s.runs {
      SameFields(db.runs[a], s.runs[a]);
      if Renew(s, a, owner, now, lease).reply == Ok(true) {
        PutRefines(db, s, a, AfterRenewal(db.runs[a], now, lease).(updatedAt := server), db.Timeline(a),
                   s.runs[a].With(AfterRenewal(s.runs[a].meta, now, lease)), server);
      }
    }
  }

  /** Adding one record and its document, then storing the run back. */
  lemma RecordRefines(db: Firestore.Database, s: Store, a: Alias, m: Metadata, run: Metadata, r: TimelineRecord,
                      server: Time)
    requires Refines(db, s) && a in s.runs && s.active == Some(a)
    requires Untimed(m) == Untimed(run) && m.state == RunState.Running
    requires r.ordinal !in s.runs[a].timeline && Firestore.TimelineDocumentId(r.ordinal).Some?
    ensures var id := Firestore.TimelineDocumentId(r.ordinal).value;
            Refines(db.WithDocument(a, id, Firestore.TimelineDocument(r, RecordHash(r), server)).Activate(a, m, server),
                    s.Put(a, s.runs[a].WithRecord(run, r)))
  {
    hide TimelineMatches, Firestore.TimelineDocumentId, Untimed;
    var id := Firestore.TimelineDocumentId(r.ordinal).value;
    UntouchedTimeline(db, a, id, Firestore.TimelineDocument(r, RecordHash(r), server));
    MatchesAfterRecord(db.Timeline(a), s.runs[a].timeline, r, server);
    SameFields(m, s.runs[a].WithRecord(run, r));
  }

  /** A record and its document are found together. */
  lemma FoundTogether(db: Firestore.Database, s: Store, a: Alias, r: TimelineRecord)
    requires Refines(db, s) && a in s.runs && Firestore.TimelineDocumentId(r.ordinal).Some?
    ensures var id := Firestore.TimelineDocumentId(r.ordinal).value;
            && (id in db.Timeline(a) <==> r.ordinal in s.runs[a].timeline)
            && (id in db.Timeline(a) ==> db.Timeline(a)[id].recordHash == RecordHash(s.runs[a].timeline[r.ordinal]))
  {
    hide Firestore.TimelineDocumentId;
    var id := Firestore.TimelineDocumentId(r.ordinal).value;
    assert RunMatches(db.runs[a], db.Timeline(a), s.runs[a]);
    if id in db.Timeline(a) {
      Firestore.DocumentIdIsInjective(db.Timeline(a)[id].record.ordinal, r.ordinal);
    }
  }

  lemma AppendSimulates(db: Firestore.Database, s: Store, a: Alias, owner: Owner, r: TimelineRecord, now: Time,
                        server: Time)
    requires Refines(db, s) && StoreInv(s)
    ensures var fs := Firestore.AppendTimeline(db, a, owner, r, now, server);
            if Firestore.TimelineDocumentId(r.ordinal).Some? then Simulates(fs, s, Append(s, a, owner, r, now))
            else fs == Firestore.Abort(db, InvalidDocument)
  {
    hide StoreInv, Refines, TimelineMatches, Firestore.TimelineDocumentId, ValidRecord;
    LiveRun(db, s, a);
    if a in s.runs && Firestore.TimelineDocumentId(r.ordinal).Some? {
      SameFields(db.runs[a], s.runs[a]);
      FoundTogether(db, s, a, r);
      if Append(s, a, owner, r, now).reply == Ok(true) {
        RecordRefines(db, s, a, AfterAppend(db.runs[a], r, now).(updatedAt := server),
                      AfterAppend(s.runs[a].meta, r, now), r, server);
      }
    }
  }

  predicate FitsDocumentIds(recovery: Option<TimelineRecord>) {
    recovery.Some? ==> Firestore.TimelineDocumentId(recovery.value.ordinal).Some?
  }

  lemma ClaimSimulates(db: Firestore.Database, s: Store, a: Alias, key: string, owner: Owner, now: Time, lease: int,
                       recovery: Option<TimelineRecord>, server: Time)
    requires Refines(db, s) && StoreInv(s) && FitsDocumentIds(recovery)
    ensures Simulates(Firestore.ClaimRun(db, a, key, owner, now, lease, recovery, server), s,
                      Claim(s, a, key, owner, now, lease, recovery))
  {
    hide StoreInv, Refines, TimelineMatches, Firestore.TimelineDocumentId, ValidRecord, Evolves, GapFree, Records;
    LiveRun(db, s, a);
    if a in s.runs {
      var m, run := db.runs[a], s.runs[a];
      SameFields(m, run);
      var t := Claim(s, a, key, owner, now, lease, recovery);
      if t.reply.Ok? && t.reply.value.status == Claimed {
        PutRefines(db, s, a, AfterClaim(m, owner, now, lease).(startedAt := Some(server), updatedAt := server),
                   db.Timeline(a), run.With(AfterClaim(run.meta, owner, now, lease)), server);
      } else if t.reply.Ok? && t.reply.value.status == Recovered {
        ClaimKeepsInv(s, a, key, owner, now, lease, recovery);
        FoundTogether(db, s, a, recovery.value);
        RecordRefines(db, s, a, AfterRecovery(m, recovery.value, owner, now, lease).(updatedAt := server),
                      AfterRecovery(run.meta, recovery.value, owner, now, lease), recovery.value, server);
      }
    }
  }

  // ---- Whole runs ----

  datatype Call =
    | CreateTx(request: Request, alias: Alias, key: string, now: Time)
    | FailTx(alias: Alias, key: string, now: Time)
    | ClaimTx(alias: Alias, key: string, owner: Owner, now: Time, lease: int, recovery: Option<TimelineRecord>)
    | RenewTx(alias: Alias, owner: Owner, now: Time, lease: int)
    | AppendTx(alias: Alias, owner: Owner, record: TimelineRecord, now: Time)
    | FinishTx(alias: Alias, owner: Owner, binding: TerminalBinding, now: Time)

  function Transact(db: Firestore.Database, call: Call, server: Time): Firestore.Database {
    match call
    case CreateTx(request, a, key, now) => Firestore.CreateRun(db, request, a, key, now, server).database
    case FailTx(a, key, now) => Firestore.FailQueuedDispatch(db, a, key, now, server).database
    case ClaimTx(a, key, owner, now, lease, recovery) =>
      Firestore.ClaimRun(db, a, key, owner, now, lease, recovery, server).database
    case RenewTx(a, owner, now, lease) => Firestore.RenewClaim(db, a, owner, now, lease, server).database
    case AppendTx(a, owner, r, now) => Firestore.AppendTimeline(db, a, owner, r, now, server).database
    case FinishTx(a, owner, b, now) => Firestore.FinishRun(db, a, owner, b, now, server).database
  }

  /** The in-memory step of the same call. */
  function Perform(s: Store, call: Call): Store {
    match call
    case CreateTx(request, a, key, now) => Create(s, request, a, key, now).store
    case FailTx(a, key, now) => FailQueuedDispatch(s, a, key, now).store
    case ClaimTx(a, key, owner, now, lease, recovery) => Claim(s, a, key, owner, now, lease, recovery).store
    case RenewTx(a, owner, now, lease) => Renew(s, a, owner, now, lease).store
    case AppendTx(a, owner, r, now) => Append(s, a, owner, r, now).store
    case FinishTx(a, owner, b, now) => Finish(s, a, owner, b, now).store
  }

  /** The record of the call has a document name. */
  predicate Addressable(call: Call) {
    && (call.AppendTx? ==> Firestore.TimelineDocumentId(call.record.ordinal).Some?)
    && (call.ClaimTx? ==> FitsDocumentIds(call.recovery))
  }

  function TransactAll(db: Firestore.Database, calls: seq<(Call, Time)>): Firestore.Database
    decreases |calls|
  {
    if calls == [] then db else TransactAll(Transact(db, calls[0].0, calls[0].1), calls[1..])
  }

  function PerformAll(s: Store, calls: seq<(Call, Time)>): Store
    decreases |calls|
  {
    if calls == [] then s else PerformAll(Perform(s, calls[0].0), calls[1..])
  }

  lemma PerformKeepsInv(s: Store, call: Call)
    requires StoreInv(s)
    ensures StoreInv(Perform(s, call)) && Evolves(s, Perform(s, call))
  {
    hide StoreInv, Evolves, GapFree, Records;
    match call
    case CreateTx(request, a, key, now) => CreateKeepsInv(s, request, a, key, now);
    case FailTx(a, key, now) => FailQueuedDispatchKeepsInv(s, a, key, now);
    case ClaimTx(a, key, owner, now, lease, recovery) => ClaimKeepsInv(s, a, key, owner, now, lease, recovery);
    case RenewTx(a, owner, now, lease) => RenewKeepsInv(s, a, owner, now, lease);
    case AppendTx(a, owner, r, now) => AppendKeepsInv(s, a, owner, r, now);
    case FinishTx(a, owner, b, now) => FinishKeepsInv(s, a, owner, b, now);
  }

  lemma TransactRefines(db: Firestore.Database, s: Store, call: Call, server: Time)
    requires Refines(db, s) && StoreInv(s) && Addressable(call)
    ensures Refines(Transact(db, call, server), Perform(s, call))
  {
    hide StoreInv, Refines;
    match call
    case CreateTx(request, a, key, now) => CreateSimulates(db, s, request, a, key, now, server);
    case FailTx(a, key, now) => FailSimulates(db, s, a, key, now, server);
    case ClaimTx(a, key, owner, now, lease, recovery) =>
      ClaimSimulates(db, s, a, key, owner, now, lease, recovery, server);
    case RenewTx(a, owner, now, lease) => RenewSimulates(db, s, a, owner, now, lease, server);
    case AppendTx(a, owner, r, now) => AppendSimulates(db, s, a, owner, r, now, server);
    case FinishTx(a, owner, b, now) => FinishSimulates(db, s, a, owner, b, now, server);
  }

  /** Any run of transactions, whatever the server clock, refines the same run of in-memory steps. */
  lemma {:induction false} RunsRefine(db: Firestore.Database, s: Store, calls: seq<(Call, Time)>)
    requires Refines(db, s) && StoreInv(s) && forall i :: 0 <= i < |calls| ==> Addressable(calls[i].0)
    ensures Refines(TransactAll(db, calls), PerformAll(s, calls)) && StoreInv(PerformAll(s, calls))
    decreases |calls|
  {
    hide StoreInv, Refines, Transact, Perform, Addressable, Evolves;
    if calls != [] {
      PerformKeepsInv(s, calls[0].0);
      TransactRefines(db, s, calls[0].0, calls[0].1);
      RunsRefine(Transact(db, calls[0].0, calls[0].1), Perform(s, calls[0].0), calls[1..]);
    }
  }

  /** In every reachable database the active document exists exactly when a live run exists, names it and carries its
      version and state, and every stored run document passes the validator that each read runs. */
  lemma ActiveDocumentIsExact(calls: seq<(Call, Time)>, a: Alias)
    requires forall i :: 0 <= i < |calls| ==> Addressable(calls[i].0)
    ensures var db := TransactAll(Firestore.EMPTY, calls);
            && (a in db.runs && !db.runs[a].Terminal() <==> db.active.Some? && db.active.value.runAlias == a)
            && (a in db.runs ==> Consistent(db.runs[a]))
            && (db.active.Some? && db.active.value.runAlias == a ==>
                  a in db.runs && db.active.value.ownerVersion == db.runs[a].version
                    && db.active.value.state == db.runs[a].state)
  {
    hide RunInv, TimelineMatches, Transact, Perform, TransactAll, PerformAll, Addressable;
    var nothing := Store(None, map[]);
    RunsRefine(Firestore.EMPTY, nothing, calls);
    var db, s := TransactAll(Firestore.EMPTY, calls), PerformAll(nothing, calls);
    if a in s.runs {
      LiveRun(db, s, a);
      SameFields(db.runs[a], s.runs[a]);
    }
  }

  // ---- Reading in two steps ----

  /** A query ordered by ordinal: every document once, in strictly increasing order. */
  predicate OrderedRows(docs: Firestore.TimelineCollection, rows: seq<TimelineRecord>) {
    && (forall i, j :: 0 <= i < j < |rows| ==> rows[i].ordinal < rows[j].ordinal)
    && (forall i :: 0 <= i < |rows| ==> exists id :: id in docs && docs[id].record == rows[i])
    && (forall id :: id in docs ==> docs[id].record in rows)
  }

  predicate HasRow(rows: seq<TimelineRecord>, k: nat) { exists i :: 0 <= i < |rows| && rows[i].ordinal == k }

  lemma {:induction false} IncreasingOnto(rows: seq<TimelineRecord>, n: nat)
    requires forall i, j :: 0 <= i < j < |rows| ==> rows[i].ordinal < rows[j].ordinal
    requires forall i :: 0 <= i < |rows| ==> 1 <= rows[i].ordinal <= n
    requires forall k :: 1 <= k <= n ==> HasRow(rows, k)
    ensures |rows| == n && ConsecutiveRecords(rows)
  {
    hide ValidRecord;
    if rows != [] {
      assert 1 <= rows[0].ordinal && rows[|rows| - 1].ordinal <= n;
    }
    if n > 0 {
      assert HasRow(rows, n);
      var i :| 0 <= i < |rows| && rows[i].ordinal == n;
      assert i == |rows| - 1;
      var rest := rows[..i];
      forall k | 1 <= k <= n - 1 ensures HasRow(rest, k) {
        assert HasRow(rows, k);
        var j :| 0 <= j < |rows| && rows[j].ordinal == k;
        assert rest[j].ordinal == k;
      }
      IncreasingOnto(rest, n - 1);
    }
  }

  /** The rows of a matching collection are exactly the records. */
  lemma RowsAreRecords(docs: Firestore.TimelineCollection, run: Run, rows: seq<TimelineRecord>)
    requires GapFree(run.timeline, run.meta.timelineCount) && TimelineMatches(docs, run.timeline)
             && OrderedRows(docs, rows)
    ensures rows == Records(run)
  {
    hide Firestore.TimelineDocumentId, ValidRecord;
    var n := run.meta.timelineCount;
    forall i | 0 <= i < |rows| ensures 1 <= rows[i].ordinal <= n && rows[i] == run.timeline[rows[i].ordinal] {
      var id :| id in docs && docs[id].record == rows[i];
    }
    forall k | 1 <= k <= n ensures HasRow(rows, k) {
      var id := Firestore.TimelineDocumentId(k).value;
      assert docs[id].record in rows && docs[id].record.ordinal == k;
    }
    IncreasingOnto(rows, n);
  }

  /** A read takes the run document first and the rows later: it fails its prefix check exactly when a record was
      stored in between, and otherwise returns the snapshot as of the first step. */
  lemma TornReadFailsExactly(db: Firestore.Database, s: Store, later: Firestore.Database, t: Store, a: Alias,
                             rows: seq<TimelineRecord>)
    requires Refines(db, s) && StoreInv(s) && Refines(later, t) && StoreInv(t) && Evolves(s, t)
    requires a in s.runs && OrderedRows(later.Timeline(a), rows)
    ensures a in t.runs && RunInv(a, s.runs[a]) && RunInv(a, t.runs[a])
    ensures Reconstruct(db.runs[a], rows) ==
            if t.runs[a].meta.timelineCount == s.runs[a].meta.timelineCount then
                Load(s.runs[a]) else Err(TimelinePrefixInvalid)
  {
    hide OrderedRows, TimelineMatches, Reconstruct, RunInv, SlotInv;
    assert RunEvolves(s.runs[a], t.runs[a]) && RunInv(a, s.runs[a]) && RunInv(a, t.runs[a]);
    assert RunMatches(db.runs[a], db.Timeline(a), s.runs[a]) && RunMatches(later.runs[a], later.Timeline(a), t.runs[a]);
    TwoStepRead(db.runs[a], s.runs[a], later.Timeline(a), t.runs[a], rows, a);
  }

  lemma TwoStepRead(m: Metadata, x: Run, docs: Firestore.TimelineCollection, y: Run, rows: seq<TimelineRecord>,
                    a: Alias)
    requires Untimed(m) == Untimed(x.meta) && RunInv(a, x) && RunInv(a, y) && RunEvolves(x, y)
    requires TimelineMatches(docs, y.timeline) && OrderedRows(docs, rows)
    ensures GapFree(x.timeline, x.meta.timelineCount)
    ensures Reconstruct(m, rows) ==
            if y.meta.timelineCount == x.meta.timelineCount then Load(x) else Err(TimelinePrefixInvalid)
  {
    hide OrderedRows, TimelineMatches, ValidSnapshot, PersistedOrdinals, Consistent, EventsOf, DataPointsOf,
         ConversationsOf, StageOf;
    RowsAreRecords(docs, y, rows);
    SameFields(m, x);
    assert Rebuilt(m, rows) == Rebuilt(x.meta, rows);
  }

  /** Such a failing read is reachable: a record published between the two steps. */
  lemma TornReadHappens()
    ensures var first := Record(1, Event(1, None, 0, Brief, Inert, "", ""), [], DataPoint(1, "", "", Inert), Brief);
            var db := TransactAll(Firestore.EMPTY,
                                  [(CreateTx(Request("o"), "a", "k", 0), 0), (ClaimTx("a", "k", "w", 1, 30, None), 1)]);
            var later := Transact(db, AppendTx("a", "w", first, 2), 2);
            && "a" in db.runs && OrderedRows(later.Timeline("a"), [first])
            && Reconstruct(db.runs["a"], [first]) == Err(TimelinePrefixInvalid)
  {
    hide Firestore.Digits;
    var first := Record(1, Event(1, None, 0, Brief, Inert, "", ""), [], DataPoint(1, "", "", Inert), Brief);
    var create, claim := (CreateTx(Request("o"), "a", "k", 0), 0), (ClaimTx("a", "k", "w", 1, 30, None), 1);
    var empty := Transact(Firestore.EMPTY, create.0, 0);
    var db := Transact(empty, claim.0, 1);
    assert [create, claim][1..] == [claim] && [claim][1..] == [];
    assert TransactAll(Firestore.EMPTY, [create, claim]) == TransactAll(empty, [claim]) == TransactAll(db, []) == db;
    var later := Transact(db, AppendTx("a", "w", first, 2), 2);
    var id := Firestore.TimelineDocumentId(1).value;
    assert db.Timeline("a") == map[];
    assert later.Timeline("a") == map[id := Firestore.TimelineDocument(first, RecordHash(first), 2)];
    assert later.Timeline("a")[id].record == [first][0];
  }
}
