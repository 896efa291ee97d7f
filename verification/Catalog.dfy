/** The write protocol as a transition system: writers (write.go), the sequencer, GC, and
    the SQL statements of internal/catalog/sql.go acting on the committed catalog, the
    open transactions, the set of S3 objects and a clock.

    PostgreSQL is READ COMMITTED: each statement sees what is committed when it runs.
    A writer's statements before COMMIT are visible to itself only, and hold their row
    locks until the transaction ends. Any number of writers, sequencers and GC passes run
    interleaved, one statement or one S3 call at a time. */
module Catalog {
  import opened Wrappers
  import opened KeyCodec

  datatype Env = Env(
    prefix: string,
    grace: nat,      // gc.Config.Grace
    // Hypothesis TIMELY, write by write, each named by its key: the transaction and the PUT are
    // over within `grace` of the moment the write's pending_writes row was stamped.
    timely: string -> bool)

  // ---------- tables and objects ----------

  // "" stands for SQL NULL in the token column. `wantVersion` and `tuples` record what the write
  // asked for.
  datatype FileRow = FileRow(
    key: string, part: string, version: nat, token: string, writtenAt: nat,
    recordCount: nat, uncompressed: nat, fileSize: nat,
    wantVersion: Option<nat>, tuples: set<seq<string>>, feedSeq: Option<nat>)

  datatype PartRow = PartRow(version: nat, fileCount: nat)

  // An object's size and the user metadata that BuildS3Metadata attached to it.
  datatype Object = Object(token: string, recordCount: nat, uncompressed: nat, version: nat, fileSize: nat)

  function ObjectOf(r: FileRow): Object
  {
    Object(r.token, r.recordCount, r.uncompressed, r.version, r.fileSize)
  }

  // ---------- processes ----------

  datatype Request = Request(
    part: string, token: string, wantVersion: Option<nat>,
    recordCount: nat, uncompressed: nat, fileSize: nat, tuples: set<seq<string>>)

  datatype TxErr = TokenRaceLost | VersionConflict | OtherErr

  datatype FileRef = FileRef(fileId: nat, key: string, version: nat)

  datatype Outcome = Success(ref: FileRef) | Failure | CrashedOut

  datatype WriterPc =
    | Lookup                 // idempotency short-circuit
    | NewKey                 // fresh key, then the detached pending_writes INSERT
    | Begin
    | Upsert
    | InsertFile
    | Metadata
    | Put
    | Putting                // PUT issued, no answer yet
    | Tail                   // DELETE pending_writes, MV inserts, NOTIFY
    | Commit
    | RolledBack(err: TxErr, putAttempted: bool)
    | Translate(err: TxErr)
    | Relook
    | Done(outcome: Outcome)

  datatype Writer = Writer(
    req: Request, pc: WriterPc, key: string,
    since: nat,              // stamp of its pending_writes row
    start: nat,              // transaction start, i.e. written_at
    version: nat, fileId: nat)

  datatype GcPc = Scan | DeleteObject | DeleteRow

  datatype Gc = Gc(cutoff: int, keys: seq<string>, pc: GcPc)

  datatype Sequencer = WaitLock | Locked | Assigned(base: nat, picked: seq<nat>)

  datatype Upload = Upload(body: Object, since: nat)

  datatype WriteResult = WriteResult(part: string, token: string, ref: FileRef)

  datatype State = State(
    files: map<nat, FileRow>,
    partitions: map<string, PartRow>,
    pending: map<string, nat>,
    mv: set<seq<string>>,
    s3: map<string, Object>,
    uploads: map<string, Upload>,     // PUT requests that may still land
    clock: nat,
    nextId: nat,                      // the file_id sequence
    used: set<string>,                // keys ever generated
    writers: map<nat, Writer>,
    locks: map<string, nat>,          // partition row (or key) lock -> writer
    gcs: map<nat, Gc>,
    sequencers: map<nat, Sequencer>,
    advisory: Option<nat>,            // holder of the sequencer's advisory lock
    tip: nat,                         // history: offsets assigned so far
    results: seq<WriteResult>)        // history: refs returned to callers

  function Init(): State
  {
    State(map[], map[], map[], {}, map[], map[], 0, 1, {}, map[], map[], map[], map[], None, 0, [])
  }

  // ---------- actions ----------

  datatype WriterAction =
    | LookupHit(id: nat) | LookupMiss | LookupErr
    | InsertPending(uuid: string, reported: bool) | InsertPendingErr
    | BeginTx | UpsertRow | UpsertConflict | InsertRow | InsertDup | BuildMeta | StartPut | PutOk | TailSql
    | CommitTx(reported: bool) | TxFail
    | Cleanup(applied: bool) | TranslateErr
    | RelookHit(id: nat) | RelookMiss | RelookErr
    | Crash

  datatype GcAction =
    | ScanPending(keys: seq<string>) | ObjectDeleted | ObjectDeleteErr(applied: bool)
    | RowDeleted | RowDeleteErr(applied: bool)

  datatype SeqAction = TakeLock | Assign(base: nat, picked: seq<nat>, batch: nat) | CommitSeq | AbortSeq

  datatype Action =
    | Spawn(w: nat, req: Request)
    | ByWriter(w: nat, a: WriterAction)
    | PutLands(key: string) | PutVanishes(key: string)
    | StartGc(g: nat) | ByGc(g: nat, b: GcAction) | StopGc(g: nat)
    | StartSeq(q: nat) | BySeq(q: nat, d: SeqAction)
    | Tick(elapsed: nat)

  predicate Matches(r: FileRow, part: string, token: string)
  {
    r.part == part && r.token == token && token != ""
  }

  ghost predicate TokenTaken(s: State, part: string, token: string)
  {
    exists id :: id in s.files && Matches(s.files[id], part, token)
  }

  function Current(s: State, part: string): nat
  {
    if part in s.partitions then s.partitions[part].version else 0
  }

  // The WHERE clauses of PartitionUpsertSQL and PartitionUpdateOCCSQL.
  predicate Expected(s: State, req: Request)
  {
    match req.wantVersion
    case None => true
    case Some(e) => if e == 0 then Current(s, req.part) == 0 else req.part in s.partitions && s.partitions[req.part].version == e
  }

  // Between the stamp of the pending row and the end of the transaction.
  predicate Live(pc: WriterPc)
  {
    pc.Begin? || pc.Upsert? || pc.InsertFile? || pc.Metadata? || pc.Put? || pc.Putting? || pc.Tail? || pc.Commit?
  }

  predicate Holds(pc: WriterPc)
  {
    pc.InsertFile? || pc.Metadata? || pc.Put? || pc.Putting? || pc.Tail? || pc.Commit?
  }

  predicate HasRow(pc: WriterPc)
  {
    pc.Metadata? || pc.Put? || pc.Putting? || pc.Tail? || pc.Commit?
  }

  predicate PutAttempted(pc: WriterPc) { pc.Putting? || pc.Tail? || pc.Commit? }

  ghost predicate WriterEnabled(e: Env, s: State, x: Writer, a: WriterAction)
  {
    match a
    case LookupHit(id) => x.pc.Lookup? && id in s.files && Matches(s.files[id], x.req.part, x.req.token)
    case LookupMiss => x.pc.Lookup? && !TokenTaken(s, x.req.part, x.req.token)
    case LookupErr => x.pc.Lookup?
    case InsertPending(uuid, _) => x.pc.NewKey? && SlashFree(uuid) && DataKey(e.prefix, x.req.part, uuid) !in s.used
    case InsertPendingErr => x.pc.NewKey?
    case BeginTx => x.pc.Begin?
    case UpsertRow => x.pc.Upsert? && x.req.part !in s.locks && Expected(s, x.req)
    case UpsertConflict => x.pc.Upsert? && !Expected(s, x.req)
    case InsertRow => x.pc.InsertFile? && !TokenTaken(s, x.req.part, x.req.token)
    case InsertDup => x.pc.InsertFile? && TokenTaken(s, x.req.part, x.req.token)
    case BuildMeta => x.pc.Metadata?
    case StartPut => x.pc.Put?
    case PutOk => x.pc.Putting? && x.key !in s.uploads && x.key in s.s3
    case TailSql => x.pc.Tail?
    case CommitTx(_) => x.pc.Commit?
    case TxFail => Live(x.pc)
    case Cleanup(_) => x.pc.RolledBack? && !x.pc.putAttempted
    case TranslateErr => x.pc.Translate? || (x.pc.RolledBack? && x.pc.putAttempted)
    case RelookHit(id) => x.pc.Relook? && id in s.files && Matches(s.files[id], x.req.part, x.req.token)
    case RelookMiss => x.pc.Relook? && !TokenTaken(s, x.req.part, x.req.token)
    case RelookErr => x.pc.Relook?
    case Crash => !x.pc.Done?
  }

  // A row deleted in an open transaction is locked until that transaction ends.
  ghost predicate RowLocked(s: State, key: string)
  {
    exists w :: w in s.writers && s.writers[w].pc.Commit? && s.writers[w].key == key
  }

  ghost predicate GcEnabled(s: State, x: Gc, b: GcAction)
  {
    match b
    case ScanPending(keys) => x.pc.Scan? && forall k :: k in keys ==> k in s.pending && s.pending[k] < x.cutoff
    case ObjectDeleted => x.pc.DeleteObject? && |x.keys| > 0
    case ObjectDeleteErr(_) => x.pc.DeleteObject? && |x.keys| > 0
    case RowDeleted => x.pc.DeleteRow? && |x.keys| > 0 && !RowLocked(s, x.keys[0])
    case RowDeleteErr(applied) => x.pc.DeleteRow? && |x.keys| > 0 && (applied ==> !RowLocked(s, x.keys[0]))
  }

  ghost predicate Unsequenced(s: State, id: nat) { id in s.files && s.files[id].feedSeq.None? }

  // ORDER BY written_at, file_id
  predicate Earlier(s: State, a: nat, b: nat)
    requires a in s.files && b in s.files
  {
    s.files[a].writtenAt < s.files[b].writtenAt || (s.files[a].writtenAt == s.files[b].writtenAt && a < b)
  }

  // COALESCE(MAX(feed_seq), 0)
  ghost predicate IsMaxSeq(s: State, m: nat)
  {
    && (forall id :: id in s.files && s.files[id].feedSeq.Some? ==> s.files[id].feedSeq.value <= m)
    && (m > 0 ==> exists id :: id in s.files && s.files[id].feedSeq == Some(m))
  }

  // The `numbered` CTE: the first `batch` unsequenced rows in order.
  ghost predicate IsBatch(s: State, picked: seq<nat>, batch: nat)
  {
    && |picked| <= batch
    && (forall i :: 0 <= i < |picked| ==> Unsequenced(s, picked[i]))
    && (forall i, j :: 0 <= i < j < |picked| ==> Earlier(s, picked[i], picked[j]))
    && (forall id :: Unsequenced(s, id) && id !in picked ==>
          |picked| == batch && forall i :: 0 <= i < |picked| ==> Earlier(s, picked[i], id))
  }

  ghost predicate SeqEnabled(s: State, q: nat, x: Sequencer, d: SeqAction)
  {
    match d
    case TakeLock => x.WaitLock? && s.advisory.None?
    case Assign(base, picked, batch) => x.Locked? && IsMaxSeq(s, base) && IsBatch(s, picked, batch)
    case CommitSeq => x.Assigned?
    case AbortSeq => true
  }

  // Time passes no further than the hypothesis lets open work get old.
  ghost predicate MayTick(e: Env, s: State, d: nat)
  {
    && (forall w :: w in s.writers && Live(s.writers[w].pc) && e.timely(s.writers[w].key) ==> s.clock + d <= s.writers[w].since + e.grace)
    && (forall k :: k in s.uploads && e.timely(k) ==> s.clock + d <= s.uploads[k].since + e.grace)
  }

  ghost predicate Enabled(e: Env, s: State, a: Action)
  {
    match a
    case Spawn(w, req) => w !in s.writers && req.part != ""
    case ByWriter(w, b) => w in s.writers && WriterEnabled(e, s, s.writers[w], b)
    case PutLands(k) => k in s.uploads
    case PutVanishes(k) => k in s.uploads
    case StartGc(g) => g !in s.gcs
    case ByGc(g, b) => g in s.gcs && GcEnabled(s, s.gcs[g], b)
    case StopGc(g) => g in s.gcs
    case StartSeq(q) => q !in s.sequencers
    case BySeq(q, d) => q in s.sequencers && SeqEnabled(s, q, s.sequencers[q], d)
    case Tick(d) => MayTick(e, s, d)
  }

  // ---------- effects ----------

  function Unlock(s: State, w: nat): map<string, nat>
  {
    map p | p in s.locks && s.locks[p] != w :: s.locks[p]
  }

  function NewRow(x: Writer): FileRow
  {
    FileRow(x.key, x.req.part, x.version, x.req.token, x.start,
            x.req.recordCount, x.req.uncompressed, x.req.fileSize, x.req.wantVersion, x.req.tuples, None)
  }

  function WriterObject(x: Writer): Object
  {
    Object(x.req.token, x.req.recordCount, x.req.uncompressed, x.version, x.req.fileSize)
  }

  // COMMIT makes the partition row, the file row, the pending DELETE and the MV rows
  // visible together.
  function Committed(s: State, w: nat, x: Writer): State
  {
    s.(files := s.files[x.fileId := NewRow(x)],
       partitions := s.partitions[x.req.part := PartRow(x.version, if x.req.part in s.partitions then s.partitions[x.req.part].fileCount + 1 else 1)],
       pending := s.pending - {x.key},
       mv := s.mv + x.req.tuples,
       locks := Unlock(s, w))
  }

  function RefOf(id: nat, r: FileRow): FileRef { FileRef(id, r.key, r.version) }

  function Answer(s: State, x: Writer, ref: FileRef): seq<WriteResult>
  {
    s.results + [WriteResult(x.req.part, x.req.token, ref)]
  }

  function Fault(a: WriterAction): TxErr
  {
    if a.UpsertConflict? then VersionConflict else if a.InsertDup? then TokenRaceLost else OtherErr
  }

  // Where the writer goes next.
  ghost function NextWriter(e: Env, s: State, x: Writer, a: WriterAction): Writer
    requires WriterEnabled(e, s, x, a)
  {
    match a
    case LookupHit(id) => x.(pc := Done(Success(RefOf(id, s.files[id]))))
    case LookupMiss => x.(pc := NewKey)
    case LookupErr => x.(pc := Done(Failure))
    case InsertPending(uuid, reported) =>
      x.(pc := if reported then Begin else Done(Failure), key := DataKey(e.prefix, x.req.part, uuid), since := s.clock)
    case InsertPendingErr => x.(pc := Done(Failure))
    case BeginTx => x.(pc := Upsert, start := s.clock)
    case UpsertRow => x.(pc := InsertFile, version := Current(s, x.req.part) + 1)
    case InsertRow => x.(pc := Metadata, fileId := s.nextId)
    case BuildMeta => x.(pc := Put)
    case StartPut => x.(pc := Putting)
    case PutOk => x.(pc := Tail)
    case TailSql => x.(pc := Commit)
    case CommitTx(reported) =>
      x.(pc := if reported then Done(Success(RefOf(x.fileId, NewRow(x)))) else RolledBack(OtherErr, true))
    case Cleanup(_) => x.(pc := Translate(x.pc.err))
    case TranslateErr => x.(pc := if x.pc.err == TokenRaceLost then Relook else Done(Failure))
    case RelookHit(id) => x.(pc := Done(Success(RefOf(id, s.files[id]))))
    case RelookMiss => x.(pc := Done(Failure))
    case RelookErr => x.(pc := Done(Failure))
    case Crash => x.(pc := Done(CrashedOut))
    case _ => x.(pc := RolledBack(Fault(a), PutAttempted(x.pc)))
  }

  // What the writer's action does to everything but the writer.
  ghost function WriterEffect(e: Env, s: State, w: nat, x: Writer, a: WriterAction): State
    requires WriterEnabled(e, s, x, a)
  {
    match a
    case LookupHit(id) => s.(results := Answer(s, x, RefOf(id, s.files[id])))
    case InsertPending(uuid, _) =>
      var k := DataKey(e.prefix, x.req.part, uuid);
      s.(pending := s.pending[k := s.clock], used := s.used + {k})
    case UpsertRow => s.(locks := s.locks[x.req.part := w])
    case InsertRow => s.(nextId := s.nextId + 1)
    case InsertDup => s.(nextId := s.nextId + 1, locks := Unlock(s, w))
    case UpsertConflict => s.(locks := Unlock(s, w))
    case TxFail => s.(locks := Unlock(s, w))
    case Crash => s.(locks := Unlock(s, w))
    case StartPut => s.(uploads := s.uploads[x.key := Upload(WriterObject(x), x.since)])
    case CommitTx(reported) =>
      var t := Committed(s, w, x);
      if reported then t.(results := Answer(s, x, RefOf(x.fileId, NewRow(x)))) else t
    case Cleanup(applied) => if applied then s.(pending := s.pending - {x.key}) else s
    case RelookHit(id) => s.(results := Answer(s, x, RefOf(id, s.files[id])))
    case _ => s
  }

  ghost function WriterStep(e: Env, s: State, w: nat, a: WriterAction): State
    requires w in s.writers && WriterEnabled(e, s, s.writers[w], a)
  {
    var x := s.writers[w];
    WriterEffect(e, s, w, x, a).(writers := s.writers[w := NextWriter(e, s, x, a)])
  }

  ghost function GcStep(s: State, g: nat, b: GcAction): State
    requires g in s.gcs && GcEnabled(s, s.gcs[g], b)
  {
    var x := s.gcs[g];
    match b
    case ScanPending(keys) => s.(gcs := s.gcs[g := x.(keys := keys, pc := DeleteObject)])
    case ObjectDeleted => s.(s3 := s.s3 - {x.keys[0]}, gcs := s.gcs[g := x.(pc := DeleteRow)])
    case ObjectDeleteErr(applied) =>
      s.(s3 := if applied then s.s3 - {x.keys[0]} else s.s3, gcs := s.gcs[g := x.(keys := x.keys[1..])])
    case RowDeleted =>
      s.(pending := s.pending - {x.keys[0]}, gcs := s.gcs[g := x.(keys := x.keys[1..], pc := DeleteObject)])
    case RowDeleteErr(applied) =>
      s.(pending := if applied then s.pending - {x.keys[0]} else s.pending,
         gcs := s.gcs[g := x.(keys := x.keys[1..], pc := DeleteObject)])
  }

  // UPDATE ... SET feed_seq = base + rn
  function Numbered(files: map<nat, FileRow>, base: nat, picked: seq<nat>): map<nat, FileRow>
  {
    if |picked| == 0 then files
    else
      var n := |picked| - 1;
      var rest := Numbered(files, base, picked[..n]);
      if picked[n] in rest then rest[picked[n] := rest[picked[n]].(feedSeq := Some(base + n + 1))] else rest
  }

  ghost function SeqStep(s: State, q: nat, d: SeqAction): State
    requires q in s.sequencers && SeqEnabled(s, q, s.sequencers[q], d)
  {
    var x := s.sequencers[q];
    match d
    case TakeLock => s.(sequencers := s.sequencers[q := Locked], advisory := Some(q))
    case Assign(base, picked, batch) => s.(sequencers := s.sequencers[q := Assigned(base, picked)])
    case CommitSeq =>
      s.(files := Numbered(s.files, x.base, x.picked), tip := s.tip + |x.picked|,
         sequencers := s.sequencers - {q}, advisory := None)
    case AbortSeq =>
      s.(sequencers := s.sequencers - {q}, advisory := if s.advisory == Some(q) then None else s.advisory)
  }

  ghost function Apply(e: Env, s: State, a: Action): State
    requires Enabled(e, s, a)
  {
    match a
    case Spawn(w, req) => s.(writers := s.writers[w := Writer(req, Lookup, "", 0, 0, 0, 0)])
    case ByWriter(w, b) => WriterStep(e, s, w, b)
    case PutLands(k) => s.(s3 := s.s3[k := s.uploads[k].body], uploads := s.uploads - {k})
    case PutVanishes(k) => s.(uploads := s.uploads - {k})
    case StartGc(g) => s.(gcs := s.gcs[g := Gc(s.clock - e.grace, [], Scan)])
    case ByGc(g, b) => GcStep(s, g, b)
    case StopGc(g) => s.(gcs := s.gcs - {g})
    case StartSeq(q) => s.(sequencers := s.sequencers[q := WaitLock])
    case BySeq(q, d) => SeqStep(s, q, d)
    case Tick(d) => s.(clock := s.clock + d)
  }
}
