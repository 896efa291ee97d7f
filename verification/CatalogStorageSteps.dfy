/** Every step keeps catalog and S3 in step with each other.

    Writer actions are taken in the order of a write: those that touch no object, the INSERT
    of the pending_writes row, the PUT, COMMIT, and the ways a pending row goes away unused.
    Then come PUTs that land late, the GC's scan and its two deletes, and the passing of time,
    which is where the TIMELY hypothesis comes in, write by write. */
module CatalogStorageSteps {
  import opened KeyCodec
  import opened Catalog
  import opened CatalogCore
  import CatalogSteps
  import opened CatalogStorage

  // ---------- writer actions that touch no object ----------

  predicate Idle(a: WriterAction)
  {
    !a.InsertPending? && !a.StartPut? && !a.CommitTx? && !a.Cleanup?
  }

  lemma IdleEffect(e: Env, s: State, w: nat, x: Writer, a: WriterAction, t: State)
    requires WriterEnabled(e, s, x, a) && Idle(a) && t == WriterEffect(e, s, w, x, a)
    ensures t == s.(results := t.results, locks := t.locks, nextId := t.nextId) && s.nextId <= t.nextId
  {
    match a
    case LookupHit(_) =>
    case RelookHit(_) =>
    case UpsertConflict =>
    case UpsertRow =>
    case InsertRow =>
    case InsertDup =>
    case TxFail =>
    case Crash =>
    case _ =>
  }

  lemma IdleKey(e: Env, s: State, x: Writer, a: WriterAction)
    requires WriterEnabled(e, s, x, a) && Idle(a) && KeyOk(e, s, x)
    ensures KeyOk(e, s, NextWriter(e, s, x, a))
  {
    var y := NextWriter(e, s, x, a);
    assert y.req == x.req && y.key == x.key && y.since == x.since;
    match a
    case UpsertRow => assert y.pc == InsertFile;
    case InsertRow => assert y.pc == Metadata;
    case _ =>
  }

  // A writer that is live after such a step was live before it, with the same key and stamp.
  lemma IdleLive(e: Env, s: State, x: Writer, a: WriterAction)
    requires WriterEnabled(e, s, x, a) && Idle(a)
    ensures var y := NextWriter(e, s, x, a); y.key == x.key && y.since == x.since && (Live(y.pc) ==> Live(x.pc))
  {
  }

  // One writer's record moved, with no object and no new claim on a key.
  ghost predicate Moved(e: Env, s: State, t: State, w: nat)
  {
    && w in s.writers && w in t.writers && t.writers == s.writers[w := t.writers[w]] && SameObjects(s, t)
    && t.gcs == s.gcs && t.clock == s.clock && KeyOk(e, t, t.writers[w])
    && (Live(t.writers[w].pc) ==> Live(s.writers[w].pc) && t.writers[w].key == s.writers[w].key && t.writers[w].since == s.writers[w].since)
  }

  lemma IdleMoved(e: Env, s: State, w: nat, a: WriterAction, t: State)
    requires w in s.writers && WriterEnabled(e, s, s.writers[w], a) && Idle(a) && t == WriterStep(e, s, w, a)
    requires KeyOk(e, s, s.writers[w])
    ensures Moved(e, s, t, w)
  {
    var x := s.writers[w];
    IdleEffect(e, s, w, x, a, WriterEffect(e, s, w, x, a));
    IdleKey(e, s, x, a);
    IdleLive(e, s, x, a);
    KeyKept(e, s, t, t.writers[w]);
  }

  lemma MovedKeeps(e: Env, s: State, t: State, w: nat)
    requires Moved(e, s, t, w) && Storage(e, s)
    ensures Storage(e, t)
  {
    ObjectsKept(e, s, t);
    forall v | v in t.writers ensures KeyOk(e, t, t.writers[v]) {
      if v != w { KeyKept(e, s, t, s.writers[v]); }
    }
    MovedKeepsSweeps(e, s, t, w);
  }

  lemma MovedKeepsSweeps(e: Env, s: State, t: State, w: nat)
    requires Moved(e, s, t, w) && SweepsOk(e, s)
    ensures SweepsOk(e, t)
  {
    forall k | Dead(s, k) ensures Dead(t, k) { RecordedKept(s, t, k); }
    SweepsKept(e, s, t);
  }

  // ---------- the pending_writes INSERT ----------

  // A key nobody has used before.
  ghost predicate Fresh(e: Env, s: State, w: nat, t: State, k: string)
  {
    && w in s.writers && w in t.writers && k !in s.used && k == t.writers[w].key
    && t == s.(pending := s.pending[k := s.clock], used := s.used + {k}, writers := s.writers[w := t.writers[w]])
    && t.writers[w].since == s.clock && Places(e, t.writers[w].req.part, k)
    && (t.writers[w].pc.Begin? || t.writers[w].pc.Done?)
  }

  lemma FreshObjects(e: Env, s: State, w: nat, t: State, k: string)
    requires Fresh(e, s, w, t, k) && RowsOk(s)
    requires KeysKnown(s) && UploadsOk(e, s) && Tracked(e, s) && FilesStored(e, s)
    ensures KeysKnown(t) && UploadsOk(e, t) && Tracked(e, t) && FilesStored(e, t)
  {
    forall j ensures Recorded(t, j) <==> Recorded(s, j) { RecordedKept(s, t, j); }
    forall j | j in t.uploads && e.timely(j) ensures UploadOk(t, j) { assert UploadOk(s, j); }
    forall id | id in t.files && e.timely(t.files[id].key) ensures Stored(e, t, t.files[id]) { assert Stored(e, s, s.files[id]) && RowOk(s, id); }
  }

  lemma FreshKeys(e: Env, s: State, w: nat, t: State, k: string)
    requires Fresh(e, s, w, t, k) && WritersOk(s) && KeysKnown(s) && KeysOk(e, s)
    ensures KeysOk(e, t)
  {
    forall v | v in s.writers && v != w && OwnsKey(s.writers[v].pc) ensures s.writers[v].key != k {
      assert WriterOk(s, v, s.writers[v]);
    }
    OthersKept(e, s, t, w, k);
  }

  lemma FreshSweeps(e: Env, s: State, w: nat, t: State, k: string)
    requires Fresh(e, s, w, t, k) && SweepsOk(e, s)
    ensures SweepsOk(e, t)
  {
    forall j | Dead(s, j) ensures Dead(t, j) { RecordedKept(s, t, j); }
    SweepsKept(e, s, t);
  }

  lemma InsertPendingKeeps(e: Env, s: State, w: nat, a: WriterAction, t: State)
    requires w in s.writers && WriterEnabled(e, s, s.writers[w], a) && a.InsertPending? && t == WriterStep(e, s, w, a)
    requires RowsOk(s) && WritersOk(s) && Storage(e, s)
    ensures Storage(e, t)
  {
    var k := DataKey(e.prefix, s.writers[w].req.part, a.uuid);
    assert Fresh(e, s, w, t, k);
    FreshObjects(e, s, w, t, k);
    FreshKeys(e, s, w, t, k);
    FreshSweeps(e, s, w, t, k);
  }

  // ---------- the PUT ----------

  ghost predicate Starts(s: State, w: nat, x: Writer, t: State)
  {
    && w in s.writers && s.writers[w] == x && x.pc.Put?
    && t == s.(writers := s.writers[w := x.(pc := Putting)], uploads := s.uploads[x.key := Upload(WriterObject(x), x.since)])
  }

  lemma StartPutObjects(e: Env, s: State, w: nat, x: Writer, t: State)
    requires Starts(s, w, x, t) && WriterOk(s, w, x) && KeyOk(e, s, x)
    requires KeysKnown(s) && UploadsOk(e, s) && Tracked(e, s) && FilesStored(e, s)
    ensures KeysKnown(t) && UploadsOk(e, t) && Tracked(e, t) && FilesStored(e, t)
  {
    forall j ensures Recorded(t, j) <==> Recorded(s, j) { RecordedKept(s, t, j); }
    forall j | j in t.uploads && e.timely(j) ensures UploadOk(t, j) {
      if j != x.key { assert UploadOk(s, j); }
    }
    forall id | id in t.files && e.timely(t.files[id].key) ensures Stored(e, t, t.files[id]) { assert Stored(e, s, s.files[id]); }
  }

  lemma StartPutKeys(e: Env, s: State, w: nat, x: Writer, t: State)
    requires Starts(s, w, x, t) && WritersOk(s) && KeysOk(e, s)
    ensures KeysOk(e, t)
  {
    assert KeyOk(e, s, x);
    forall v | v in s.writers && v != w && OwnsKey(s.writers[v].pc) ensures s.writers[v].key != x.key {
      assert Apart(s.writers[v], x);
    }
    OthersKept(e, s, t, w, x.key);
  }

  lemma StartPutSweeps(e: Env, s: State, w: nat, x: Writer, t: State)
    requires Starts(s, w, x, t) && SweepsOk(e, s)
    ensures SweepsOk(e, t)
  {
    forall j | Dead(s, j) ensures Dead(t, j) { RecordedKept(s, t, j); assert s.writers[w].key != j; }
    SweepsKept(e, s, t);
  }

  lemma StartPutKeeps(e: Env, s: State, w: nat, a: WriterAction, t: State)
    requires w in s.writers && WriterEnabled(e, s, s.writers[w], a) && a.StartPut? && t == WriterStep(e, s, w, a)
    requires WritersOk(s) && Storage(e, s)
    ensures Storage(e, t)
  {
    var x := s.writers[w];
    assert Starts(s, w, x, t) && WriterOk(s, w, x) && KeyOk(e, s, x);
    StartPutObjects(e, s, w, x, t);
    StartPutKeys(e, s, w, x, t);
    StartPutSweeps(e, s, w, x, t);
  }

  // ---------- COMMIT ----------

  // What a commit does to the objects' bookkeeping.
  ghost predicate Moves(s: State, w: nat, x: Writer, t: State)
  {
    && CatalogSteps.Commits(s, w, x, t)
    && t.pending == s.pending - {x.key} && t.s3 == s.s3 && t.uploads == s.uploads && t.gcs == s.gcs && t.clock == s.clock
  }

  lemma RecordedGrows(s: State, w: nat, x: Writer, t: State, k: string)
    requires Moves(s, w, x, t) && WriterOk(s, w, x)
    ensures Recorded(t, k) <==> Recorded(s, k) || k == x.key
  {
    if Recorded(s, k) {
      var id :| id in s.files && s.files[id].key == k;
      assert id in t.files && t.files[id].key == k;
    }
    if k == x.key { assert x.fileId in t.files && t.files[x.fileId].key == k; }
    if Recorded(t, k) && k != x.key {
      var id :| id in t.files && t.files[id].key == k;
      assert id in s.files && s.files[id].key == k;
    }
  }

  lemma CommitObjects(e: Env, s: State, w: nat, x: Writer, t: State)
    requires Moves(s, w, x, t) && WriterOk(s, w, x) && KeyOk(e, s, x)
    requires KeysKnown(s) && UploadsOk(e, s) && Tracked(e, s) && FilesStored(e, s)
    ensures KeysKnown(t) && UploadsOk(e, t) && Tracked(e, t) && FilesStored(e, t)
  {
    forall k ensures Recorded(t, k) <==> Recorded(s, k) || k == x.key { RecordedGrows(s, w, x, t, k); }
    forall k | k in t.uploads && e.timely(k) ensures UploadOk(t, k) { assert UploadOk(s, k); }
    forall id | id in t.files && e.timely(t.files[id].key) ensures Stored(e, t, t.files[id]) {
      if id != x.fileId { assert Stored(e, s, s.files[id]); }
    }
  }

  lemma CommitKeys(e: Env, s: State, w: nat, x: Writer, t: State)
    requires Moves(s, w, x, t) && WritersOk(s) && KeysOk(e, s)
    ensures KeysOk(e, t)
  {
    forall v | v in s.writers && v != w && OwnsKey(s.writers[v].pc) ensures s.writers[v].key != x.key {
      assert Apart(s.writers[v], x);
    }
    OthersKept(e, s, t, w, x.key);
  }

  lemma CommitSweeps(e: Env, s: State, w: nat, x: Writer, t: State)
    requires Moves(s, w, x, t) && WriterOk(s, w, x) && SweepsOk(e, s)
    ensures SweepsOk(e, t)
  {
    forall k | Dead(s, k) ensures Dead(t, k) {
      assert s.writers[w].key != k;
      RecordedGrows(s, w, x, t, k);
    }
    SweepsKept(e, s, t);
  }

  lemma CommitEffect(e: Env, s: State, w: nat, x: Writer, a: WriterAction, t: State)
    requires WriterEnabled(e, s, x, a) && a.CommitTx? && t == WriterEffect(e, s, w, x, a)
    ensures t == Committed(s, w, x).(results := t.results)
    ensures t.results == s.results || t.results == s.results + [WriteResult(x.req.part, x.req.token, RefOf(x.fileId, NewRow(x)))]
  {
    hide Committed, NewRow, Unlock, TokenTaken, Expected, DataKey, SlashFree, Matches;
    CommittedResults(s, w, x);
  }

  lemma CommittedResults(s: State, w: nat, x: Writer)
    ensures Committed(s, w, x).results == s.results
  {
  }

  lemma CommitMoves(e: Env, s: State, w: nat, a: WriterAction, t: State)
    requires w in s.writers && WriterEnabled(e, s, s.writers[w], a) && a.CommitTx? && t == WriterStep(e, s, w, a)
    ensures Moves(s, w, s.writers[w], t)
  {
    var x := s.writers[w];
    CommitEffect(e, s, w, x, a, WriterEffect(e, s, w, x, a));
    assert t.writers[w] == NextWriter(e, s, x, a);
  }

  lemma CommitKeeps(e: Env, s: State, w: nat, a: WriterAction, t: State)
    requires w in s.writers && WriterEnabled(e, s, s.writers[w], a) && a.CommitTx? && t == WriterStep(e, s, w, a)
    requires WritersOk(s) && Storage(e, s)
    ensures Storage(e, t)
  {
    var x := s.writers[w];
    CommitMoves(e, s, w, a, t);
    assert WriterOk(s, w, x) && KeyOk(e, s, x) && InTime(e, t);
    hide KeysKnown, UploadsOk, Tracked, FilesStored, KeysOk, InTime, SweepsOk, WritersOk, Moves;
    CommitObjects(e, s, w, x, t);
    CommitKeys(e, s, w, x, t);
    CommitSweeps(e, s, w, x, t);
  }

  // ---------- pending rows that go away unused ----------

  // A pending row is dropped whose object does not exist and will not.
  ghost predicate Drops(s: State, t: State, k: string)
  {
    && SameRows(s, t) && t.pending == s.pending - {k} && t.s3 == s.s3 && t.uploads == s.uploads && t.used == s.used
    && k !in s.s3 && k !in s.uploads
  }

  lemma DropObjects(e: Env, s: State, t: State, k: string)
    requires Drops(s, t, k) && KeysKnown(s) && UploadsOk(e, s) && Tracked(e, s) && FilesStored(e, s)
    ensures KeysKnown(t) && UploadsOk(e, t) && Tracked(e, t) && FilesStored(e, t)
  {
    forall j ensures Recorded(t, j) <==> Recorded(s, j) { RecordedKept(s, t, j); }
    forall j | j in t.uploads && e.timely(j) ensures UploadOk(t, j) { assert UploadOk(s, j); }
    forall id | id in t.files && e.timely(t.files[id].key) ensures Stored(e, t, t.files[id]) { assert Stored(e, s, s.files[id]); }
  }

  lemma CleanupKeeps(e: Env, s: State, w: nat, a: WriterAction, t: State)
    requires w in s.writers && WriterEnabled(e, s, s.writers[w], a) && a == Cleanup(true) && t == WriterStep(e, s, w, a)
    requires WritersOk(s) && Storage(e, s)
    ensures Storage(e, t)
  {
    var x := s.writers[w];
    assert KeyOk(e, s, x) && Drops(s, t, x.key);
    DropObjects(e, s, t, x.key);
    CleanupKeys(e, s, w, a, t);
    CleanupSweeps(e, s, w, a, t);
  }

  lemma CleanupKeys(e: Env, s: State, w: nat, a: WriterAction, t: State)
    requires w in s.writers && WriterEnabled(e, s, s.writers[w], a) && a == Cleanup(true) && t == WriterStep(e, s, w, a)
    requires WritersOk(s) && KeysOk(e, s)
    ensures KeysOk(e, t)
  {
    var x := s.writers[w];
    assert KeyOk(e, s, x);
    forall v | v in s.writers && v != w && OwnsKey(s.writers[v].pc) ensures s.writers[v].key != x.key {
      assert Apart(s.writers[v], x);
    }
    OthersKept(e, s, t, w, x.key);
  }

  lemma CleanupSweeps(e: Env, s: State, w: nat, a: WriterAction, t: State)
    requires w in s.writers && WriterEnabled(e, s, s.writers[w], a) && a == Cleanup(true) && t == WriterStep(e, s, w, a)
    requires SweepsOk(e, s)
    ensures SweepsOk(e, t)
  {
    forall j | Dead(s, j) ensures Dead(t, j) { RecordedKept(s, t, j); }
    SweepsKept(e, s, t);
  }

  lemma NoCleanupKeeps(e: Env, s: State, w: nat, a: WriterAction, t: State)
    requires w in s.writers && WriterEnabled(e, s, s.writers[w], a) && a == Cleanup(false) && t == WriterStep(e, s, w, a)
    requires Storage(e, s)
    ensures Storage(e, t)
  {
    assert KeyOk(e, s, s.writers[w]);
    KeyKept(e, s, t, t.writers[w]);
    MovedKeeps(e, s, t, w);
  }

  // ---------- PUTs in flight ----------

  lemma VanishKeeps(e: Env, s: State, k: string, t: State)
    requires k in s.uploads && t == s.(uploads := s.uploads - {k})
    requires Storage(e, s)
    ensures Storage(e, t)
  {
    forall j ensures Recorded(t, j) <==> Recorded(s, j) { RecordedKept(s, t, j); }
    forall j | j in t.uploads && e.timely(j) ensures UploadOk(t, j) { assert UploadOk(s, j); }
    forall id | id in t.files && e.timely(t.files[id].key) ensures Stored(e, t, t.files[id]) { assert Stored(e, s, s.files[id]); }
    forall w | w in t.writers ensures KeyOk(e, t, t.writers[w]) { assert KeyOk(e, s, s.writers[w]); }
    SweepsKept(e, s, t);
  }

  lemma LandedObjects(e: Env, s: State, k: string, t: State)
    requires k in s.uploads && t == s.(s3 := s.s3[k := s.uploads[k].body], uploads := s.uploads - {k})
    requires KeysKnown(s) && UploadsOk(e, s) && Tracked(e, s) && FilesStored(e, s)
    ensures KeysKnown(t) && UploadsOk(e, t) && Tracked(e, t) && FilesStored(e, t)
  {
    forall j ensures Recorded(t, j) <==> Recorded(s, j) { RecordedKept(s, t, j); }
    assert e.timely(k) ==> UploadOk(s, k);
    forall j | j in t.uploads && e.timely(j) ensures UploadOk(t, j) { assert UploadOk(s, j); }
    forall id | id in t.files && e.timely(t.files[id].key) ensures Stored(e, t, t.files[id]) { assert Stored(e, s, s.files[id]); }
  }

  lemma LandsKeeps(e: Env, s: State, k: string, t: State)
    requires k in s.uploads && t == s.(s3 := s.s3[k := s.uploads[k].body], uploads := s.uploads - {k})
    requires Storage(e, s)
    ensures Storage(e, t)
  {
    LandedObjects(e, s, k, t);
    forall w | w in t.writers ensures KeyOk(e, t, t.writers[w]) { assert KeyOk(e, s, s.writers[w]); }
    forall j | Dead(s, j) ensures Dead(t, j) { RecordedKept(s, t, j); }
    SweepsKept(e, s, t);
  }

  // ---------- GC ----------

  // A timely write's pending row older than the cutoff belongs to no live writer and to no PUT
  // in flight.
  lemma StaleIsDead(e: Env, s: State, x: Gc, k: string)
    requires KeysKnown(s) && UploadsOk(e, s) && FilesStored(e, s) && KeysOk(e, s) && InTime(e, s)
    requires x.cutoff + e.grace <= s.clock && k in s.pending && s.pending[k] < x.cutoff && e.timely(k)
    ensures Dead(s, k)
  {
    forall w | w in s.writers && Live(s.writers[w].pc) ensures s.writers[w].key != k { assert KeyOk(e, s, s.writers[w]); }
    forall j | j in s.uploads && e.timely(j) ensures j != k { assert UploadOk(s, j); }
    forall id | id in s.files && e.timely(s.files[id].key) ensures s.files[id].key != k { assert Stored(e, s, s.files[id]); }
  }

  // GC takes, of timely writes, nothing but dead objects and the pending rows of absent ones.
  ghost predicate Sweeps(e: Env, s: State, t: State, k: string)
  {
    && t.files == s.files && t.partitions == s.partitions && t.mv == s.mv && t.nextId == s.nextId && t.used == s.used
    && t.uploads == s.uploads && t.writers == s.writers && t.clock == s.clock
    && (e.timely(k) ==> Dead(s, k))
    && ((t.s3 == s.s3 - {k} && t.pending == s.pending) || (t.s3 == s.s3 && t.pending == s.pending - {k} && (e.timely(k) ==> k !in s.s3)))
  }

  lemma SweptObjects(e: Env, s: State, t: State, k: string)
    requires Sweeps(e, s, t, k) && KeysKnown(s) && UploadsOk(e, s) && Tracked(e, s) && FilesStored(e, s)
    ensures KeysKnown(t) && UploadsOk(e, t) && Tracked(e, t) && FilesStored(e, t)
  {
    forall j ensures Recorded(t, j) <==> Recorded(s, j) { RecordedKept(s, t, j); }
    forall j | j in t.uploads && e.timely(j) ensures UploadOk(t, j) { assert UploadOk(s, j); }
    forall id | id in t.files && e.timely(t.files[id].key) ensures Stored(e, t, t.files[id]) {
      assert Stored(e, s, s.files[id]);
      assert Recorded(s, s.files[id].key);
    }
  }

  lemma SweptKeys(e: Env, s: State, t: State, k: string)
    requires Sweeps(e, s, t, k) && KeysOk(e, s)
    ensures KeysOk(e, t)
  {
    forall w | w in t.writers ensures KeyOk(e, t, t.writers[w]) { assert KeyOk(e, s, s.writers[w]); }
  }

  lemma DeadKept(s: State, t: State, j: string)
    requires t.files == s.files && t.uploads == s.uploads && t.writers == s.writers && t.used == s.used && Dead(s, j)
    ensures Dead(t, j)
  {
    assert Recorded(t, j) <==> Recorded(s, j);
  }

  lemma GcSweeps(e: Env, s: State, g: nat, b: GcAction, t: State)
    requires g in s.gcs && GcEnabled(s, s.gcs[g], b) && t == GcStep(s, g, b)
    requires KeysKnown(s) && UploadsOk(e, s) && FilesStored(e, s) && KeysOk(e, s) && InTime(e, s) && SweepsOk(e, s)
    ensures SweepsOk(e, t)
  {
    var x := s.gcs[g];
    assert SweepOk(e, s, x);
    if b.ScanPending? {
      forall i | 0 <= i < |b.keys| && e.timely(b.keys[i]) ensures Dead(s, b.keys[i]) { StaleIsDead(e, s, x, b.keys[i]); }
    }
    forall h | h in t.gcs ensures SweepOk(e, t, t.gcs[h]) {
      var y := t.gcs[h];
      assert SweepOk(e, s, s.gcs[h]);
      forall i | 0 <= i < |y.keys| && e.timely(y.keys[i]) ensures Dead(t, y.keys[i]) {
        assert Dead(s, y.keys[i]);
        DeadKept(s, t, y.keys[i]);
      }
    }
  }

  lemma GcObjects(e: Env, s: State, g: nat, b: GcAction, t: State)
    requires g in s.gcs && GcEnabled(s, s.gcs[g], b) && t == GcStep(s, g, b) && SweepsOk(e, s)
    ensures (t.s3 == s.s3 && t.pending == s.pending) || (|s.gcs[g].keys| > 0 && Sweeps(e, s, t, s.gcs[g].keys[0]))
    ensures t.files == s.files && t.uploads == s.uploads && t.writers == s.writers && t.clock == s.clock
  {
    assert SweepOk(e, s, s.gcs[g]);
  }

  lemma GcKeeps(e: Env, s: State, g: nat, b: GcAction, t: State)
    requires g in s.gcs && GcEnabled(s, s.gcs[g], b) && t == GcStep(s, g, b)
    requires Storage(e, s)
    ensures Storage(e, t)
  {
    GcSweeps(e, s, g, b, t);
    GcObjects(e, s, g, b, t);
    CatalogSteps.GcTables(s, g, b, t);
    if t.s3 == s.s3 && t.pending == s.pending {
      ObjectsKept(e, s, t);
      forall w | w in t.writers ensures KeyOk(e, t, t.writers[w]) { KeyKept(e, s, t, s.writers[w]); }
    } else {
      SweptObjects(e, s, t, s.gcs[g].keys[0]);
      SweptKeys(e, s, t, s.gcs[g].keys[0]);
    }
  }

  // ---------- everything else ----------

  // No writer, object or pending row moved.
  ghost predicate Aside(s: State, t: State)
  {
    SameObjects(s, t) && t.writers == s.writers && s.clock <= t.clock
  }

  lemma AsideKeeps(e: Env, s: State, t: State)
    requires Aside(s, t)
    requires KeysKnown(s) && UploadsOk(e, s) && Tracked(e, s) && FilesStored(e, s) && KeysOk(e, s)
    ensures KeysKnown(t) && UploadsOk(e, t) && Tracked(e, t) && FilesStored(e, t) && KeysOk(e, t)
  {
    ObjectsKept(e, s, t);
    forall w | w in t.writers ensures KeyOk(e, t, t.writers[w]) { KeyKept(e, s, t, s.writers[w]); }
  }

  lemma AsideSweeps(e: Env, s: State, t: State)
    requires Aside(s, t) && SweepsOk(e, s)
    requires forall g :: g in t.gcs ==> (g in s.gcs && t.gcs[g] == s.gcs[g]) || (t.gcs[g].keys == [] && t.gcs[g].cutoff + e.grace <= t.clock)
    ensures SweepsOk(e, t)
  {
    forall g | g in t.gcs ensures SweepOk(e, t, t.gcs[g]) {
      if g in s.gcs && t.gcs[g] == s.gcs[g] {
        assert SweepOk(e, s, s.gcs[g]);
        forall i | 0 <= i < |t.gcs[g].keys| && e.timely(t.gcs[g].keys[i]) ensures Dead(t, t.gcs[g].keys[i]) {
          assert Dead(s, s.gcs[g].keys[i]);
          RecordedKept(s, t, s.gcs[g].keys[i]);
        }
      }
    }
  }

  lemma SeqAside(s: State, q: nat, d: SeqAction, t: State)
    requires q in s.sequencers && SeqEnabled(s, q, s.sequencers[q], d) && t == SeqStep(s, q, d) && SequencersOk(s)
    ensures Aside(s, t) && t.gcs == s.gcs && t.clock == s.clock
  {
    if d.CommitSeq? { CatalogSteps.CommitSeqRows(s, q, t); }
  }

  lemma SpawnKeeps(e: Env, s: State, w: nat, req: Request, t: State)
    requires Enabled(e, s, Spawn(w, req)) && t == Apply(e, s, Spawn(w, req))
    requires Storage(e, s)
    ensures Storage(e, t)
  {
    ObjectsKept(e, s, t);
    forall v | v in t.writers ensures KeyOk(e, t, t.writers[v]) {
      if v != w { KeyKept(e, s, t, s.writers[v]); }
    }
    forall k | Dead(s, k) ensures Dead(t, k) { RecordedKept(s, t, k); }
    SweepsKept(e, s, t);
  }

  lemma TouchKeeps(e: Env, s: State, w: nat, a: WriterAction, t: State)
    requires w in s.writers && WriterEnabled(e, s, s.writers[w], a) && !Idle(a) && t == WriterStep(e, s, w, a)
    requires RowsOk(s) && WritersOk(s) && Storage(e, s)
    ensures Storage(e, t)
  {
    if a.InsertPending? { InsertPendingKeeps(e, s, w, a, t); }
    else if a.StartPut? { StartPutKeeps(e, s, w, a, t); }
    else if a.CommitTx? { CommitKeeps(e, s, w, a, t); }
    else if a.applied { CleanupKeeps(e, s, w, a, t); }
    else { NoCleanupKeeps(e, s, w, a, t); }
  }

  lemma WriterKeeps(e: Env, s: State, w: nat, a: WriterAction, t: State)
    requires w in s.writers && WriterEnabled(e, s, s.writers[w], a) && t == WriterStep(e, s, w, a)
    requires RowsOk(s) && WritersOk(s) && Storage(e, s)
    ensures Storage(e, t)
  {
    if Idle(a) {
      IdleMoved(e, s, w, a, t);
      MovedKeeps(e, s, t, w);
    } else {
      TouchKeeps(e, s, w, a, t);
    }
  }

  lemma AsideStep(e: Env, s: State, a: Action, t: State)
    requires a.StartGc? || a.StopGc? || a.StartSeq? || a.BySeq? || a.Tick?
    requires Enabled(e, s, a) && t == Apply(e, s, a) && SequencersOk(s)
    ensures Aside(s, t)
    ensures a.Tick? || t.clock == s.clock
    ensures forall g :: g in t.gcs ==> (g in s.gcs && t.gcs[g] == s.gcs[g]) || t.gcs[g] == Gc(s.clock - e.grace, [], Scan)
  {
    if a.BySeq? { SeqAside(s, a.q, a.d, t); }
  }

  lemma StorageStep(e: Env, s: State, a: Action, t: State)
    requires Enabled(e, s, a) && t == Apply(e, s, a)
    requires Core(s) && Storage(e, s)
    ensures Storage(e, t)
  {
    match a
    case Spawn(w, req) => SpawnKeeps(e, s, w, req, t);
    case ByWriter(w, b) => WriterKeeps(e, s, w, b, t);
    case PutLands(k) => LandsKeeps(e, s, k, t);
    case PutVanishes(k) => VanishKeeps(e, s, k, t);
    case ByGc(g, b) => GcKeeps(e, s, g, b, t);
    case _ =>
      AsideStep(e, s, a, t);
      AsideKeeps(e, s, t);
      AsideSweeps(e, s, t);
  }
}
