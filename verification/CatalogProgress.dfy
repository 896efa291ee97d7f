/** The other half of the write protocol's safety: what it lets happen. */
module CatalogProgress {
  import opened Wrappers
  import opened KeyCodec
  import opened Catalog
  import opened CatalogCore
  import opened CatalogTheorems

  lemma Go(e: Env, first: State, s: State, a: Action) returns (t: State)
    requires Leads(e, first, s) && Enabled(e, s, a)
    ensures t == Apply(e, s, a) && Leads(e, first, t)
  {
    t := Apply(e, s, a);
    LeadsOneMore(e, first, s, a, t);
  }

  // ---------- optimistic concurrency ----------

  /** The version check, both ways: a write with an expected version meets a conflict exactly
      if that is not the partition's current version, where 0 stands for a partition without a
      row, and goes through exactly if it is and nobody holds the partition's lock. A write
      without one never meets a conflict. */
  lemma OccDecides(e: Env, s: State, w: nat)
    requires Reachable(e, s) && w in s.writers && s.writers[w].pc.Upsert?
    ensures var req := s.writers[w].req;
      && (WriterEnabled(e, s, s.writers[w], UpsertConflict) <==> req.wantVersion.Some? && req.wantVersion.value != Current(s, req.part))
      && (WriterEnabled(e, s, s.writers[w], UpsertRow) <==>
            req.part !in s.locks && (req.wantVersion.Some? ==> req.wantVersion.value == Current(s, req.part)))
  {
    ReachableCore(e, s);
  }

  // ---------- a write can commit ----------

  // The row, object and answer of a write that makes the next version.
  function FileFor(s: State, req: Request, key: string): FileRow
  {
    FileRow(key, req.part, Current(s, req.part) + 1, req.token, s.clock,
            req.recordCount, req.uncompressed, req.fileSize, req.wantVersion, req.tuples, None)
  }

  function ObjectFor(s: State, req: Request): Object
  {
    Object(req.token, req.recordCount, req.uncompressed, Current(s, req.part) + 1, req.fileSize)
  }

  // Nothing stands in the way of a new write.
  ghost predicate Welcome(s: State, w: nat, req: Request)
  {
    && w !in s.writers && req.part != "" && req.part !in s.locks && !TokenTaken(s, req.part, req.token)
    && (req.wantVersion.Some? ==> req.wantVersion.value == Current(s, req.part))
  }

  // The new writer at `pc`, with what it has by then.
  function At(s: State, req: Request, key: string, pc: WriterPc): Writer
  {
    Writer(req, pc, key, s.clock, s.clock, if Holds(pc) then Current(s, req.part) + 1 else 0, if HasRow(pc) then s.nextId else 0)
  }

  lemma WriterGoes(e: Env, first: State, s: State, w: nat, a: WriterAction) returns (t: State)
    requires Leads(e, first, s) && w in s.writers && WriterEnabled(e, s, s.writers[w], a)
    ensures Leads(e, first, t)
    ensures t == WriterEffect(e, s, w, s.writers[w], a).(writers := s.writers[w := NextWriter(e, s, s.writers[w], a)])
  {
    t := Go(e, first, s, ByWriter(w, a));
  }

  // Some of the steps, spelled out.
  lemma RowLocks(e: Env, first: State, s: State, w: nat) returns (t: State)
    requires Leads(e, first, s) && w in s.writers && WriterEnabled(e, s, s.writers[w], UpsertRow)
    ensures Leads(e, first, t)
    ensures var x := s.writers[w];
      t == s.(locks := s.locks[x.req.part := w], writers := s.writers[w := x.(pc := InsertFile, version := Current(s, x.req.part) + 1)])
  {
    t := WriterGoes(e, first, s, w, UpsertRow);
  }

  lemma RowGoesIn(e: Env, first: State, s: State, w: nat) returns (t: State)
    requires Leads(e, first, s) && w in s.writers && WriterEnabled(e, s, s.writers[w], InsertRow)
    ensures Leads(e, first, t) && t == s.(nextId := s.nextId + 1, writers := s.writers[w := s.writers[w].(pc := Put, fileId := s.nextId)])
  {
    t := WriterGoes(e, first, s, w, InsertRow);
    t := WriterGoes(e, first, t, w, BuildMeta);
    assert t.writers == s.writers[w := s.writers[w].(pc := Put, fileId := s.nextId)];
  }

  lemma PutStarts(e: Env, first: State, s: State, w: nat) returns (t: State)
    requires Leads(e, first, s) && w in s.writers && s.writers[w].pc.Put?
    ensures Leads(e, first, t)
    ensures var x := s.writers[w];
      t == s.(uploads := s.uploads[x.key := Upload(WriterObject(x), x.since)], writers := s.writers[w := x.(pc := Putting)])
  {
    t := WriterGoes(e, first, s, w, StartPut);
  }

  lemma PutArrives(e: Env, first: State, s: State, k: string) returns (t: State)
    requires Leads(e, first, s) && k in s.uploads
    ensures Leads(e, first, t) && t == s.(s3 := s.s3[k := s.uploads[k].body], uploads := s.uploads - {k})
  {
    hide Leads;
    t := Go(e, first, s, PutLands(k));
  }

  lemma ObjectLands(e: Env, first: State, s: State, w: nat) returns (t: State)
    requires Leads(e, first, s) && w in s.writers && s.writers[w].pc.Put?
    ensures Leads(e, first, t)
    ensures var x := s.writers[w];
      t == s.(s3 := s.s3[x.key := WriterObject(x)], uploads := s.uploads - {x.key}, writers := s.writers[w := x.(pc := Putting)])
  {
    hide Leads, WriterObject;
    var u := PutStarts(e, first, s, w);
    t := PutArrives(e, first, u, s.writers[w].key);
    assert t.uploads == s.uploads - {s.writers[w].key};
  }

  lemma TailRuns(e: Env, first: State, s: State, w: nat) returns (t: State)
    requires Leads(e, first, s) && w in s.writers && WriterEnabled(e, s, s.writers[w], PutOk)
    ensures Leads(e, first, t) && t == s.(writers := s.writers[w := s.writers[w].(pc := Commit)])
  {
    t := WriterGoes(e, first, s, w, PutOk);
    t := WriterGoes(e, first, t, w, TailSql);
    assert t.writers == s.writers[w := s.writers[w].(pc := Commit)];
  }

  lemma WriteOpens(e: Env, s: State, w: nat, req: Request, u: string, k: string) returns (t: State)
    requires Welcome(s, w, req) && SlashFree(u) && k == DataKey(e.prefix, req.part, u) && k !in s.used
    ensures Leads(e, s, t)
    ensures t == s.(writers := s.writers[w := At(s, req, k, Upsert)], pending := s.pending[k := s.clock], used := s.used + {k})
  {
    hide SlashFree, DataKey, Leads;
    LeadsNowhere(e, s);
    t := Go(e, s, s, Spawn(w, req));
    hide Apply, Enabled;
    assert !TokenTaken(t, req.part, req.token);
    t := WriterGoes(e, s, t, w, LookupMiss);
    t := WriterGoes(e, s, t, w, InsertPending(u, true));
    t := WriterGoes(e, s, t, w, BeginTx);
    assert t.writers == s.writers[w := At(s, req, k, Upsert)];
  }

  lemma UpsertEnabled(e: Env, s: State, t: State, w: nat, req: Request)
    requires PartitionsOk(s) && Welcome(s, w, req) && t.partitions == s.partitions && t.locks == s.locks
    requires w in t.writers && t.writers[w].pc.Upsert? && t.writers[w].req == req
    ensures WriterEnabled(e, t, t.writers[w], UpsertRow) && Current(t, req.part) == Current(s, req.part)
  {
  }

  lemma WriteLocks(e: Env, s: State, w: nat, req: Request, u: string, k: string) returns (t: State)
    requires PartitionsOk(s) && Welcome(s, w, req) && SlashFree(u) && k == DataKey(e.prefix, req.part, u) && k !in s.used
    ensures Leads(e, s, t)
    ensures t == s.(writers := s.writers[w := At(s, req, k, InsertFile)], pending := s.pending[k := s.clock], used := s.used + {k},
                    locks := s.locks[req.part := w])
  {
    hide SlashFree, DataKey, Leads, PartitionsOk, Welcome, Expected, Current, WriterEnabled;
    t := WriteOpens(e, s, w, req, u, k);
    UpsertEnabled(e, s, t, w, req);
    t := RowLocks(e, s, t, w);
    assert t.writers == s.writers[w := At(s, req, k, InsertFile)];
  }

  lemma WriteInserts(e: Env, s: State, w: nat, req: Request, u: string, k: string) returns (t: State)
    requires PartitionsOk(s) && Welcome(s, w, req) && SlashFree(u) && k == DataKey(e.prefix, req.part, u) && k !in s.used
    ensures Leads(e, s, t)
    ensures t == s.(writers := s.writers[w := At(s, req, k, Put)], pending := s.pending[k := s.clock], used := s.used + {k},
                    locks := s.locks[req.part := w], nextId := s.nextId + 1)
  {
    t := WriteLocks(e, s, w, req, u, k);
    hide SlashFree, DataKey, Leads, PartitionsOk;
    assert !TokenTaken(t, req.part, req.token);
    assert WriterEnabled(e, t, t.writers[w], InsertRow);
    hide WriterEnabled, TokenTaken, Welcome, Expected, Current;
    t := RowGoesIn(e, s, t, w);
    assert t.writers == s.writers[w := At(s, req, k, Put)];
  }

  lemma WritePuts(e: Env, s: State, w: nat, req: Request, u: string, k: string) returns (t: State)
    requires PartitionsOk(s) && Welcome(s, w, req) && SlashFree(u) && k == DataKey(e.prefix, req.part, u) && k !in s.used
    ensures Leads(e, s, t)
    ensures t == s.(writers := s.writers[w := At(s, req, k, Putting)], pending := s.pending[k := s.clock], used := s.used + {k},
                    locks := s.locks[req.part := w], nextId := s.nextId + 1, s3 := s.s3[k := ObjectFor(s, req)], uploads := s.uploads - {k})
  {
    hide SlashFree, DataKey, Leads, PartitionsOk, Welcome, Current;
    t := WriteInserts(e, s, w, req, u, k);
    t := ObjectLands(e, s, t, w);
    assert t.writers == s.writers[w := At(s, req, k, Putting)];
  }

  lemma WriteReady(e: Env, s: State, w: nat, req: Request, u: string, k: string) returns (t: State)
    requires PartitionsOk(s) && Welcome(s, w, req) && SlashFree(u) && k == DataKey(e.prefix, req.part, u) && k !in s.used
    ensures Leads(e, s, t)
    ensures t == s.(writers := s.writers[w := At(s, req, k, Commit)], pending := s.pending[k := s.clock], used := s.used + {k},
                    locks := s.locks[req.part := w], nextId := s.nextId + 1, s3 := s.s3[k := ObjectFor(s, req)], uploads := s.uploads - {k})
  {
    hide SlashFree, DataKey, Leads, PartitionsOk, Welcome, Current;
    t := WritePuts(e, s, w, req, u, k);
    t := TailRuns(e, s, t, w);
    assert t.writers == s.writers[w := At(s, req, k, Commit)];
  }

  // A process that does not exist holds no lock.
  lemma LocksReturn(s: State, t: State, w: nat, req: Request)
    requires WritersOk(s) && Welcome(s, w, req) && t.locks == s.locks[req.part := w]
    ensures Unlock(t, w) == s.locks
  {
  }

  /** In every reachable state a new write whose partition's lock is free, whose token is not
      taken and whose expected version, if it has one, is the current one can run to success.
      It then makes the next version: its row, its object and its tuples are there, its pending
      row and its lock are gone, nothing else has changed, and the caller gets its reference. */
  lemma WriteCanCommit(e: Env, s: State, w: nat, req: Request, u: string) returns (t: State, id: nat)
    requires Reachable(e, s) && Welcome(s, w, req) && SlashFree(u) && DataKey(e.prefix, req.part, u) !in s.used
    ensures Leads(e, s, t) && id !in s.files
    ensures t.files == s.files[id := FileFor(s, req, DataKey(e.prefix, req.part, u))]
    ensures t.s3 == s.s3[DataKey(e.prefix, req.part, u) := ObjectFor(s, req)]
    ensures t.pending == s.pending - {DataKey(e.prefix, req.part, u)} && t.mv == s.mv + req.tuples && t.locks == s.locks
    ensures Current(t, req.part) == Current(s, req.part) + 1 && forall p :: p != req.part ==> Current(t, p) == Current(s, p)
    ensures w in t.writers && t.writers[w].pc == Done(Success(FileRef(id, DataKey(e.prefix, req.part, u), Current(s, req.part) + 1)))
  {
    hide Leads, Reachable, SlashFree, DataKey, WritersOk, PartitionsOk, Welcome, Unlock, TokenTaken, Expected;
    var k := DataKey(e.prefix, req.part, u);
    id := s.nextId;
    TablesAreOk(e, s);
    t := WriteReady(e, s, w, req, u, k);
    LocksReturn(s, t, w, req);
    t := WriteCommits(e, s, t, w, k);
    assert t.pending == s.pending - {k};
  }

  lemma TablesAreOk(e: Env, s: State)
    requires Reachable(e, s)
    ensures WritersOk(s) && PartitionsOk(s) && s.nextId !in s.files
  {
    ReachableCore(e, s);
    assert s.nextId in s.files ==> RowOk(s, s.nextId);
  }

  lemma WriteCommits(e: Env, s: State, u: State, w: nat, k: string) returns (t: State)
    requires Leads(e, s, u) && w in u.writers && u.writers[w].pc.Commit? && u.writers[w].key == k && Unlock(u, w) == s.locks
    ensures Leads(e, s, t) && t.files == u.files[u.writers[w].fileId := NewRow(u.writers[w])] && t.s3 == u.s3
    ensures t.pending == u.pending - {k} && t.mv == u.mv + u.writers[w].req.tuples && t.locks == s.locks
    ensures forall p :: Current(t, p) == if p == u.writers[w].req.part then u.writers[w].version else Current(u, p)
    ensures w in t.writers && t.writers[w].pc == Done(Success(RefOf(u.writers[w].fileId, NewRow(u.writers[w]))))
  {
    t := WriterGoes(e, s, u, w, CommitTx(true));
  }

  // ---------- a retry is answered ----------

  /** While a committed file carries the token, a write that looks it up cannot miss it: the
      only row it can be answered with is that one. */
  lemma RetryFindsFile(e: Env, s: State, w: nat, id: nat)
    requires Reachable(e, s) && w in s.writers && s.writers[w].pc.Lookup? && id in s.files
    requires s.files[id].part == s.writers[w].req.part && s.files[id].token == s.writers[w].req.token != ""
    ensures !WriterEnabled(e, s, s.writers[w], LookupMiss)
    ensures forall other :: WriterEnabled(e, s, s.writers[w], LookupHit(other)) <==> other == id
  {
    assert Matches(s.files[id], s.writers[w].req.part, s.writers[w].req.token);
    forall other ensures WriterEnabled(e, s, s.writers[w], LookupHit(other)) <==> other == id {
      if WriterEnabled(e, s, s.writers[w], LookupHit(other)) { OneFilePerToken(e, s, id, other); }
    }
  }

  // ---------- a drain can finish ----------

  lemma {:induction false} Least(s: State, ids: set<nat>) returns (m: nat)
    requires ids != {} && ids <= s.files.Keys
    ensures m in ids && forall id :: id in ids && id != m ==> Earlier(s, m, id)
  {
    m :| m in ids;
    var first, rest := m, ids - {m};
    if rest != {} {
      var n := Least(s, rest);
      if Earlier(s, n, m) { m := n; }
    }
    forall id | id in ids && id != m ensures Earlier(s, m, id) { assert id == first || id in rest; }
  }

  // The first `batch` rows of a set, in order.
  lemma {:induction false} FirstOf(s: State, ids: set<nat>, batch: nat) returns (picked: seq<nat>)
    requires ids <= s.files.Keys
    ensures |picked| <= batch && |picked| <= |ids| && forall i :: 0 <= i < |picked| ==> picked[i] in ids
    ensures forall i, j :: 0 <= i < j < |picked| ==> Earlier(s, picked[i], picked[j])
    ensures forall id :: id in ids && id !in picked ==> |picked| == batch && forall i :: 0 <= i < |picked| ==> Earlier(s, picked[i], id)
    decreases batch
  {
    picked := [];
    if batch > 0 && ids != {} {
      var m := Least(s, ids);
      var rest := FirstOf(s, ids - {m}, batch - 1);
      picked := [m] + rest;
      forall id | id in ids && id !in picked
        ensures |picked| == batch && forall i :: 0 <= i < |picked| ==> Earlier(s, picked[i], id)
      {
        assert picked[0] == m && id != m && id !in rest;
      }
    }
  }

  function Waiting(s: State): set<nat> { set id | id in s.files && s.files[id].feedSeq.None? }

  lemma BatchExists(s: State, batch: nat) returns (picked: seq<nat>)
    ensures IsBatch(s, picked, batch) && |picked| <= |Waiting(s)|
  {
    picked := FirstOf(s, Waiting(s), batch);
    forall id | Unsequenced(s, id) && id !in picked ensures id in Waiting(s) {}
  }

  lemma TipIsMax(s: State)
    requires FeedOk(s)
    ensures IsMaxSeq(s, s.tip)
  {
    if s.tip > 0 { assert HasSeq(s, s.tip); }
  }

  // The lock statement, on behalf of a new sequencer.
  lemma SequencerLocks(e: Env, s: State, q: nat) returns (t: State)
    requires s.advisory.None? && q !in s.sequencers
    ensures t == s.(sequencers := s.sequencers[q := Locked], advisory := Some(q)) && Leads(e, s, t)
  {
    LeadsNowhere(e, s);
    t := Go(e, s, s, StartSeq(q));
    t := Go(e, s, t, BySeq(q, TakeLock));
    assert t.sequencers == s.sequencers[q := Locked];
  }

  /** Whenever the advisory lock is free, a sequencer can give every committed row that has no
      offset the next ones, and the lock is free again. */
  lemma DrainIsPossible(e: Env, s: State, q: nat) returns (t: State)
    requires Reachable(e, s) && s.advisory.None? && q !in s.sequencers
    ensures Leads(e, s, t) && t.files.Keys == s.files.Keys && t.advisory.None? && t.sequencers == s.sequencers
    ensures forall id :: id in s.files ==> t.files[id].feedSeq.Some?
    ensures t.tip == s.tip + |Waiting(s)|
  {
    ReachableCore(e, s);
    TipIsMax(s);
    var batch := |Waiting(s)| + 1;
    var picked := BatchExists(s, batch);
    AllPicked(s, picked, batch);
    hide Core, Leads;
    var u := SequencerAssigns(e, s, q, picked, batch);
    hide IsBatch, IsMaxSeq;
    t := SequencerCommits(e, s, u, q, s.tip, picked);
    AllNumbered(s, picked);
    hide Waiting, Numbered;
    assert t.sequencers == s.sequencers;
  }

  lemma SequencerCommits(e: Env, first: State, u: State, q: nat, base: nat, picked: seq<nat>) returns (t: State)
    requires Leads(e, first, u) && q in u.sequencers && u.sequencers[q] == Assigned(base, picked)
    ensures Leads(e, first, t)
    ensures t == u.(files := Numbered(u.files, base, picked), tip := u.tip + |picked|, sequencers := u.sequencers - {q}, advisory := None)
  {
    hide Leads;
    t := Go(e, first, u, BySeq(q, CommitSeq));
  }

  lemma AllNumbered(s: State, picked: seq<nat>)
    requires forall id :: id in picked <==> id in Waiting(s)
    requires forall i, j :: 0 <= i < j < |picked| ==> picked[i] != picked[j]
    ensures Numbered(s.files, s.tip, picked).Keys == s.files.Keys
    ensures forall id :: id in s.files ==> Numbered(s.files, s.tip, picked)[id].feedSeq.Some?
  {
    assert forall i :: 0 <= i < |picked| ==> picked[i] in Waiting(s);
    NumberedIs(s.files, s.tip, picked);
    hide Numbered;
    forall id | id in s.files ensures Numbered(s.files, s.tip, picked)[id].feedSeq.Some? {
      if id in picked { var i :| 0 <= i < |picked| && picked[i] == id; }
    }
  }

  lemma SequencerPicks(e: Env, first: State, u: State, q: nat, base: nat, picked: seq<nat>, batch: nat) returns (t: State)
    requires Leads(e, first, u) && q in u.sequencers && u.sequencers[q].Locked? && IsBatch(u, picked, batch) && IsMaxSeq(u, base)
    ensures Leads(e, first, t) && t == u.(sequencers := u.sequencers[q := Assigned(base, picked)])
  {
    hide IsBatch, IsMaxSeq, Leads;
    t := Go(e, first, u, BySeq(q, Assign(base, picked, batch)));
  }

  lemma SequencerAssigns(e: Env, s: State, q: nat, picked: seq<nat>, batch: nat) returns (t: State)
    requires s.advisory.None? && q !in s.sequencers && IsBatch(s, picked, batch) && IsMaxSeq(s, s.tip)
    ensures t == s.(sequencers := s.sequencers[q := Assigned(s.tip, picked)], advisory := Some(q)) && Leads(e, s, t)
  {
    var u := SequencerLocks(e, s, q);
    BatchOnFiles(s, u, picked, batch);
    hide IsBatch, IsMaxSeq, Leads;
    t := SequencerPicks(e, s, u, q, s.tip, picked, batch);
    assert t.sequencers == s.sequencers[q := Assigned(s.tip, picked)];
  }

  lemma BatchOnFiles(s: State, u: State, picked: seq<nat>, batch: nat)
    requires u.files == s.files && IsBatch(s, picked, batch) && IsMaxSeq(s, s.tip)
    ensures IsBatch(u, picked, batch) && IsMaxSeq(u, s.tip)
  {
    forall id | Unsequenced(u, id) && id !in picked ensures |picked| == batch && forall i :: 0 <= i < |picked| ==> Earlier(u, picked[i], id) {
      assert Unsequenced(s, id);
    }
    forall i | 0 <= i < |picked| ensures Unsequenced(u, picked[i]) { assert Unsequenced(s, picked[i]); }
  }

  // With room to spare, a batch takes every waiting row.
  lemma AllPicked(s: State, picked: seq<nat>, batch: nat)
    requires IsBatch(s, picked, batch) && |picked| <= |Waiting(s)| < batch
    ensures (forall id :: id in picked <==> id in Waiting(s)) && |picked| == |Waiting(s)|
    ensures forall i, j :: 0 <= i < j < |picked| ==> picked[i] != picked[j]
  {
    forall id | id in Waiting(s) ensures id in picked { assert Unsequenced(s, id); }
    forall id | id in picked ensures id in Waiting(s) { var i :| 0 <= i < |picked| && picked[i] == id; assert Unsequenced(s, picked[i]); }
    SizeOfSeq(picked, Waiting(s));
  }

  lemma {:induction false} SizeOfSeq(xs: seq<nat>, ids: set<nat>)
    requires forall id :: id in ids ==> id in xs
    ensures |ids| <= |xs|
  {
    if xs == [] {
      assert ids == {};
    } else {
      var rest, last := xs[..|xs| - 1], xs[|xs| - 1];
      assert xs == rest + [last];
      SizeOfSeq(rest, ids - {last});
    }
  }

  // ---------- an orphan can be reclaimed ----------

  /** A pending_writes row older than Grace that no committing transaction has locked can be
      swept away with its object, and with nothing else. */
  lemma OrphanCanBeReclaimed(e: Env, s: State, g: nat, k: string) returns (t: State)
    requires g !in s.gcs && k in s.pending && s.pending[k] + e.grace < s.clock && !RowLocked(s, k)
    ensures Leads(e, s, t) && t == s.(pending := s.pending - {k}, s3 := s.s3 - {k})
  {
    LeadsNowhere(e, s);
    t := Go(e, s, s, StartGc(g));
    t := Go(e, s, t, ByGc(g, ScanPending([k])));
    t := Go(e, s, t, ByGc(g, ObjectDeleted));
    assert !RowLocked(t, k);
    t := Go(e, s, t, ByGc(g, RowDeleted));
    t := Go(e, s, t, StopGc(g));
    assert t.gcs == s.gcs;
  }
}
