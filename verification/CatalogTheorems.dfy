/** Main results about every run of the write protocol. */
module CatalogTheorems {
  import opened KeyCodec
  import opened Catalog
  import opened CatalogCore
  import CatalogSteps
  import opened CatalogStorage
  import CatalogStorageSteps
  import Prepare

  // ---------- runs ----------

  ghost predicate Step(e: Env, s: State, a: Action, t: State)
  {
    Enabled(e, s, a) && t == Apply(e, s, a)
  }

  ghost predicate Next(e: Env, s: State, t: State)
  {
    exists a :: Step(e, s, a, t)
  }

  ghost predicate IsRun(e: Env, run: seq<State>)
  {
    |run| > 0 && forall i :: 0 <= i < |run| - 1 ==> Next(e, run[i], run[i + 1])
  }

  // Some run takes s to t.
  ghost predicate Leads(e: Env, s: State, t: State)
  {
    exists run :: IsRun(e, run) && run[0] == s && run[|run| - 1] == t
  }

  ghost predicate Reachable(e: Env, s: State)
  {
    Leads(e, Init(), s)
  }

  lemma LeadsNowhere(e: Env, s: State)
    ensures Leads(e, s, s)
  {
    var run := [s];
    assert IsRun(e, run) && run[0] == s && run[|run| - 1] == s;
  }

  lemma LeadsOneMore(e: Env, s: State, t: State, a: Action, u: State)
    requires Leads(e, s, t) && Step(e, t, a, u)
    ensures Leads(e, s, u)
  {
    var run :| IsRun(e, run) && run[0] == s && run[|run| - 1] == t;
    var longer := run + [u];
    forall i | 0 <= i < |longer| - 1 ensures Next(e, longer[i], longer[i + 1]) {
      if i == |run| - 1 { assert Next(e, t, u); } else { assert Next(e, run[i], run[i + 1]); }
    }
    assert IsRun(e, longer) && longer[0] == s && longer[|longer| - 1] == u;
  }

  lemma {:induction false} RunKeepsCore(e: Env, run: seq<State>, i: nat)
    requires IsRun(e, run) && i < |run| && Core(run[0])
    ensures Core(run[i])
  {
    if i > 0 {
      RunKeepsCore(e, run, i - 1);
      assert Next(e, run[i - 1], run[i - 1 + 1]);
      var a :| Step(e, run[i - 1], a, run[i]);
      CatalogSteps.CoreStep(e, run[i - 1], a, run[i]);
    }
  }

  ghost predicate Sound(e: Env, s: State) { Core(s) && Storage(e, s) }

  lemma NextKeepsSound(e: Env, s: State, t: State)
    requires Next(e, s, t) && Sound(e, s)
    ensures Sound(e, t)
  {
    var a :| Step(e, s, a, t);
    CatalogSteps.CoreStep(e, s, a, t);
    CatalogStorageSteps.StorageStep(e, s, a, t);
  }

  lemma {:induction false} RunKeepsSound(e: Env, run: seq<State>, i: nat)
    requires IsRun(e, run) && i < |run| && Sound(e, run[0])
    ensures Sound(e, run[i])
  {
    if i > 0 {
      RunKeepsSound(e, run, i - 1);
      assert Next(e, run[i - 1], run[i - 1 + 1]);
      NextKeepsSound(e, run[i - 1], run[i]);
    }
  }

  lemma ReachableCore(e: Env, s: State)
    requires Reachable(e, s)
    ensures Core(s)
  {
    var run :| IsRun(e, run) && run[0] == Init() && run[|run| - 1] == s;
    InitCore();
    RunKeepsCore(e, run, |run| - 1);
  }

  lemma ReachableStorage(e: Env, s: State)
    requires Reachable(e, s)
    ensures Storage(e, s)
  {
    var run :| IsRun(e, run) && run[0] == Init() && run[|run| - 1] == s;
    InitCore();
    InitStorage(e);
    RunKeepsSound(e, run, |run| - 1);
  }

  // ---------- objects and rows ----------

  /** GC never deletes a live file: in every reachable state each committed row of a timely
      write has its object, with the size and metadata that were written, however late other
      writers are. No pending row is left to offer it to a sweep. */
  lemma FilesNeverLost(e: Env, s: State, id: nat)
    requires Reachable(e, s) && id in s.files && e.timely(s.files[id].key)
    ensures s.files[id].key in s.s3 && s.s3[s.files[id].key] == ObjectOf(s.files[id])
    ensures s.files[id].key !in s.pending
  {
    ReachableStorage(e, s);
    assert Stored(e, s, s.files[id]);
  }

  /** No untracked orphan: every object of a timely write is committed or has its
      pending_writes row. So has every such PUT that may still land. */
  lemma NoUntrackedOrphan(e: Env, s: State, k: string)
    requires Reachable(e, s) && (k in s.s3 || k in s.uploads) && e.timely(k)
    ensures k in s.pending || Recorded(s, k)
  {
    ReachableStorage(e, s);
    if k in s.uploads { assert UploadOk(s, k); }
  }

  /** A timely write's key that GC has in hand is out of every writer's reach. */
  lemma SweptKeysAreDead(e: Env, s: State, g: nat, i: nat)
    requires Reachable(e, s) && g in s.gcs && i < |s.gcs[g].keys| && e.timely(s.gcs[g].keys[i])
    ensures Dead(s, s.gcs[g].keys[i])
  {
    ReachableStorage(e, s);
    assert SweepOk(e, s, s.gcs[g]);
  }

  // ---------- idempotency ----------

  /** At most one committed file per partition and non-empty token. */
  lemma OneFilePerToken(e: Env, s: State, a: nat, b: nat)
    requires Reachable(e, s) && a in s.files && b in s.files
    requires s.files[a].part == s.files[b].part && s.files[a].token == s.files[b].token != ""
    ensures a == b
  {
    ReachableCore(e, s);
    assert Matches(s.files[a], s.files[b].part, s.files[b].token);
  }

  /** All writes of one partition and token that ever returned success, whether they
      committed, short-circuited or lost the race, returned the same reference. */
  lemma SameTokenSameAnswer(e: Env, s: State, i: nat, j: nat)
    requires Reachable(e, s) && i < |s.results| && j < |s.results|
    requires s.results[i].part == s.results[j].part && s.results[i].token == s.results[j].token != ""
    ensures s.results[i].ref == s.results[j].ref
  {
    ReachableCore(e, s);
    assert ResultOk(s, s.results[i]) && ResultOk(s, s.results[j]);
    OneFilePerToken(e, s, s.results[i].ref.fileId, s.results[j].ref.fileId);
  }

  /** The re-lookup after losing the UNIQUE race finds the winner's row: coming back empty
      is impossible. */
  lemma RelookFindsWinner(e: Env, s: State, w: nat)
    requires Reachable(e, s) && w in s.writers && s.writers[w].pc.Relook?
    ensures !WriterEnabled(e, s, s.writers[w], RelookMiss)
    ensures exists id :: WriterEnabled(e, s, s.writers[w], RelookHit(id))
  {
    ReachableCore(e, s);
    assert WriterOk(s, w, s.writers[w]);
    LoserSeesWinner(e, s, s.writers[w]);
  }

  lemma LoserSeesWinner(e: Env, s: State, x: Writer)
    requires x.pc.Relook? && TokenTaken(s, x.req.part, x.req.token)
    ensures !WriterEnabled(e, s, x, RelookMiss)
    ensures exists id :: WriterEnabled(e, s, x, RelookHit(id))
  {
    var id :| id in s.files && Matches(s.files[id], x.req.part, x.req.token);
    assert WriterEnabled(e, s, x, RelookHit(id));
  }

  // ---------- versions ----------

  function RowsOf(s: State, p: string): set<nat>
  {
    set id | id in s.files && s.files[id].part == p
  }

  function VersionsOf(s: State, p: string, ids: set<nat>): set<nat>
    requires ids <= s.files.Keys
  {
    set id | id in ids :: s.files[id].version
  }

  function UpTo(n: nat): (r: set<nat>)
    ensures forall k :: k in r <==> 1 <= k <= n
    ensures |r| == n
  {
    if n == 0 then {} else UpTo(n - 1) + {n}
  }

  lemma {:induction false} DistinctVersions(s: State, p: string, ids: set<nat>)
    requires ids <= RowsOf(s, p)
    requires forall a, b :: a in s.files && b in s.files && SameVersion(s.files[a], s.files[b]) ==> a == b
    ensures |VersionsOf(s, p, ids)| == |ids|
  {
    if ids == {} {
      assert VersionsOf(s, p, ids) == {};
    } else {
      var a :| a in ids;
      DistinctVersions(s, p, ids - {a});
      forall b | b in ids - {a} ensures s.files[b].version != s.files[a].version {
        assert !SameVersion(s.files[a], s.files[b]);
      }
      assert VersionsOf(s, p, ids) == VersionsOf(s, p, ids - {a}) + {s.files[a].version};
      assert s.files[a].version !in VersionsOf(s, p, ids - {a});
    }
  }

  lemma VersionsAre(s: State, p: string)
    requires RowsOk(s) && PartitionsOk(s) && p in s.partitions
    ensures VersionsOf(s, p, RowsOf(s, p)) == UpTo(s.partitions[p].version)
  {
    var vs := VersionsOf(s, p, RowsOf(s, p));
    forall n | n in UpTo(s.partitions[p].version) ensures n in vs {
      assert HasVersion(s, p, n);
      var id :| id in s.files && s.files[id].part == p && s.files[id].version == n;
      assert id in RowsOf(s, p);
    }
    forall n | n in vs ensures n in UpTo(s.partitions[p].version) {
      var id :| id in RowsOf(s, p) && s.files[id].version == n;
      assert RowOk(s, id);
    }
  }

  /** The versions of a partition's committed files are exactly 1..v without repeats, and
      v is the row's version, its file_count and the true number of files. A partition
      without a row has no files. */
  lemma VersionsAreDense(e: Env, s: State, p: string)
    requires Reachable(e, s)
    ensures p in s.partitions ==>
      && s.partitions[p].version >= 1
      && VersionsOf(s, p, RowsOf(s, p)) == UpTo(s.partitions[p].version)
      && s.partitions[p].version == s.partitions[p].fileCount == |RowsOf(s, p)|
    ensures p !in s.partitions ==> RowsOf(s, p) == {}
  {
    ReachableCore(e, s);
    if p in s.partitions {
      VersionsAre(s, p);
      DistinctVersions(s, p, RowsOf(s, p));
    } else {
      forall id | id in s.files ensures s.files[id].part != p { assert RowOk(s, id); }
    }
  }

  ghost predicate HasFile(files: seq<Prepare.FileRef>, n: nat)
  {
    exists i :: 0 <= i < |files| && files[i].version == n
  }

  // The rows of one partition as the read path sees them, in any order.
  ghost predicate Lists(s: State, p: string, files: seq<Prepare.FileRef>)
  {
    && (forall i :: 0 <= i < |files| ==> files[i].version >= 0 && HasVersion(s, p, files[i].version))
    && (forall n :: HasVersion(s, p, n) ==> HasFile(files, n))
  }

  /** The Version that a read of a whole partition derives from its files is the
      partition row's version. */
  lemma WholePartitionReadVersion(e: Env, s: State, p: string, files: seq<Prepare.FileRef>)
    requires Reachable(e, s) && p in s.partitions && Lists(s, p, files)
    ensures Prepare.MaxVersion(files) == s.partitions[p].version
  {
    ReachableCore(e, s);
    var v := s.partitions[p].version;
    forall i | 0 <= i < |files| ensures files[i].version <= v {
      assert HasVersion(s, p, files[i].version);
      var id :| id in s.files && s.files[id].part == p && s.files[id].version == files[i].version;
      assert RowOk(s, id);
    }
    assert HasVersion(s, p, v) && HasFile(files, v);
    var i :| 0 <= i < |files| && files[i].version == v;
    MaxBetween(files, v, i);
  }

  lemma MaxBetween(files: seq<Prepare.FileRef>, v: nat, i: nat)
    requires i < |files| && files[i].version == v && forall j :: 0 <= j < |files| ==> files[j].version <= v
    ensures Prepare.MaxVersion(files) == v
  {
    Prepare.MaxVersionIsMax(files);
  }

  /** At most one write with expected version v ever commits in a partition, and it is the
      one that made version v + 1. */
  lemma OccIsExclusive(e: Env, s: State, a: nat, b: nat)
    requires Reachable(e, s) && a in s.files && b in s.files && s.files[a].part == s.files[b].part
    requires s.files[a].wantVersion.Some? && s.files[a].wantVersion == s.files[b].wantVersion
    ensures a == b && s.files[a].version == s.files[a].wantVersion.value + 1
  {
    ReachableCore(e, s);
    assert RowOk(s, a) && RowOk(s, b);
    assert SameVersion(s.files[a], s.files[b]);
  }

  ghost predicate IsCommitOf(s: State, a: Action, p: string)
  {
    a.ByWriter? && a.a.CommitTx? && a.w in s.writers && s.writers[a.w].req.part == p
  }

  lemma OthersLeavePartitions(e: Env, s: State, a: Action, t: State)
    requires Step(e, s, a, t) && !a.ByWriter?
    ensures t.partitions == s.partitions
  {
    if a.BySeq? { SeqLeavesPartitions(s, a.q, a.d, t); }
    else if !a.Spawn? && !a.StartSeq? { CatalogSteps.OtherTables(e, s, a, t); }
  }

  lemma SeqLeavesPartitions(s: State, q: nat, d: SeqAction, t: State)
    requires q in s.sequencers && SeqEnabled(s, q, s.sequencers[q], d) && t == SeqStep(s, q, d)
    ensures t.partitions == s.partitions
  {
  }

  // Partition rows change at a COMMIT only.
  lemma RowsMoveAtCommit(e: Env, s: State, a: Action, t: State)
    requires Step(e, s, a, t) && !(a.ByWriter? && a.a.CommitTx?)
    ensures t.partitions == s.partitions
  {
    if a.ByWriter? {
      if CatalogSteps.Quiet(a.a) { CatalogSteps.QuietTables(e, s, a.w, a.a, t); }
      else { CatalogSteps.GainTables(e, s, a.w, a.a, t); }
    } else {
      OthersLeavePartitions(e, s, a, t);
    }
  }

  /** A partition's version moves only at a commit, by exactly one, and from the version
      the writer asked for if it asked for one. */
  lemma VersionsMoveByOne(e: Env, s: State, a: Action, t: State, p: string)
    requires Reachable(e, s) && Step(e, s, a, t)
    ensures !IsCommitOf(s, a, p) ==> Current(t, p) == Current(s, p)
    ensures IsCommitOf(s, a, p) ==> Current(t, p) == Current(s, p) + 1
    ensures IsCommitOf(s, a, p) && s.writers[a.w].req.wantVersion.Some? ==> Current(s, p) == s.writers[a.w].req.wantVersion.value
  {
    if a.ByWriter? && a.a.CommitTx? {
      ReachableCore(e, s);
      assert WriterOk(s, a.w, s.writers[a.w]);
      CatalogStorageSteps.CommitMoves(e, s, a.w, a.a, t);
    } else {
      RowsMoveAtCommit(e, s, a, t);
    }
  }

  // ---------- materialized views ----------

  /** The views hold every tuple of every committed file and nothing else. */
  lemma ViewsAreExact(e: Env, s: State, u: seq<string>)
    requires Reachable(e, s)
    ensures u in s.mv <==> exists id :: id in s.files && u in s.files[id].tuples
  {
    ReachableCore(e, s);
    if u in s.mv { assert Emitted(s, u); }
    if id :| id in s.files && u in s.files[id].tuples { assert RowOk(s, id); }
  }
}
