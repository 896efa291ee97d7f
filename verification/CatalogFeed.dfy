/** The feed over whole runs: offsets are gap-free and stable, readers miss nothing, and a
    short batch leaves no row of its snapshot unsequenced. */
module CatalogFeed {
  import opened Wrappers
  import opened Catalog
  import opened CatalogCore
  import CatalogSteps
  import CatalogStorageSteps
  import opened CatalogTheorems
  import opened Poll

  // ---------- rows and offsets only grow ----------

  ghost predicate RowGrows(s: State, t: State, id: nat)
    requires id in s.files
  {
    && id in t.files && t.files[id] == s.files[id].(feedSeq := t.files[id].feedSeq)
    && (s.files[id].feedSeq.Some? ==> t.files[id].feedSeq == s.files[id].feedSeq)
  }

  ghost predicate Grows(s: State, t: State)
  {
    s.tip <= t.tip && forall id :: id in s.files ==> RowGrows(s, t, id)
  }

  lemma SeqGrows(s: State, q: nat, t: State)
    requires q in s.sequencers && s.sequencers[q].Assigned? && t == SeqStep(s, q, CommitSeq) && SequencersOk(s)
    ensures Grows(s, t)
  {
    CatalogSteps.CommitSeqRows(s, q, t);
    assert AssignmentOk(s, s.sequencers[q]);
    forall id | id in s.files ensures RowGrows(s, t, id) {
      assert s.files[id].feedSeq.Some? ==> id !in s.sequencers[q].picked;
    }
  }

  lemma WriterGrows(e: Env, s: State, w: nat, a: WriterAction, t: State)
    requires w in s.writers && WriterEnabled(e, s, s.writers[w], a) && t == WriterStep(e, s, w, a) && WritersOk(s)
    ensures Grows(s, t)
  {
    assert WriterOk(s, w, s.writers[w]);
    if a.CommitTx? { CatalogStorageSteps.CommitMoves(e, s, w, a, t); }
    else if CatalogSteps.Quiet(a) { CatalogSteps.QuietTables(e, s, w, a, t); }
    else { CatalogSteps.GainTables(e, s, w, a, t); }
  }

  lemma OtherGrows(e: Env, s: State, a: Action, t: State)
    requires Step(e, s, a, t) && !a.ByWriter? && !(a.BySeq? && a.d.CommitSeq?)
    ensures Grows(s, t)
  {
    if a.BySeq? { SeqKeepsFiles(s, a.q, a.d, t); }
    else if !a.Spawn? && !a.StartSeq? { CatalogSteps.OtherTables(e, s, a, t); }
    SameFilesGrow(s, t);
  }

  lemma SeqKeepsFiles(s: State, q: nat, d: SeqAction, t: State)
    requires q in s.sequencers && SeqEnabled(s, q, s.sequencers[q], d) && t == SeqStep(s, q, d) && !d.CommitSeq?
    ensures t.files == s.files && t.tip == s.tip
  {
  }

  lemma SameFilesGrow(s: State, t: State)
    requires t.files == s.files && t.tip == s.tip
    ensures Grows(s, t)
  {
    forall id | id in s.files ensures RowGrows(s, t, id) {}
  }

  lemma StepGrows(e: Env, s: State, t: State)
    requires Next(e, s, t) && WritersOk(s) && SequencersOk(s)
    ensures Grows(s, t)
  {
    var a :| Step(e, s, a, t);
    if a.ByWriter? { WriterGrows(e, s, a.w, a.a, t); }
    else if a.BySeq? && a.d.CommitSeq? { SeqGrows(s, a.q, t); }
    else { OtherGrows(e, s, a, t); }
  }

  lemma {:induction false} RunGrows(e: Env, run: seq<State>, i: nat)
    requires IsRun(e, run) && i < |run| && Core(run[0])
    ensures Grows(run[0], run[i]) && Core(run[i])
  {
    RunKeepsCore(e, run, i);
    if i > 0 {
      RunGrows(e, run, i - 1);
      assert Next(e, run[i - 1], run[i - 1 + 1]);
      StepGrows(e, run[i - 1], run[i]);
      GrowsOn(run[0], run[i - 1], run[i]);
    }
  }

  lemma GrowsOn(s: State, t: State, u: State)
    requires Grows(s, t) && Grows(t, u)
    ensures Grows(s, u)
  {
    forall id | id in s.files ensures RowGrows(s, u, id) {
      assert RowGrows(s, t, id) && RowGrows(t, u, id);
    }
  }

  lemma LeadsGrows(e: Env, s: State, t: State)
    requires Reachable(e, s) && Leads(e, s, t)
    ensures Grows(s, t) && Core(s) && Core(t)
  {
    ReachableCore(e, s);
    var run :| IsRun(e, run) && run[0] == s && run[|run| - 1] == t;
    RunGrows(e, run, |run| - 1);
  }

  // ---------- the feed as a sequence ----------

  // Row f[i] has offset i + 1.
  ghost predicate IsFeed(s: State, f: seq<nat>)
  {
    |f| == s.tip && forall i :: 0 <= i < |f| ==> f[i] in s.files && s.files[f[i]].feedSeq == Some(i + 1)
  }

  lemma {:induction false} FeedUpTo(s: State, n: nat) returns (f: seq<nat>)
    requires FeedOk(s) && n <= s.tip
    ensures |f| == n && forall i :: 0 <= i < |f| ==> f[i] in s.files && s.files[f[i]].feedSeq == Some(i + 1)
  {
    if n == 0 {
      f := [];
    } else {
      f := FeedUpTo(s, n - 1);
      assert HasSeq(s, n);
      var id :| id in s.files && s.files[id].feedSeq == Some(n);
      f := f + [id];
    }
  }

  /** In every reachable state the sequenced rows have the offsets 1..tip, each once: they
      form one sequence, and every sequenced row is in it. */
  lemma FeedIsGapFree(e: Env, s: State) returns (f: seq<nat>)
    requires Reachable(e, s)
    ensures IsFeed(s, f)
    ensures forall id :: id in s.files && s.files[id].feedSeq.Some? ==>
              1 <= s.files[id].feedSeq.value <= s.tip && f[s.files[id].feedSeq.value - 1] == id
  {
    ReachableCore(e, s);
    f := FeedUpTo(s, s.tip);
  }

  /** Later states only append to the feed: an assigned offset never changes file, and
      nothing is ever inserted below the tip. */
  lemma FeedOnlyAppends(e: Env, s: State, t: State, f: seq<nat>, g: seq<nat>)
    requires Reachable(e, s) && Leads(e, s, t) && IsFeed(s, f) && IsFeed(t, g)
    ensures f <= g
  {
    LeadsGrows(e, s, t);
    GrowingFeed(s, t, f, g);
  }

  lemma GrowingFeed(s: State, t: State, f: seq<nat>, g: seq<nat>)
    requires Grows(s, t) && FeedOk(t) && IsFeed(s, f) && IsFeed(t, g)
    ensures f <= g
  {
    forall i | 0 <= i < |f| ensures f[i] == g[i] {
      assert RowGrows(s, t, f[i]);
      assert g[i] in t.files && t.files[g[i]].feedSeq == Some(i + 1);
    }
    assert g[..|f|] == f;
  }

  // ---------- pollers ----------

  // The result of PollFilesSQL: the rows with since <= feed_seq < until, by feed_seq.
  ghost predicate IsSelected(s: State, since: int, until: int, ids: seq<nat>)
  {
    && (forall i :: 0 <= i < |ids| ==> ids[i] in s.files && s.files[ids[i]].feedSeq.Some? && since <= s.files[ids[i]].feedSeq.value < until)
    && (forall i, j :: 0 <= i < j < |ids| ==> s.files[ids[i]].feedSeq.value < s.files[ids[j]].feedSeq.value)
    && (forall id :: id in s.files && s.files[id].feedSeq.Some? && since <= s.files[id].feedSeq.value < until ==> id in ids)
  }

  // Strictly rising offsets that take every value of a window are consecutive.
  lemma {:induction false} RisingWithoutGaps(xs: seq<int>, lo: int, k: nat)
    requires k < |xs| && (forall i, j :: 0 <= i < j < |xs| ==> xs[i] < xs[j])
    requires forall i :: 0 <= i < |xs| ==> lo <= xs[i]
    requires forall n :: lo <= n <= xs[k] ==> n in xs
    ensures xs[k] == lo + k
  {
    if k == 0 {
      assert lo in xs;
    } else {
      forall n | lo <= n <= xs[k - 1] ensures n in xs { assert xs[k - 1] < xs[k]; }
      RisingWithoutGaps(xs, lo, k - 1);
      assert xs[k - 1] + 1 in xs;
      var i :| 0 <= i < |xs| && xs[i] == xs[k - 1] + 1;
      assert i > k - 1;
    }
  }

  predicate IsRow(f: seq<nat>, offset: int, id: nat)
  {
    1 <= offset <= |f| && f[offset - 1] == id
  }

  lemma SelectedAt(s: State, f: seq<nat>, since: int, until: int, ids: seq<nat>, k: nat)
    requires FeedOk(s) && IsFeed(s, f) && IsSelected(s, since, until, ids) && k < |ids|
    ensures IsRow(f, Max(since, 1) + k, ids[k])
  {
    var lo := Max(since, 1);
    var xs := seq(|ids|, i requires 0 <= i < |ids| => s.files[ids[i]].feedSeq.value);
    forall n | lo <= n <= xs[k] ensures n in xs {
      assert f[n - 1] in ids;
      var i :| 0 <= i < |ids| && ids[i] == f[n - 1];
      assert xs[i] == n;
    }
    RisingWithoutGaps(xs, lo, k);
    assert s.files[f[xs[k] - 1]].feedSeq == Some(xs[k]);
  }

  /** The SELECT of Poll returns a contiguous stretch of the feed. */
  lemma SelectIsWindow(s: State, f: seq<nat>, since: int, until: int, ids: seq<nat>)
    requires FeedOk(s) && IsFeed(s, f) && IsSelected(s, since, until, ids)
    ensures ids == Window(f, since, until)
  {
    forall k | 0 <= k < |ids| ensures IsRow(f, Max(since, 1) + k, ids[k]) { SelectedAt(s, f, since, until, ids, k); }
    WindowSize(s, f, since, until, ids);
    var w := Window(f, since, until);
    forall k | 0 <= k < |ids| ensures ids[k] == w[k] {
      assert IsRow(f, Max(since, 1) + k, ids[k]);
    }
  }

  lemma WindowSize(s: State, f: seq<nat>, since: int, until: int, ids: seq<nat>)
    requires IsFeed(s, f) && IsSelected(s, since, until, ids)
    requires forall k :: 0 <= k < |ids| ==> IsRow(f, Max(since, 1) + k, ids[k])
    ensures |ids| == |Window(f, since, until)|
  {
    var n, w := |ids|, |Window(f, since, until)|;
    if n > 0 { assert s.files[ids[n - 1]].feedSeq == Some(Max(since, 1) + n - 1); }
    if w > 0 { WindowCovered(s, f, since, until, ids, w - 1); }
  }

  lemma WindowCovered(s: State, f: seq<nat>, since: int, until: int, ids: seq<nat>, m: nat)
    requires IsFeed(s, f) && IsSelected(s, since, until, ids) && m < |Window(f, since, until)|
    requires forall k :: 0 <= k < |ids| ==> IsRow(f, Max(since, 1) + k, ids[k])
    ensures m < |ids|
  {
    var lo := Max(since, 1);
    var row := f[lo + m - 1];
    assert s.files[row].feedSeq == Some(lo + m) && row in ids;
    var i :| 0 <= i < |ids| && ids[i] == row;
    assert s.files[f[lo + i - 1]].feedSeq == Some(lo + i);
  }

  /** A reader holding the `next` of a poll never sees a new row below it: in every later
      state the range it has consumed selects the very same rows. */
  lemma ReaderMissesNothing(e: Env, s: State, t: State, since: int, until: int, ids: seq<nat>, again: seq<nat>)
    requires Reachable(e, s) && Leads(e, s, t) && since <= until
    requires IsSelected(s, since, until, ids) && IsSelected(t, since, NextOffset(since, ids), again)
    ensures again == ids
  {
    LeadsGrows(e, s, t);
    var f := FeedUpTo(s, s.tip);
    var g := FeedUpTo(t, t.tip);
    FeedOnlyAppends(e, s, t, f, g);
    SelectIsWindow(s, f, since, until, ids);
    SelectIsWindow(t, g, since, NextOffset(since, ids), again);
    WindowOfPrefix(f, g, since, until);
  }

  // ---------- draining ----------

  /** A batch shorter than asked for drains: once it is committed, no row of the snapshot
      that the assignment read is left without an offset. */
  lemma ShortBatchDrains(e: Env, s: State, q: nat, base: nat, picked: seq<nat>, batch: nat, u: State, t: State)
    requires Reachable(e, s) && q in s.sequencers && SeqEnabled(s, q, s.sequencers[q], Assign(base, picked, batch))
    requires |picked| < batch
    requires Leads(e, s, u) && q in u.sequencers && u.sequencers[q] == Assigned(base, picked) && t == SeqStep(u, q, CommitSeq)
    ensures forall id :: id in s.files ==> id in t.files && t.files[id].feedSeq.Some?
  {
    LeadsGrows(e, s, u);
    CatalogSteps.CommitSeqRows(u, q, t);
    BatchCovers(s, u, t, picked, batch);
  }

  lemma BatchCovers(s: State, u: State, t: State, picked: seq<nat>, batch: nat)
    requires IsBatch(s, picked, batch) && |picked| < batch && Grows(s, u)
    requires t.files.Keys == u.files.Keys && forall id :: id in u.files && id !in picked ==> t.files[id] == u.files[id]
    requires forall i :: 0 <= i < |picked| ==> picked[i] in t.files && t.files[picked[i]].feedSeq.Some?
    ensures forall id :: id in s.files ==> id in t.files && t.files[id].feedSeq.Some?
  {
    forall id | id in s.files ensures id in t.files && t.files[id].feedSeq.Some? {
      assert RowGrows(s, u, id);
      if id in picked {
        var i :| 0 <= i < |picked| && picked[i] == id;
      } else {
        assert !Unsequenced(s, id);
      }
    }
  }

  // The snapshot's offsets are all taken, so a waiting row got its own from this batch.
  lemma NumberedByBatch(s: State, u: State, q: nat, t: State, id: nat)
    requires FeedOk(s) && FeedOk(u) && SequencersOk(u) && Grows(s, u) && s.tip == u.tip
    requires q in u.sequencers && u.sequencers[q].Assigned? && t == SeqStep(u, q, CommitSeq)
    requires id in s.files && s.files[id].feedSeq.None? && id in t.files && t.files[id].feedSeq.Some?
    ensures id in u.sequencers[q].picked
  {
    CatalogSteps.CommitSeqRows(u, q, t);
    StillWaiting(s, u, id);
  }

  lemma StillWaiting(s: State, u: State, id: nat)
    requires FeedOk(s) && FeedOk(u) && Grows(s, u) && s.tip == u.tip && id in s.files && s.files[id].feedSeq.None?
    ensures id in u.files && u.files[id].feedSeq.None?
  {
    assert RowGrows(s, u, id);
    forall n: nat | HasSeq(s, n) ensures u.files[id].feedSeq != Some(n) {
      var other :| other in s.files && s.files[other].feedSeq == Some(n);
      assert RowGrows(s, u, other);
    }
    assert forall n: nat :: 1 <= n <= s.tip ==> HasSeq(s, n);
  }

  lemma TipStood(s: State, q: nat, base: nat, picked: seq<nat>, batch: nat, u: State)
    requires FeedOk(s) && q in s.sequencers && SeqEnabled(s, q, s.sequencers[q], Assign(base, picked, batch))
    requires SequencersOk(u) && q in u.sequencers && u.sequencers[q] == Assigned(base, picked)
    ensures u.tip == s.tip == base
  {
    MaxIsTip(s, base);
    assert AssignmentOk(u, u.sequencers[q]);
  }

  /** Oldest first: of two rows that were waiting in the snapshot that an assignment read, the
      one written earlier, or under the smaller file_id at the same time, gets the smaller
      offset, and the later one gets none unless the earlier one does. */
  lemma OldestFirst(e: Env, s: State, q: nat, base: nat, picked: seq<nat>, batch: nat, u: State, t: State, a: nat, b: nat)
    requires Reachable(e, s) && q in s.sequencers && SeqEnabled(s, q, s.sequencers[q], Assign(base, picked, batch))
    requires Leads(e, s, u) && q in u.sequencers && u.sequencers[q] == Assigned(base, picked) && t == SeqStep(u, q, CommitSeq)
    requires a in s.files && b in s.files && s.files[a].feedSeq.None? && s.files[b].feedSeq.None?
    requires s.files[a].writtenAt < s.files[b].writtenAt || (s.files[a].writtenAt == s.files[b].writtenAt && a < b)
    ensures a in t.files && b in t.files
    ensures t.files[b].feedSeq.Some? ==> t.files[a].feedSeq.Some? && t.files[a].feedSeq.value < t.files[b].feedSeq.value
  {
    LeadsGrows(e, s, u);
    TipStood(s, q, base, picked, batch, u);
    assert RowGrows(s, u, a) && RowGrows(s, u, b);
    CatalogSteps.CommitSeqRows(u, q, t);
    hide Reachable, Leads, RowsOk, PartitionsOk, WritersOk, ResultsOk;
    if t.files[b].feedSeq.Some? {
      NumberedByBatch(s, u, q, t, b);
      BatchInOrder(s, picked, batch, a, b);
    }
  }

  lemma BatchInOrder(s: State, picked: seq<nat>, batch: nat, a: nat, b: nat)
    requires IsBatch(s, picked, batch) && Unsequenced(s, a) && Unsequenced(s, b) && b in picked
    requires s.files[a].writtenAt < s.files[b].writtenAt || (s.files[a].writtenAt == s.files[b].writtenAt && a < b)
    ensures exists i, j :: 0 <= i < j < |picked| && picked[i] == a && picked[j] == b
  {
    var j :| 0 <= j < |picked| && picked[j] == b;
    assert !Earlier(s, b, a);
    var i :| 0 <= i < |picked| && picked[i] == a;
    assert i < j;
  }

  /** A batch takes no more rows than asked for, and fewer only when no row of the snapshot is
      left without an offset. */
  lemma BatchFills(e: Env, s: State, q: nat, base: nat, picked: seq<nat>, batch: nat, u: State, t: State, id: nat)
    requires Reachable(e, s) && q in s.sequencers && SeqEnabled(s, q, s.sequencers[q], Assign(base, picked, batch))
    requires Leads(e, s, u) && q in u.sequencers && u.sequencers[q] == Assigned(base, picked) && t == SeqStep(u, q, CommitSeq)
    ensures s.tip <= t.tip <= s.tip + batch
    ensures id in s.files && id in t.files && t.files[id].feedSeq.None? ==> t.tip == s.tip + batch
  {
    LeadsGrows(e, s, u);
    TipStood(s, q, base, picked, batch, u);
    if |picked| < batch { ShortBatchDrains(e, s, q, base, picked, batch, u, t); }
  }

  /** Sequencers take turns: past the lock statement there is at most one. */
  lemma OneSequencerAtATime(e: Env, s: State, q: nat, r: nat)
    requires Reachable(e, s) && q in s.sequencers && r in s.sequencers
    requires !s.sequencers[q].WaitLock? && !s.sequencers[r].WaitLock?
    ensures q == r
  {
    ReachableCore(e, s);
  }
}
