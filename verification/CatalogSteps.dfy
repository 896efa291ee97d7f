/** Every step of the write protocol keeps the invariants of the catalog tables, whatever the
    timing.

    A writer's actions fall into those that leave the tables and all claims alone, those by which
    it gains a key, a version under the partition lock, or a row, and COMMIT, which turns its
    claims into rows. The sequencer's COMMIT numbers rows and changes nothing else. GC and the
    clock do not touch the tables. */
module CatalogSteps {
  import opened Wrappers
  import opened KeyCodec
  import opened Catalog
  import opened CatalogCore

  // ---------- a writer that claims nothing new ----------

  // Steps that leave the committed tables as they are and only give claims up.
  predicate Quiet(a: WriterAction)
  {
    !a.InsertPending? && !a.UpsertRow? && !a.InsertRow? && !a.InsertDup? && !a.CommitTx?
  }

  lemma QuietEffect(e: Env, s: State, w: nat, x: Writer, a: WriterAction, t: State)
    requires WriterEnabled(e, s, x, a) && Quiet(a) && t == WriterEffect(e, s, w, x, a)
    ensures t == s.(results := t.results, locks := t.locks, uploads := t.uploads, pending := t.pending)
  {
    match a
    case LookupHit(_) =>
    case RelookHit(_) =>
    case UpsertConflict =>
    case TxFail =>
    case Crash =>
    case StartPut =>
    case Cleanup(_) =>
    case _ =>
  }

  lemma QuietTables(e: Env, s: State, w: nat, a: WriterAction, t: State)
    requires w in s.writers && WriterEnabled(e, s, s.writers[w], a) && Quiet(a) && t == WriterStep(e, s, w, a)
    ensures SameRows(s, t) && t.files == s.files && t.tip == s.tip && t.sequencers == s.sequencers && t.advisory == s.advisory
  {
    QuietEffect(e, s, w, s.writers[w], a, WriterEffect(e, s, w, s.writers[w], a));
  }

  lemma QuietIsWeaker(e: Env, s: State, x: Writer, a: WriterAction)
    requires WriterEnabled(e, s, x, a) && Quiet(a)
    ensures Weaker(x, NextWriter(e, s, x, a))
  {
  }

  lemma QuietLocks(e: Env, s: State, w: nat, a: WriterAction, t: State)
    requires w in s.writers && WriterEnabled(e, s, s.writers[w], a) && Quiet(a) && t == WriterStep(e, s, w, a)
    requires !Holds(s.writers[w].pc) ==> Unlock(s, w) == s.locks
    ensures w in t.writers && t.locks == if Holds(t.writers[w].pc) then s.locks else Unlock(s, w)
  {
    hide TokenTaken, Expected, DataKey, SlashFree, RefOf, Answer, Unlock;
  }

  lemma QuietResults(e: Env, s: State, w: nat, a: WriterAction, t: State)
    requires w in s.writers && WriterEnabled(e, s, s.writers[w], a) && Quiet(a) && t == WriterStep(e, s, w, a)
    requires ResultsOk(s) && SameRows(s, t)
    ensures ResultsOk(t)
  {
    if a.LookupHit? || a.RelookHit? {
      var x := s.writers[w];
      var r := WriteResult(x.req.part, x.req.token, RefOf(a.id, s.files[a.id]));
      assert ResultOk(t, r) && t.results == s.results + [r];
    }
    ResultsKept(s, t);
  }

  lemma QuietKeeps(e: Env, s: State, w: nat, a: WriterAction, t: State)
    requires w in s.writers && WriterEnabled(e, s, s.writers[w], a) && Quiet(a) && t == WriterStep(e, s, w, a)
    requires Core(s)
    ensures Core(t)
  {
    QuietTables(e, s, w, a, t);
    QuietIsWeaker(e, s, s.writers[w], a);
    if !Holds(s.writers[w].pc) { UnlockIdle(s, w); }
    QuietLocks(e, s, w, a, t);
    QuietResults(e, s, w, a, t);
    RowsKept(s, t);
    FeedKept(s, t);
    SequencersKept(s, t);
    WeakerKept(s, t, w);
  }

  // ---------- a writer that gains a claim ----------

  predicate Gains(a: WriterAction)
  {
    a.InsertPending? || a.UpsertRow? || a.InsertRow? || a.InsertDup?
  }

  lemma GainTables(e: Env, s: State, w: nat, a: WriterAction, t: State)
    requires w in s.writers && WriterEnabled(e, s, s.writers[w], a) && Gains(a) && t == WriterStep(e, s, w, a)
    ensures SameRows(s, t) && t.files == s.files && t.tip == s.tip && t.sequencers == s.sequencers && t.advisory == s.advisory
    ensures t.results == s.results && w in t.writers && t.writers == s.writers[w := t.writers[w]]
  {
    match a
    case InsertPending(_, _) =>
    case UpsertRow =>
    case InsertRow =>
    case InsertDup =>
  }

  lemma KeyClaim(e: Env, s: State, w: nat, a: WriterAction, t: State)
    requires w in s.writers && WriterEnabled(e, s, s.writers[w], a) && a.InsertPending? && t == WriterStep(e, s, w, a)
    requires RowsOk(s)
    ensures WriterOk(t, w, t.writers[w])
  {
    forall id | id in s.files ensures s.files[id].key in s.used { assert RowOk(s, id); }
  }

  lemma VersionClaim(e: Env, s: State, w: nat, a: WriterAction, t: State)
    requires w in s.writers && WriterEnabled(e, s, s.writers[w], a) && a.UpsertRow? && t == WriterStep(e, s, w, a)
    requires WriterOk(s, w, s.writers[w])
    ensures WriterOk(t, w, t.writers[w])
  {
  }

  lemma RowClaim(e: Env, s: State, w: nat, a: WriterAction, t: State)
    requires w in s.writers && WriterEnabled(e, s, s.writers[w], a) && (a.InsertRow? || a.InsertDup?) && t == WriterStep(e, s, w, a)
    requires RowsOk(s) && WriterOk(s, w, s.writers[w]) && SameRows(s, t)
    ensures WriterOk(t, w, t.writers[w])
  {
    var x := s.writers[w];
    SameToken(s, t, x.req.part, x.req.token);
    forall id | id in s.files ensures id < s.nextId { assert RowOk(s, id); }
  }

  lemma GainedApart(e: Env, s: State, w: nat, a: WriterAction, t: State, v: nat)
    requires w in s.writers && WriterEnabled(e, s, s.writers[w], a) && Gains(a) && t == WriterStep(e, s, w, a)
    requires WritersOk(s) && v in s.writers && v != w
    ensures Apart(s.writers[v], t.writers[w])
  {
    assert Apart(s.writers[v], s.writers[w]);
    assert WriterOk(s, v, s.writers[v]);
    hide WritersOk;
    if a.InsertPending? { FreshKeyApart(e, s, w, a, t, v); } else { FreshIdApart(e, s, w, a, t, v); }
  }

  lemma FreshKeyApart(e: Env, s: State, w: nat, a: WriterAction, t: State, v: nat)
    requires w in s.writers && WriterEnabled(e, s, s.writers[w], a) && a.InsertPending? && t == WriterStep(e, s, w, a)
    requires v in s.writers && v != w && WriterOk(s, v, s.writers[v]) && Apart(s.writers[v], s.writers[w])
    ensures Apart(s.writers[v], t.writers[w])
  {
    hide TokenTaken, Expected, DataKey, SlashFree, Unlock, Current, WriterEffect;
  }

  lemma FreshIdApart(e: Env, s: State, w: nat, a: WriterAction, t: State, v: nat)
    requires w in s.writers && WriterEnabled(e, s, s.writers[w], a) && Gains(a) && !a.InsertPending? && t == WriterStep(e, s, w, a)
    requires v in s.writers && v != w && WriterOk(s, v, s.writers[v]) && Apart(s.writers[v], s.writers[w])
    ensures Apart(s.writers[v], t.writers[w])
  {
    hide TokenTaken, Expected, DataKey, SlashFree, Unlock, Current, WriterEffect;
  }

  lemma GainKeepsWriters(e: Env, s: State, w: nat, a: WriterAction, t: State)
    requires w in s.writers && WriterEnabled(e, s, s.writers[w], a) && Gains(a) && t == WriterStep(e, s, w, a)
    requires RowsOk(s) && WritersOk(s)
    ensures WritersOk(t)
  {
    GainTables(e, s, w, a, t);
    assert WriterOk(s, w, s.writers[w]);
    if a.InsertPending? { KeyClaim(e, s, w, a, t); }
    else if a.UpsertRow? { VersionClaim(e, s, w, a, t); }
    else { RowClaim(e, s, w, a, t); }
    forall v | v in s.writers && v != w ensures Apart(s.writers[v], t.writers[w]) { GainedApart(e, s, w, a, t, v); }
    if !Holds(s.writers[w].pc) { UnlockIdle(s, w); }
    GainLocks(e, s, w, a, t);
    WritersKept(s, t, w);
  }

  lemma GainLocks(e: Env, s: State, w: nat, a: WriterAction, t: State)
    requires w in s.writers && WriterEnabled(e, s, s.writers[w], a) && Gains(a) && t == WriterStep(e, s, w, a)
    requires !Holds(s.writers[w].pc) ==> Unlock(s, w) == s.locks
    requires forall p :: p in s.locks && s.locks[p] == w ==> Holds(s.writers[w].pc) && s.writers[w].req.part == p
    ensures w in t.writers
    ensures forall p :: p in s.locks && s.locks[p] != w ==> p in t.locks && t.locks[p] == s.locks[p]
    ensures forall p :: p in t.locks ==> LockOk(s, t, w, p)
  {
  }

  lemma GainKeeps(e: Env, s: State, w: nat, a: WriterAction, t: State)
    requires w in s.writers && WriterEnabled(e, s, s.writers[w], a) && Gains(a) && t == WriterStep(e, s, w, a)
    requires Core(s)
    ensures Core(t)
  {
    GainKeepsWriters(e, s, w, a, t);
    GainTables(e, s, w, a, t);
    RowsKept(s, t);
    ResultsKept(s, t);
    FeedKept(s, t);
    SequencersKept(s, t);
  }

  // ---------- COMMIT ----------

  // The state after a writer's commit, as far as the tables go.
  ghost predicate Commits(s: State, w: nat, x: Writer, t: State)
  {
    && w in s.writers && s.writers[w] == x && x.pc.Commit?
    && t.files == s.files[x.fileId := NewRow(x)]
    && t.partitions == Committed(s, w, x).partitions && t.mv == s.mv + x.req.tuples
    && t.nextId == s.nextId && t.used == s.used && t.locks == Unlock(s, w)
    && t.tip == s.tip && t.sequencers == s.sequencers && t.advisory == s.advisory
    && w in t.writers && t.writers == s.writers[w := t.writers[w]]
    && (t.writers[w].pc.Done? || t.writers[w].pc == RolledBack(OtherErr, true))
    && (t.results == s.results || t.results == s.results + [WriteResult(x.req.part, x.req.token, RefOf(x.fileId, NewRow(x)))])
  }

  lemma CommitEmits(s: State, w: nat, x: Writer, t: State)
    requires Commits(s, w, x, t) && (forall u :: u in s.mv ==> Emitted(s, u)) && x.fileId !in s.files
    ensures forall u :: u in t.mv ==> Emitted(t, u)
  {
    forall u | u in t.mv ensures Emitted(t, u) {
      if u in s.mv {
        assert Emitted(s, u);
        var id :| id in s.files && u in s.files[id].tuples;
        assert id in t.files && u in t.files[id].tuples;
      } else {
        assert x.fileId in t.files && u in t.files[x.fileId].tuples;
      }
    }
  }

  lemma CommitRows(s: State, w: nat, x: Writer, t: State)
    requires Commits(s, w, x, t) && RowsOk(s) && WriterOk(s, w, x)
    ensures RowsOk(t)
  {
    forall id | id in t.files ensures RowOk(t, id) { CommitRow(s, w, x, t, id); }
    CommitEmits(s, w, x, t);
    CommitDistinct(s, w, x, t);
  }

  lemma CommitRow(s: State, w: nat, x: Writer, t: State, id: nat)
    requires Commits(s, w, x, t) && RowsOk(s) && WriterOk(s, w, x) && id in t.files
    ensures RowOk(t, id)
  {
    if id != x.fileId { assert RowOk(s, id); }
  }

  lemma CommitDistinct(s: State, w: nat, x: Writer, t: State)
    requires Commits(s, w, x, t) && RowsOk(s) && WriterOk(s, w, x)
    ensures forall a, b :: a in t.files && b in t.files && SameVersion(t.files[a], t.files[b]) ==> a == b
    ensures forall a, b :: a in t.files && b in t.files && t.files[a].key == t.files[b].key ==> a == b
    ensures forall a, b :: a in t.files && b in t.files && Matches(t.files[a], t.files[b].part, t.files[b].token) ==> a == b
  {
    forall id | id in s.files
      ensures !SameVersion(s.files[id], NewRow(x)) && !Matches(s.files[id], x.req.part, x.req.token) && s.files[id].key != x.key
    {
      assert RowOk(s, id);
    }
    hide RowOk;
    forall a, b | a in t.files && b in t.files && SameVersion(t.files[a], t.files[b]) ensures a == b {
      if a in s.files && b in s.files && a != x.fileId && b != x.fileId { assert SameVersion(s.files[a], s.files[b]); }
    }
  }

  lemma CommitPartitions(s: State, w: nat, x: Writer, t: State)
    requires Commits(s, w, x, t) && PartitionsOk(s) && WriterOk(s, w, x)
    ensures PartitionsOk(t)
  {
    forall p, n | p in t.partitions && 1 <= n <= t.partitions[p].version ensures HasVersion(t, p, n) {
      if p == x.req.part && n == x.version {
        assert x.fileId in t.files && t.files[x.fileId].version == n;
      } else {
        assert HasVersion(s, p, n);
        var id :| id in s.files && s.files[id].part == p && s.files[id].version == n;
        assert id in t.files && t.files[id] == s.files[id];
      }
    }
  }

  lemma CommitResults(s: State, w: nat, x: Writer, t: State)
    requires Commits(s, w, x, t) && ResultsOk(s) && WriterOk(s, w, x)
    ensures ResultsOk(t)
  {
    forall i | 0 <= i < |t.results| ensures ResultOk(t, t.results[i]) {
      if i < |s.results| { assert ResultOk(s, s.results[i]); }
    }
  }

  lemma CommitOther(s: State, w: nat, x: Writer, t: State, v: nat)
    requires Commits(s, w, x, t) && WritersOk(s) && v in s.writers && v != w
    ensures WriterOk(t, v, s.writers[v])
  {
    var y := s.writers[v];
    assert WriterOk(s, w, x) && WriterOk(s, v, y) && Apart(y, x);
    CommitTokens(s, w, x, t, y.req.part, y.req.token);
    OtherStands(s, w, x, t, v, y);
  }

  lemma CommitTokens(s: State, w: nat, x: Writer, t: State, part: string, token: string)
    requires Commits(s, w, x, t) && WriterOk(s, w, x)
    ensures TokenTaken(t, part, token) <==> TokenTaken(s, part, token) || Matches(NewRow(x), part, token)
  {
    if TokenTaken(s, part, token) {
      var id :| id in s.files && Matches(s.files[id], part, token);
      assert id in t.files && Matches(t.files[id], part, token);
    }
    if Matches(NewRow(x), part, token) { assert x.fileId in t.files && Matches(t.files[x.fileId], part, token); }
    if TokenTaken(t, part, token) {
      var id :| id in t.files && Matches(t.files[id], part, token);
      assert id != x.fileId ==> id in s.files && Matches(s.files[id], part, token);
    }
  }

  lemma OtherStands(s: State, w: nat, x: Writer, t: State, v: nat, y: Writer)
    requires Commits(s, w, x, t) && v != w && WriterOk(s, w, x) && WriterOk(s, v, y) && Apart(y, x)
    requires TokenTaken(t, y.req.part, y.req.token) <==> TokenTaken(s, y.req.part, y.req.token) || Matches(NewRow(x), y.req.part, y.req.token)
    ensures WriterOk(t, v, y)
  {
    hide TokenTaken;
  }

  lemma CommitWriters(s: State, w: nat, x: Writer, t: State)
    requires Commits(s, w, x, t) && WritersOk(s)
    ensures WritersOk(t)
  {
    forall v | v in t.writers ensures WriterOk(t, v, t.writers[v]) {
      if v != w { CommitOther(s, w, x, t, v); }
    }
    CommitApart(s, w, t);
    CommitLocks(s, w, t);
  }

  lemma CommitApart(s: State, w: nat, t: State)
    requires w in t.writers && t.writers == s.writers[w := t.writers[w]]
    requires t.writers[w].pc.Done? || t.writers[w].pc == RolledBack(OtherErr, true)
    requires forall u, v :: u in s.writers && v in s.writers && u != v ==> Apart(s.writers[u], s.writers[v])
    ensures forall u, v :: u in t.writers && v in t.writers && u != v ==> Apart(t.writers[u], t.writers[v])
  {
  }

  lemma CommitLocks(s: State, w: nat, t: State)
    requires w in t.writers && t.writers == s.writers[w := t.writers[w]] && t.locks == Unlock(s, w)
    requires forall p :: p in s.locks ==> s.locks[p] in s.writers && Holds(s.writers[s.locks[p]].pc) && s.writers[s.locks[p]].req.part == p
    ensures forall p :: p in t.locks ==> t.locks[p] in t.writers && Holds(t.writers[t.locks[p]].pc) && t.writers[t.locks[p]].req.part == p
  {
  }

  lemma CommitFeed(s: State, w: nat, x: Writer, t: State)
    requires Commits(s, w, x, t) && WriterOk(s, w, x) && FeedOk(s) && SequencersOk(s)
    ensures FeedOk(t) && SequencersOk(t)
  {
    forall n | 1 <= n <= t.tip ensures HasSeq(t, n) {
      assert HasSeq(s, n);
      var id :| id in s.files && s.files[id].feedSeq == Some(n);
      assert id in t.files && t.files[id].feedSeq == Some(n);
    }
    forall q | q in t.sequencers && t.sequencers[q].Assigned? ensures AssignmentOk(t, t.sequencers[q]) {
      assert AssignmentOk(s, s.sequencers[q]);
    }
  }

  lemma CommitKeeps(e: Env, s: State, w: nat, reported: bool, t: State)
    requires w in s.writers && WriterEnabled(e, s, s.writers[w], CommitTx(reported)) && t == WriterStep(e, s, w, CommitTx(reported))
    requires Core(s)
    ensures Core(t)
  {
    var x := s.writers[w];
    assert WriterOk(s, w, x);
    assert Commits(s, w, x, t);
    CommitRows(s, w, x, t);
    CommitPartitions(s, w, x, t);
    CommitResults(s, w, x, t);
    CommitWriters(s, w, x, t);
    CommitFeed(s, w, x, t);
  }

  // ---------- the sequencer ----------

  lemma AssignKeeps(s: State, q: nat, base: nat, picked: seq<nat>, batch: nat, t: State)
    requires q in s.sequencers && SeqEnabled(s, q, s.sequencers[q], Assign(base, picked, batch))
    requires t == SeqStep(s, q, Assign(base, picked, batch)) && SequencersOk(s) && FeedOk(s)
    ensures SequencersOk(t)
  {
    MaxIsTip(s, base);
    forall i, j | 0 <= i < j < |picked| ensures picked[i] != picked[j] { assert Earlier(s, picked[i], picked[j]); }
    forall r | r in t.sequencers && t.sequencers[r].Assigned? ensures AssignmentOk(t, t.sequencers[r]) {
    }
  }

  // What CommitSeq writes, row by row.
  lemma CommitSeqRows(s: State, q: nat, t: State)
    requires q in s.sequencers && s.sequencers[q].Assigned? && t == SeqStep(s, q, CommitSeq) && SequencersOk(s)
    ensures SameRows(s, t)
    ensures var x := s.sequencers[q];
      && (forall id :: id in s.files && id !in x.picked ==> t.files[id] == s.files[id])
      && (forall i :: 0 <= i < |x.picked| ==> x.picked[i] in t.files && t.files[x.picked[i]].feedSeq == Some(s.tip + i + 1))
  {
    var x := s.sequencers[q];
    assert AssignmentOk(s, x);
    NumberedIs(s.files, x.base, x.picked);
    forall id | id in s.files ensures t.files[id] == s.files[id].(feedSeq := t.files[id].feedSeq) {
      if id in x.picked { var i :| 0 <= i < |x.picked| && x.picked[i] == id; }
    }
  }

  // The new offsets lie above the old tip, each on its own row.
  lemma NewOffsets(s: State, q: nat, t: State)
    requires q in s.sequencers && s.sequencers[q].Assigned? && t == SeqStep(s, q, CommitSeq) && SequencersOk(s) && FeedOk(s)
    ensures forall id :: id in t.files && t.files[id].feedSeq.Some? ==>
              1 <= t.files[id].feedSeq.value <= t.tip && (t.files[id].feedSeq.value <= s.tip <==> id !in s.sequencers[q].picked)
  {
    var x := s.sequencers[q];
    CommitSeqRows(s, q, t);
    assert AssignmentOk(s, x);
    forall id | id in t.files && t.files[id].feedSeq.Some?
      ensures 1 <= t.files[id].feedSeq.value <= t.tip && (t.files[id].feedSeq.value <= s.tip <==> id !in x.picked)
    {
      if id in x.picked { var i :| 0 <= i < |x.picked| && x.picked[i] == id; }
    }
  }

  lemma OffsetsStayDistinct(s: State, q: nat, t: State)
    requires q in s.sequencers && s.sequencers[q].Assigned? && t == SeqStep(s, q, CommitSeq) && SequencersOk(s) && FeedOk(s)
    ensures forall a, b :: a in t.files && b in t.files && t.files[a].feedSeq.Some? && t.files[a].feedSeq == t.files[b].feedSeq ==> a == b
  {
    var x := s.sequencers[q];
    CommitSeqRows(s, q, t);
    NewOffsets(s, q, t);
    hide SeqStep;
    forall a, b | a in t.files && b in t.files && t.files[a].feedSeq.Some? && t.files[a].feedSeq == t.files[b].feedSeq
      ensures a == b
    {
      if a in x.picked && b in x.picked {
        var i :| 0 <= i < |x.picked| && x.picked[i] == a;
        var j :| 0 <= j < |x.picked| && x.picked[j] == b;
      }
    }
  }

  lemma OffsetsStayDense(s: State, q: nat, t: State, n: nat)
    requires q in s.sequencers && s.sequencers[q].Assigned? && t == SeqStep(s, q, CommitSeq) && SequencersOk(s) && FeedOk(s)
    requires 1 <= n <= t.tip
    ensures HasSeq(t, n)
  {
    var x := s.sequencers[q];
    CommitSeqRows(s, q, t);
    if n <= s.tip {
      assert HasSeq(s, n);
      var id :| id in s.files && s.files[id].feedSeq == Some(n);
      assert AssignmentOk(s, x);
      assert id !in x.picked && id in t.files;
    } else {
      assert x.picked[n - s.tip - 1] in t.files && t.files[x.picked[n - s.tip - 1]].feedSeq == Some(n);
    }
  }

  lemma CommitSeqFeed(s: State, q: nat, t: State)
    requires q in s.sequencers && s.sequencers[q].Assigned? && t == SeqStep(s, q, CommitSeq)
    requires SequencersOk(s) && FeedOk(s)
    ensures FeedOk(t)
  {
    NewOffsets(s, q, t);
    OffsetsStayDistinct(s, q, t);
    forall n | 1 <= n <= t.tip ensures HasSeq(t, n) { OffsetsStayDense(s, q, t, n); }
  }

  lemma CommitSeqKeeps(s: State, q: nat, t: State)
    requires q in s.sequencers && s.sequencers[q].Assigned? && t == SeqStep(s, q, CommitSeq)
    requires Core(s)
    ensures Core(t)
  {
    CommitSeqRows(s, q, t);
    CommitSeqFeed(s, q, t);
    RowsKept(s, t);
    ResultsKept(s, t);
    forall w | w in t.writers ensures WriterOk(t, w, t.writers[w]) {
      assert WriterOk(s, w, s.writers[w]);
      SameClaims(s, t, w, s.writers[w]);
    }
  }

  lemma SeqKeeps(s: State, q: nat, d: SeqAction, t: State)
    requires q in s.sequencers && SeqEnabled(s, q, s.sequencers[q], d) && t == SeqStep(s, q, d) && !d.CommitSeq?
    requires Core(s)
    ensures Core(t)
  {
    if d.Assign? {
      AssignKeeps(s, q, d.base, d.picked, d.batch, t);
    } else {
      forall r | r in t.sequencers && t.sequencers[r].Assigned? ensures AssignmentOk(t, t.sequencers[r]) {
        assert AssignmentOk(s, s.sequencers[r]);
      }
    }
    TablesUntouched(s, t);
  }

  // ---------- everything else ----------

  lemma TablesUntouched(s: State, t: State)
    requires t.files == s.files && t.partitions == s.partitions && t.mv == s.mv && t.tip == s.tip && t.results == s.results
    requires t.nextId == s.nextId && t.used == s.used && t.writers == s.writers && t.locks == s.locks
    requires RowsOk(s) && PartitionsOk(s) && ResultsOk(s) && WritersOk(s) && FeedOk(s)
    ensures RowsOk(t) && PartitionsOk(t) && ResultsOk(t) && WritersOk(t) && FeedOk(t)
  {
    RowsKept(s, t);
    ResultsKept(s, t);
    FeedKept(s, t);
    forall w | w in t.writers ensures WriterOk(t, w, t.writers[w]) {
      assert WriterOk(s, w, s.writers[w]);
      SameClaims(s, t, w, s.writers[w]);
    }
  }

  lemma SpawnKeeps(e: Env, s: State, w: nat, req: Request, t: State)
    requires Enabled(e, s, Spawn(w, req)) && t == Apply(e, s, Spawn(w, req))
    requires Core(s)
    ensures Core(t)
  {
    RowsKept(s, t);
    ResultsKept(s, t);
    FeedKept(s, t);
    SequencersKept(s, t);
    forall p | p in t.locks ensures LockOk(s, t, w, p) { assert s.locks[p] in s.writers; }
    WritersKept(s, t, w);
  }

  lemma CoreStep(e: Env, s: State, a: Action, t: State)
    requires Enabled(e, s, a) && t == Apply(e, s, a)
    requires Core(s)
    ensures Core(t)
  {
    match a
    case Spawn(w, req) => SpawnKeeps(e, s, w, req, t);
    case ByWriter(w, b) =>
      if b.CommitTx? { CommitKeeps(e, s, w, b.reported, t); }
      else if Quiet(b) { QuietKeeps(e, s, w, b, t); }
      else { GainKeeps(e, s, w, b, t); }
    case BySeq(q, d) =>
      if d.CommitSeq? { CommitSeqKeeps(s, q, t); } else { SeqKeeps(s, q, d, t); }
    case StartSeq(q) => StartSeqKeeps(e, s, q, t);
    case _ => OtherKeeps(e, s, a, t);
  }

  lemma OtherKeeps(e: Env, s: State, a: Action, t: State)
    requires Enabled(e, s, a) && t == Apply(e, s, a)
    requires a.PutLands? || a.PutVanishes? || a.StartGc? || a.ByGc? || a.StopGc? || a.Tick?
    requires Core(s)
    ensures Core(t)
  {
    OtherTables(e, s, a, t);
    TablesUntouched(s, t);
    SequencersKept(s, t);
  }

  lemma OtherTables(e: Env, s: State, a: Action, t: State)
    requires Enabled(e, s, a) && t == Apply(e, s, a)
    requires a.PutLands? || a.PutVanishes? || a.StartGc? || a.ByGc? || a.StopGc? || a.Tick?
    ensures t.files == s.files && t.partitions == s.partitions && t.mv == s.mv && t.tip == s.tip && t.results == s.results
    ensures t.nextId == s.nextId && t.used == s.used && t.writers == s.writers && t.locks == s.locks
    ensures t.sequencers == s.sequencers && t.advisory == s.advisory
  {
    if a.ByGc? { GcTables(s, a.g, a.b, t); }
  }

  lemma GcTables(s: State, g: nat, b: GcAction, t: State)
    requires g in s.gcs && GcEnabled(s, s.gcs[g], b) && t == GcStep(s, g, b)
    ensures t.files == s.files && t.partitions == s.partitions && t.mv == s.mv && t.tip == s.tip && t.results == s.results
    ensures t.nextId == s.nextId && t.used == s.used && t.writers == s.writers && t.locks == s.locks
    ensures t.sequencers == s.sequencers && t.advisory == s.advisory
  {
  }

  lemma StartSeqKeeps(e: Env, s: State, q: nat, t: State)
    requires Enabled(e, s, StartSeq(q)) && t == Apply(e, s, StartSeq(q))
    requires Core(s)
    ensures Core(t)
  {
    TablesUntouched(s, t);
    forall r | r in t.sequencers && t.sequencers[r].Assigned? ensures AssignmentOk(t, t.sequencers[r]) {
      assert AssignmentOk(s, s.sequencers[r]);
    }
  }
}
