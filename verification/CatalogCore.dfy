/** Invariants of the catalog tables: versions, tokens, returned refs, MV rows and feed
    offsets. They need no assumption on timing. */
module CatalogCore {
  import opened Wrappers
  import opened KeyCodec
  import opened Catalog

  // ---------- rows ----------

  ghost predicate RowOk(s: State, id: nat)
    requires id in s.files
  {
    var r := s.files[id];
    && id < s.nextId && r.key in s.used
    && r.part in s.partitions && 1 <= r.version <= s.partitions[r.part].version
    && (r.wantVersion.Some? ==> r.version == r.wantVersion.value + 1)
    && r.tuples <= s.mv
  }

  predicate SameVersion(q: FileRow, r: FileRow) { q.part == r.part && q.version == r.version }

  ghost predicate Emitted(s: State, u: seq<string>)
  {
    exists id :: id in s.files && u in s.files[id].tuples
  }

  ghost predicate RowsOk(s: State)
  {
    && (forall id :: id in s.files ==> RowOk(s, id))
    && (forall u :: u in s.mv ==> Emitted(s, u))
    && (forall a, b :: a in s.files && b in s.files && SameVersion(s.files[a], s.files[b]) ==> a == b)
    && (forall a, b :: a in s.files && b in s.files && s.files[a].key == s.files[b].key ==> a == b)
    && (forall a, b :: a in s.files && b in s.files && Matches(s.files[a], s.files[b].part, s.files[b].token) ==> a == b)
  }

  ghost predicate HasVersion(s: State, p: string, n: nat)
  {
    exists id :: id in s.files && s.files[id].part == p && s.files[id].version == n
  }

  ghost predicate PartitionsOk(s: State)
  {
    forall p :: p in s.partitions ==>
      && s.partitions[p].version >= 1 && s.partitions[p].fileCount == s.partitions[p].version
      && forall n :: 1 <= n <= s.partitions[p].version ==> HasVersion(s, p, n)
  }

  ghost predicate ResultOk(s: State, r: WriteResult)
  {
    && r.ref.fileId in s.files
    && s.files[r.ref.fileId].part == r.part && s.files[r.ref.fileId].token == r.token
    && RefOf(r.ref.fileId, s.files[r.ref.fileId]) == r.ref
  }

  ghost predicate ResultsOk(s: State)
  {
    forall i :: 0 <= i < |s.results| ==> ResultOk(s, s.results[i])
  }

  // ---------- writers ----------

  predicate OwnsKey(pc: WriterPc)
  {
    Live(pc) || (pc.RolledBack? && !pc.putAttempted)
  }

  predicate LostRace(pc: WriterPc)
  {
    pc.Relook? || ((pc.RolledBack? || pc.Translate?) && pc.err == TokenRaceLost)
  }

  predicate NextVersion(s: State, x: Writer)
  {
    && x.version == Current(s, x.req.part) + 1
    && (x.req.wantVersion.Some? ==> x.version == x.req.wantVersion.value + 1)
  }

  ghost predicate WriterOk(s: State, w: nat, x: Writer)
  {
    && (Holds(x.pc) ==> x.req.part in s.locks && s.locks[x.req.part] == w && NextVersion(s, x))
    && (HasRow(x.pc) ==> x.fileId < s.nextId && x.fileId !in s.files && !TokenTaken(s, x.req.part, x.req.token))
    && (LostRace(x.pc) ==> TokenTaken(s, x.req.part, x.req.token))
    && (OwnsKey(x.pc) ==> x.key in s.used && forall id :: id in s.files ==> s.files[id].key != x.key)
  }

  ghost predicate WritersOk(s: State)
  {
    && (forall w :: w in s.writers ==> WriterOk(s, w, s.writers[w]))
    && (forall v, w :: v in s.writers && w in s.writers && v != w ==> Apart(s.writers[v], s.writers[w]))
    && (forall p :: p in s.locks ==> s.locks[p] in s.writers && Holds(s.writers[s.locks[p]].pc) && s.writers[s.locks[p]].req.part == p)
  }

  predicate Apart(x: Writer, y: Writer)
  {
    && (HasRow(x.pc) && HasRow(y.pc) ==> x.fileId != y.fileId)
    && (OwnsKey(x.pc) && OwnsKey(y.pc) ==> x.key != y.key)
  }

  // ---------- feed ----------

  ghost predicate HasSeq(s: State, n: nat)
  {
    exists id :: id in s.files && s.files[id].feedSeq == Some(n)
  }

  // The assigned offsets are exactly 1..tip, each on one row.
  ghost predicate FeedOk(s: State)
  {
    && (forall id :: id in s.files && s.files[id].feedSeq.Some? ==> 1 <= s.files[id].feedSeq.value <= s.tip)
    && (forall a, b :: a in s.files && b in s.files && s.files[a].feedSeq.Some? && s.files[a].feedSeq == s.files[b].feedSeq ==> a == b)
    && (forall n :: 1 <= n <= s.tip ==> HasSeq(s, n))
  }

  ghost predicate SequencersOk(s: State)
  {
    && (s.advisory.Some? ==> s.advisory.value in s.sequencers && !s.sequencers[s.advisory.value].WaitLock?)
    && (forall q :: q in s.sequencers && !s.sequencers[q].WaitLock? ==> s.advisory == Some(q))
    && (forall q :: q in s.sequencers && s.sequencers[q].Assigned? ==> AssignmentOk(s, s.sequencers[q]))
  }

  ghost predicate AssignmentOk(s: State, x: Sequencer)
    requires x.Assigned?
  {
    && x.base == s.tip
    && (forall i :: 0 <= i < |x.picked| ==> Unsequenced(s, x.picked[i]))
    && (forall i, j :: 0 <= i < j < |x.picked| ==> x.picked[i] != x.picked[j])
  }

  ghost predicate Core(s: State)
  {
    RowsOk(s) && PartitionsOk(s) && ResultsOk(s) && WritersOk(s) && FeedOk(s) && SequencersOk(s)
  }

  lemma InitCore()
    ensures Core(Init())
  {
  }

  // ---------- steps that leave the rows alone ----------

  // The same rows, but for the offsets the sequencer fills in.
  ghost predicate SameRows(s: State, t: State)
  {
    && t.files.Keys == s.files.Keys
    && (forall id :: id in s.files ==> t.files[id] == s.files[id].(feedSeq := t.files[id].feedSeq))
    && t.partitions == s.partitions && t.mv == s.mv && s.nextId <= t.nextId && s.used <= t.used
  }

  lemma RowsKept(s: State, t: State)
    requires SameRows(s, t) && RowsOk(s) && PartitionsOk(s)
    ensures RowsOk(t) && PartitionsOk(t)
  {
    forall id | id in t.files ensures RowOk(t, id) { assert RowOk(s, id); }
    forall u | u in t.mv ensures Emitted(t, u) {
      assert Emitted(s, u);
      var id :| id in s.files && u in s.files[id].tuples;
      assert id in t.files && u in t.files[id].tuples;
    }
    forall a, b | a in t.files && b in t.files && SameVersion(t.files[a], t.files[b]) ensures a == b {
      assert SameVersion(s.files[a], s.files[b]);
    }
    forall p, n | p in t.partitions && 1 <= n <= t.partitions[p].version ensures HasVersion(t, p, n) {
      assert HasVersion(s, p, n);
      var id :| id in s.files && s.files[id].part == p && s.files[id].version == n;
      assert id in t.files;
    }
  }

  lemma FeedKept(s: State, t: State)
    requires t.files == s.files && t.tip == s.tip && FeedOk(s)
    ensures FeedOk(t)
  {
    forall n | 1 <= n <= t.tip ensures HasSeq(t, n) { assert HasSeq(s, n); }
  }

  lemma SequencersKept(s: State, t: State)
    requires t.files == s.files && t.tip == s.tip && t.sequencers == s.sequencers && t.advisory == s.advisory && SequencersOk(s)
    ensures SequencersOk(t)
  {
    forall q | q in t.sequencers && t.sequencers[q].Assigned? ensures AssignmentOk(t, t.sequencers[q]) {
      assert AssignmentOk(s, s.sequencers[q]);
    }
  }

  lemma ResultsKept(s: State, t: State)
    requires SameRows(s, t) && ResultsOk(s)
    requires t.results == s.results || exists r :: ResultOk(t, r) && t.results == s.results + [r]
    ensures ResultsOk(t)
  {
    forall i | 0 <= i < |t.results| ensures ResultOk(t, t.results[i]) {
      if i < |s.results| { assert ResultOk(s, s.results[i]); }
    }
  }

  lemma SameToken(s: State, t: State, part: string, token: string)
    requires SameRows(s, t)
    ensures TokenTaken(t, part, token) <==> TokenTaken(s, part, token)
  {
    if TokenTaken(s, part, token) {
      var id :| id in s.files && Matches(s.files[id], part, token);
      assert id in t.files && Matches(t.files[id], part, token);
    }
    if TokenTaken(t, part, token) {
      var id :| id in t.files && Matches(t.files[id], part, token);
      assert id in s.files && Matches(s.files[id], part, token);
    }
  }

  lemma SameClaims(s: State, t: State, w: nat, x: Writer)
    requires SameRows(s, t) && WriterOk(s, w, x)
    requires Holds(x.pc) ==> x.req.part in t.locks && t.locks[x.req.part] == w
    ensures WriterOk(t, w, x)
  {
    SameToken(s, t, x.req.part, x.req.token);
  }

  // One writer moved; what it newly claims must be free.
  lemma WritersKept(s: State, t: State, w: nat)
    requires WritersOk(s) && SameRows(s, t) && w in t.writers
    requires t.writers == s.writers[w := t.writers[w]]
    requires WriterOk(t, w, t.writers[w])
    requires forall v :: v in s.writers && v != w ==> Apart(s.writers[v], t.writers[w])
    requires forall p :: p in s.locks && s.locks[p] != w ==> p in t.locks && t.locks[p] == s.locks[p]
    requires forall p :: p in t.locks ==> LockOk(s, t, w, p)
    ensures WritersOk(t)
  {
    forall v | v in t.writers ensures WriterOk(t, v, t.writers[v]) {
      if v != w { SameClaims(s, t, v, s.writers[v]); }
    }
    forall p | p in t.locks ensures t.locks[p] in t.writers && Holds(t.writers[t.locks[p]].pc) && t.writers[t.locks[p]].req.part == p {
      assert LockOk(s, t, w, p);
      if t.locks[p] != w { assert s.locks[p] in s.writers; }
    }
  }

  // Only w's own locks change.
  ghost predicate LockOk(s: State, t: State, w: nat, p: string)
    requires p in t.locks && w in t.writers
  {
    if t.locks[p] == w then Holds(t.writers[w].pc) && t.writers[w].req.part == p
    else p in s.locks && t.locks[p] == s.locks[p]
  }

  // A writer that gained no claim, only gave some up.
  ghost predicate Weaker(x: Writer, y: Writer)
  {
    && y.req == x.req && (Holds(y.pc) ==> Holds(x.pc) && y.version == x.version)
    && (HasRow(y.pc) ==> HasRow(x.pc) && y.fileId == x.fileId)
    && (OwnsKey(y.pc) ==> OwnsKey(x.pc) && y.key == x.key)
    && (LostRace(y.pc) ==> LostRace(x.pc))
  }

  lemma WeakerKept(s: State, t: State, w: nat)
    requires WritersOk(s) && SameRows(s, t) && w in s.writers && w in t.writers
    requires t.writers == s.writers[w := t.writers[w]] && Weaker(s.writers[w], t.writers[w])
    requires t.locks == if Holds(t.writers[w].pc) then s.locks else Unlock(s, w)
    ensures WritersOk(t)
  {
    var x, y := s.writers[w], t.writers[w];
    assert WriterOk(s, w, x);
    SameToken(s, t, x.req.part, x.req.token);
    forall v | v in s.writers && v != w ensures Apart(s.writers[v], y) {
      assert Apart(s.writers[v], x);
    }
    forall p | p in t.locks ensures LockOk(s, t, w, p) {}
    WritersKept(s, t, w);
  }

  // A writer without the lock appears in no lock entry.
  lemma UnlockIdle(s: State, w: nat)
    requires WritersOk(s) && w in s.writers && !Holds(s.writers[w].pc)
    ensures Unlock(s, w) == s.locks
  {
  }

  // ---------- the sequencer's statements ----------

  lemma {:induction false} NumberedIs(files: map<nat, FileRow>, base: nat, picked: seq<nat>)
    requires forall i :: 0 <= i < |picked| ==> picked[i] in files
    requires forall i, j :: 0 <= i < j < |picked| ==> picked[i] != picked[j]
    ensures Numbered(files, base, picked).Keys == files.Keys
    ensures forall id :: id in files && id !in picked ==> Numbered(files, base, picked)[id] == files[id]
    ensures forall i :: 0 <= i < |picked| ==>
              Numbered(files, base, picked)[picked[i]] == files[picked[i]].(feedSeq := Some(base + i + 1))
  {
    if |picked| > 0 {
      var n := |picked| - 1;
      var first, last := picked[..n], picked[n];
      NumberedIs(files, base, first);
      assert last !in first;
      var rest := Numbered(files, base, first);
      var all := Numbered(files, base, picked);
      assert all == rest[last := files[last].(feedSeq := Some(base + n + 1))];
      forall i | 0 <= i < |picked| ensures all[picked[i]] == files[picked[i]].(feedSeq := Some(base + i + 1)) {
        if i < n { assert picked[i] == first[i]; }
      }
      forall id | id in files && id !in picked ensures all[id] == files[id] { assert id !in first; }
    }
  }

  // MAX(feed_seq) is the number of offsets handed out.
  lemma MaxIsTip(s: State, m: nat)
    requires FeedOk(s) && IsMaxSeq(s, m)
    ensures m == s.tip
  {
    if s.tip > 0 { assert HasSeq(s, s.tip); }
  }
}
