/** What the protocol's guarantees rest on: the timing hypothesis behind GC. */
module CatalogLimits {
  import opened Wrappers
  import opened KeyCodec
  import opened Catalog
  import opened CatalogTheorems

  lemma Advance(e: Env, s: State, a: Action) returns (t: State)
    requires Reachable(e, s) && Enabled(e, s, a)
    ensures t == Apply(e, s, a) && Reachable(e, t)
  {
    t := Apply(e, s, a);
    LeadsOneMore(e, Init(), s, a, t);
  }

  function Job(part: string): Request { Request(part, "", None, 1, 1, 1, {}) }

  function JobKey(e: Env, part: string, u: string): string { DataKey(e.prefix, part, u) }

  // The lone writer of a job, with its program counter.
  function Lone(e: Env, part: string, u: string, pc: WriterPc): Writer
  {
    Writer(Job(part), pc, JobKey(e, part, u), 0, 0, if Holds(pc) then 1 else 0, if HasRow(pc) then 1 else 0)
  }

  lemma WriterStarts(e: Env, part: string, u: string) returns (s: State)
    requires part != "" && SlashFree(u)
    ensures Reachable(e, s)
    ensures s == Init().(writers := map[0 := Lone(e, part, u, Upsert)], pending := map[JobKey(e, part, u) := 0], used := {JobKey(e, part, u)})
  {
    hide SlashFree, DataKey;
    LeadsNowhere(e, Init());
    s := Advance(e, Init(), Spawn(0, Job(part)));
    assert !TokenTaken(s, part, "");
    s := Advance(e, s, ByWriter(0, LookupMiss));
    s := Advance(e, s, ByWriter(0, InsertPending(u, true)));
    s := Advance(e, s, ByWriter(0, BeginTx));
  }

  lemma WriterInserts(e: Env, part: string, u: string) returns (s: State)
    requires part != "" && SlashFree(u)
    ensures Reachable(e, s)
    ensures s == Init().(writers := map[0 := Lone(e, part, u, Put)], pending := map[JobKey(e, part, u) := 0], used := {JobKey(e, part, u)},
                         locks := map[part := 0], nextId := 2)
  {
    s := WriterStarts(e, part, u);
    hide SlashFree, DataKey;
    s := Advance(e, s, ByWriter(0, UpsertRow));
    assert !TokenTaken(s, part, "");
    s := Advance(e, s, ByWriter(0, InsertRow));
    s := Advance(e, s, ByWriter(0, BuildMeta));
  }

  lemma WriterPuts(e: Env, part: string, u: string) returns (s: State)
    requires part != "" && SlashFree(u)
    ensures Reachable(e, s)
    ensures s == Init().(writers := map[0 := Lone(e, part, u, Tail)], pending := map[JobKey(e, part, u) := 0], used := {JobKey(e, part, u)},
                         locks := map[part := 0], nextId := 2, s3 := map[JobKey(e, part, u) := WriterObject(Lone(e, part, u, Tail))])
  {
    s := WriterInserts(e, part, u);
    hide SlashFree, DataKey;
    s := Advance(e, s, ByWriter(0, StartPut));
    s := Advance(e, s, PutLands(JobKey(e, part, u)));
    s := Advance(e, s, ByWriter(0, PutOk));
  }

  // GC runs while the transaction is still open, longer than Grace after it began.
  lemma SweepTooSoon(e: Env, part: string, u: string) returns (s: State)
    requires part != "" && SlashFree(u) && !e.timely(JobKey(e, part, u))
    ensures Reachable(e, s) && 0 in s.writers && s.writers[0] == Lone(e, part, u, Tail) && JobKey(e, part, u) !in s.s3
  {
    s := WriterPuts(e, part, u);
    hide SlashFree, DataKey;
    s := Advance(e, s, Tick(e.grace + 1));
    s := Advance(e, s, StartGc(0));
    s := Advance(e, s, ByGc(0, ScanPending([JobKey(e, part, u)])));
    s := Advance(e, s, ByGc(0, ObjectDeleted));
  }

  /** A transaction that outlives Grace loses its object: the file commits, and its object
      is gone. This holds whatever Grace is. */
  lemma SlowWriterLosesFile(e: Env, part: string, u: string) returns (s: State, id: nat)
    requires part != "" && SlashFree(u) && !e.timely(JobKey(e, part, u))
    ensures Reachable(e, s) && id in s.files && s.files[id].key == JobKey(e, part, u) && JobKey(e, part, u) !in s.s3
  {
    s := SweepTooSoon(e, part, u);
    s := Advance(e, s, ByWriter(0, TailSql));
    s := Advance(e, s, ByWriter(0, CommitTx(true)));
    id := 1;
  }

  // A committed file with this key keeps its object.
  ghost predicate KeepsFile(e: Env, k: string)
  {
    forall s, id :: Reachable(e, s) && id in s.files && s.files[id].key == k ==> k in s.s3
  }

  /** The timing hypothesis is exactly what the safety of a committed file needs, write by
      write: whatever the others do, the file that a write commits under this key keeps its
      object if and only if this write is timely. */
  lemma TimelyIsExactlyNeeded(e: Env, part: string, u: string)
    requires part != "" && SlashFree(u)
    ensures e.timely(JobKey(e, part, u)) <==> KeepsFile(e, JobKey(e, part, u))
  {
    var k := JobKey(e, part, u);
    if e.timely(k) {
      forall s, id | Reachable(e, s) && id in s.files && s.files[id].key == k ensures k in s.s3 { FilesNeverLost(e, s, id); }
    } else {
      var s, id := SlowWriterLosesFile(e, part, u);
    }
  }
}
