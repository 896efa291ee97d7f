/** Preservation of the read pipeline's invariants, continued: decode workers and the bodies
    they take.

    A step of another actor only lets a partition grow: more tasks are marked, and a closed
    channel stays closed. What a worker knows of its partition survives that. A worker's own step
    is taken action by action: what it has decoded, and which bodies are gone. The cause that is
    recorded before the mark is what makes a closed channel trustworthy. */
module ReadFlow {
  import opened Dedup
  import opened Prepare
  import opened ReadPipeline
  import opened Counting
  import opened ReadInvariant
  import opened ReadSteps

  // ---------- decode workers ----------

  ghost predicate PartGrows(p: PartState, q: PartState)
  {
    && |p.tasks| == |q.tasks| && (p.done ==> q.done)
    && forall f :: 0 <= f < |p.tasks| && MarkedOk(p.tasks[f]) ==> MarkedOk(q.tasks[f])
  }

  ghost predicate Grows(s: State, s': State)
  {
    && (s.Stop() ==> s'.Stop())
    && |s.parts| == |s'.parts|
    && forall p :: 0 <= p < |s.parts| ==> PartGrows(s.parts[p], s'.parts[p])
  }

  lemma FetchGrows(c: Config, s: State, a: FetchAction)
    requires c.Valid() && Shape(c, s) && FetchOk(c, s) && FetchEnabled(c, s, a)
    ensures Grows(s, FetchStep(c, s, a))
  {
    if a.SubmitTask? || a.SubmitSkip? {
      assert FromHere(s.fetch, s.fetch.pi, s.fetch.fi);
    }
  }

  lemma TaskGrows(c: Config, s: State, pi: nat, fi: nat, a: TaskAction)
    requires c.Valid() && Shape(c, s) && PartsOk(c, s) && pi < |s.parts| && fi < |s.parts[pi].tasks|
    requires TaskEnabled(c, s, s.parts[pi].tasks[fi], a)
    ensures Grows(s, TaskStep(c, s, pi, fi, a))
  {
    TaskFrameHolds(c, s, pi, fi, a);
    var s' := TaskStep(c, s, pi, fi, a);
    assert MarkedOk(s.parts[pi].tasks[fi]) ==> MarkedOk(s'.parts[pi].tasks[fi]);
  }

  lemma OthersGrow(s: State, s': State)
    requires SameTasks(s, s')
    ensures Grows(s, s')
  {
    forall p | 0 <= p < |s.parts| ensures PartGrows(s.parts[p], s'.parts[p]) {
      assert s'.parts[p] == s.parts[p].(bodies := s'.parts[p].bodies);
    }
  }

  lemma WorkerOkGrows(c: Config, s: State, s': State, x: Worker, y: Worker)
    requires Shape(c, s) && Shape(c, s') && WorkerOk(c, s, x) && Grows(s, s')
    requires y.at == x.at && y.pc == x.pc
    ensures WorkerOk(c, s', y)
  {
    if PastCheck(x.pc) && x.at < |c.parts| && c.promptGet {
      assert PartGrows(s.parts[x.at], s'.parts[x.at]);
    }
    if x.at < |c.parts| { assert PartGrows(s.parts[x.at], s'.parts[x.at]); }
  }

  lemma WorkersOfOthers(c: Config, s: State, s': State)
    requires Shape(c, s) && Shape(c, s') && WorkersOk(c, s) && Grows(s, s')
    requires |s'.workers| == |s.workers|
    requires forall w :: 0 <= w < |s.workers| ==> s'.workers[w].at == s.workers[w].at && s'.workers[w].pc == s.workers[w].pc
    ensures WorkersOk(c, s')
  {
    forall w | 0 <= w < |s'.workers| ensures WorkerOk(c, s', s'.workers[w]) {
      WorkerOkGrows(c, s, s', s.workers[w], s'.workers[w]);
    }
  }

  // A closed `done` with a live context means every file of the partition landed.
  lemma DoneAndAliveIsComplete(c: Config, s: State, p: nat)
    requires Shape(c, s) && PartsOk(c, s) && CauseOk(c, s) && p < |s.parts|
    requires s.parts[p].done && !s.Stop() && c.promptGet
    ensures AllFetched(s.parts[p])
  {
    var ps := s.parts[p];
    assert PartOk(c, p, ps);
    SumByBound(ps.tasks, MarkedN);
    forall f | 0 <= f < |ps.tasks| ensures MarkedOk(ps.tasks[f]) {
      assert MarkedN(ps.tasks[f]) == 1;
      assert !FailureRecorded(ps.tasks[f]);
    }
  }

  lemma DecodeProgress(c: Config, s: State, w: nat)
    requires c.Valid() && Shape(c, s) && PartsOk(c, s) && w < |s.workers| && WorkerEnabled(c, s, w, DecodeNext)
    requires WorkerOk(c, s, s.workers[w]) && TakenOk(c, s.parts[s.workers[w].at], s.workers[w].at, s.workers[w])
    requires c.promptGet
    ensures ProgressOk(c, DecodeStep(c, s, w).workers[w])
  {
    var x := s.workers[w];
    var p, fi, files := x.at, x.pc.fi, c.Files(x.at);
    assert WorkerShape(c, x, w);
    if fi == |files| {
      assert files[..fi] == files;
    } else {
      assert MarkedOk(s.parts[p].tasks[fi]);
      assert PartOk(c, p, s.parts[p]);
      assert BodyOk(c, p, fi, s.parts[p].tasks[fi], s.parts[p].bodies[fi]);
      assert s.parts[p].bodies[fi].Landed?;
      assert files[..fi + 1][..fi] == files[..fi];
      assert files[..fi + 1][fi] == files[fi];
      assert c.decode(s.parts[p].bodies[fi].body) == FileRecs(c, files[fi]);
      if FileRecs(c, files[fi]).Some? {
        var next := files[..fi + 1];
        forall i | 0 <= i < |next| ensures FileRecs(c, next[i]).Some? {
          if i < fi { assert files[..fi][i] == next[i]; }
        }
      }
    }
  }

  lemma WorkerOfLocal(c: Config, s: State, w: nat, a: WorkerAction)
    requires c.Valid() && Shape(c, s) && PartsOk(c, s) && CauseOk(c, s) && w < |s.workers| && WorkerEnabled(c, s, w, a)
    requires WorkerOk(c, s, s.workers[w]) && IsLocal(a)
    ensures s.workers[w].at < |c.parts| && WorkerOk(c, s, Local(c, s.Stop(), s.workers[w], a))
  {
    var x := s.workers[w];
    assert WorkerShape(c, x, w);
    if a.CheckCause? && !s.Stop() && c.promptGet { DoneAndAliveIsComplete(c, s, x.at); }
    assert c.Files(x.at)[..0] == [];
  }

  lemma WorkerOfDecode(c: Config, s: State, w: nat)
    requires c.Valid() && Shape(c, s) && PartsOk(c, s) && w < |s.workers| && WorkerEnabled(c, s, w, DecodeNext)
    requires WorkerOk(c, s, s.workers[w]) && TakenOk(c, s.parts[s.workers[w].at], s.workers[w].at, s.workers[w])
    requires Shape(c, DecodeStep(c, s, w))
    ensures WorkerOk(c, DecodeStep(c, s, w), DecodeStep(c, s, w).workers[w])
  {
    var x, s' := s.workers[w], DecodeStep(c, s, w);
    assert WorkerShape(c, x, w);
    if c.promptGet { DecodeProgress(c, s, w); }
    assert s'.parts[x.at].tasks == s.parts[x.at].tasks && s'.parts[x.at].done;
  }

  lemma FreshWorkerOk(c: Config, s: State, y: Worker)
    requires Shape(c, s) && (y.pc.Wait? || (y.pc.Stopped? && (y.at >= |c.parts| || s.Stop())))
    ensures WorkerOk(c, s, y)
  {
  }

  lemma WorkerOfSend(c: Config, s: State, w: nat)
    requires c.Valid() && Shape(c, s) && w < |s.workers| && s.workers[w].pc.Send?
    requires WorkerOk(c, s, s.workers[w])
    ensures WorkerOk(c, s, s.workers[w].(pc := SendWait(s.workers[w].pc.recs)))
  {
  }

  lemma WorkerOfWorker(c: Config, s: State, w: nat, a: WorkerAction, s': State)
    requires c.Valid() && Shape(c, s) && PartsOk(c, s) && CauseOk(c, s) && w < |s.workers| && WorkerEnabled(c, s, w, a)
    requires WorkerOk(c, s, s.workers[w])
    requires s.workers[w].at < |s.parts| ==> TakenOk(c, s.parts[s.workers[w].at], s.workers[w].at, s.workers[w])
    requires s' == WorkerStep(c, s, w, a) && Shape(c, s')
    ensures WorkerOk(c, s', s'.workers[w])
  {
    var x, y := s.workers[w], s'.workers[w];
    assert WorkerShape(c, x, w);
    if a.DecodeNext? {
      WorkerOfDecode(c, s, w);
    } else if (a.SendTry? && HasSpace(c, s, w)) || a.SendSlow? || a.RecordFail? {
      FreshWorkerOk(c, s', y);
    } else {
      var z := if a.SendTry? then x.(pc := SendWait(x.pc.recs)) else Local(c, s.Stop(), x, a);
      if a.SendTry? { WorkerOfSend(c, s, w); } else { WorkerOfLocal(c, s, w, a); }
      assert s' == SetWorker(s, w, z) && y == z;
      SetWorkerGrows(s, w, z);
      WorkerOkGrows(c, s, s', z, y);
    }
  }

  lemma SetWorkerGrows(s: State, w: nat, z: Worker)
    requires w < |s.workers|
    ensures Grows(s, SetWorker(s, w, z))
  {
  }

  lemma WorkersOfWorker(c: Config, s: State, w: nat, a: WorkerAction)
    requires c.Valid() && Shape(c, s) && PartsOk(c, s) && CauseOk(c, s) && WorkersOk(c, s) && AllTakenOk(c, s)
    requires w < |s.workers| && WorkerEnabled(c, s, w, a) && Shape(c, WorkerStep(c, s, w, a))
    ensures WorkersOk(c, WorkerStep(c, s, w, a))
  {
    var x, s' := s.workers[w], WorkerStep(c, s, w, a);
    assert WorkerShape(c, x, w);
    if x.at < |s.parts| { assert WorkerOf(c, x.at) == w && TakenOk(c, s.parts[x.at], x.at, x); }
    WorkerOfWorker(c, s, w, a, s');
    WorkerFrameHolds(c, s, w, a);
    OthersGrow(s, s');
    forall v | 0 <= v < |s'.workers| ensures WorkerOk(c, s', s'.workers[v]) {
      if v != w {
        assert s'.workers[v] == s.workers[v];
        WorkerOkGrows(c, s, s', s.workers[v], s.workers[v]);
      }
    }
  }

  // ---------- taken bodies ----------

  lemma DoneHasNoGetting(c: Config, p: nat, ps: PartState, f: nat)
    requires p < |c.parts| && PartOk(c, p, ps) && ps.done && f < |ps.tasks|
    ensures Marked(ps.tasks[f])
  {
    SumByBound(ps.tasks, MarkedN);
    assert MarkedN(ps.tasks[f]) == 1;
  }

  lemma TakenOfTask(c: Config, s: State, s': State, pi: nat, fi: nat)
    requires c.Valid() && Shape(c, s) && Shape(c, s') && PartsOk(c, s) && PartsOk(c, s')
    requires WorkersOk(c, s) && AllTakenOk(c, s) && TaskFrame(s, s', pi, fi)
    ensures AllTakenOk(c, s')
  {
    var w := WorkerOf(c, pi);
    var x, ps, qs := s.workers[w], s.parts[pi], s'.parts[pi];
    assert TakenOk(c, ps, pi, x) && WorkerOk(c, s, x) && PartOk(c, pi, ps) && PartOk(c, pi, qs);
    if qs.bodies != ps.bodies {
      assert !ps.done by {
        if ps.done { DoneHasNoGetting(c, pi, ps, fi); }
      }
      assert !(pi < x.at) && !(pi == x.at && PastCheck(x.pc));
    }
    assert TakenOk(c, qs, pi, x);
    forall p | 0 <= p < |s'.parts| ensures TakenOk(c, s'.parts[p], p, s'.workers[WorkerOf(c, p)]) {
      if p != pi { assert s'.parts[p] == s.parts[p] && TakenOk(c, s.parts[p], p, s.workers[WorkerOf(c, p)]); }
    }
  }

  lemma TakenOfFetch(c: Config, s: State, a: FetchAction)
    requires c.Valid() && Shape(c, s) && AllTakenOk(c, s) && FetchEnabled(c, s, a) && Shape(c, FetchStep(c, s, a))
    ensures AllTakenOk(c, FetchStep(c, s, a))
  {
    var s' := FetchStep(c, s, a);
    forall p | 0 <= p < |s'.parts| ensures TakenOk(c, s'.parts[p], p, s'.workers[WorkerOf(c, p)]) {
      assert TakenOk(c, s.parts[p], p, s.workers[WorkerOf(c, p)]);
      assert s'.parts[p].bodies == s.parts[p].bodies && s'.parts[p].done == s.parts[p].done;
    }
  }

  lemma TakenOfEmit(c: Config, s: State, s': State)
    requires c.Valid() && Shape(c, s) && Shape(c, s') && AllTakenOk(c, s) && s'.parts == s.parts
    requires forall w :: 0 <= w < |s.workers| ==> s'.workers[w].at == s.workers[w].at && s'.workers[w].pc == s.workers[w].pc
    ensures AllTakenOk(c, s')
  {
    forall p | 0 <= p < |s'.parts| ensures TakenOk(c, s'.parts[p], p, s'.workers[WorkerOf(c, p)]) {
      assert TakenOk(c, s.parts[p], p, s.workers[WorkerOf(c, p)]);
    }
  }

  lemma TakenAfterLoop(c: Config, ps: PartState, p: nat, x: Worker, y: Worker)
    requires c.workers >= 1 && p % c.workers == x.at % c.workers
    requires TakenOk(c, ps, p, x) && (x.pc.Send? || x.pc.SendWait?) && (p == x.at ==> ps.done)
    requires y.at == x.at + c.workers && (y.pc.Wait? || y.pc.Stopped?)
    ensures TakenOk(c, ps, p, y)
  {
    if x.at < p < y.at {
      ModWindow(x.at, p, c.workers);
    }
  }

  lemma TakenOfLocal(c: Config, s: State, ps: PartState, p: nat, w: nat, a: WorkerAction)
    requires c.Valid() && Shape(c, s) && w < |s.workers| && WorkerEnabled(c, s, w, a) && IsLocal(a)
    requires TakenOk(c, ps, p, s.workers[w])
    requires a.TryReserve? ==> forall f :: 0 <= f < |ps.bodies| && p == s.workers[w].at ==> !ps.bodies[f].Taken?
    ensures s.workers[w].at < |c.parts| && TakenOk(c, ps, p, Local(c, s.Stop(), s.workers[w], a))
  {
    assert WorkerShape(c, s.workers[w], w);
  }

  lemma TakenOfDecode(c: Config, s: State, p: nat, w: nat)
    requires c.Valid() && Shape(c, s) && w < |s.workers| && WorkerEnabled(c, s, w, DecodeNext) && p < |s.parts|
    requires TakenOk(c, s.parts[p], p, s.workers[w])
    ensures TakenOk(c, DecodeStep(c, s, w).parts[p], p, DecodeStep(c, s, w).workers[w])
  {
    assert WorkerShape(c, s.workers[w], w);
  }

  lemma TakenOfSame(c: Config, s: State, p: nat, w: nat, a: WorkerAction)
    requires c.Valid() && Shape(c, s) && w < |s.workers| && WorkerEnabled(c, s, w, a)
    requires p < |s.parts| && WorkerOf(c, p) == w && TakenOk(c, s.parts[p], p, s.workers[w])
    requires WorkerOk(c, s, s.workers[w]) && Shape(c, WorkerStep(c, s, w, a))
    ensures TakenOk(c, WorkerStep(c, s, w, a).parts[p], p, WorkerStep(c, s, w, a).workers[w])
  {
    var x, s' := s.workers[w], WorkerStep(c, s, w, a);
    assert WorkerShape(c, x, w);
    hide DecodeStep;
    match a
    case DecodeNext => TakenOfDecode(c, s, p, w);
    case SendTry => if HasSpace(c, s, w) { TakenAfterLoop(c, s.parts[p], p, x, s'.workers[w]); }
    case SendSlow => TakenAfterLoop(c, s.parts[p], p, x, s'.workers[w]);
    case RecordFail =>
    case _ => TakenOfLocal(c, s, s.parts[p], p, w, a);
  }

  lemma TakenOfWorker(c: Config, s: State, w: nat, a: WorkerAction)
    requires c.Valid() && Shape(c, s) && WorkersOk(c, s) && AllTakenOk(c, s)
    requires w < |s.workers| && WorkerEnabled(c, s, w, a) && Shape(c, WorkerStep(c, s, w, a))
    ensures AllTakenOk(c, WorkerStep(c, s, w, a))
  {
    var s' := WorkerStep(c, s, w, a);
    forall p | 0 <= p < |s'.parts| ensures TakenOk(c, s'.parts[p], p, s'.workers[WorkerOf(c, p)]) {
      var v := WorkerOf(c, p);
      assert TakenOk(c, s.parts[p], p, s.workers[v]);
      if v == w {
        TakenOfSame(c, s, p, w, a);
      } else {
        assert WorkerShape(c, s.workers[w], w);
        assert s'.workers[v] == s.workers[v] && s'.parts[p] == s.parts[p];
      }
    }
  }
}
