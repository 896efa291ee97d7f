/** Preservation of the read pipeline's invariants: shape, partitions, the fetcher, causes and
    slots.

    One lemma for each invariant and actor. The frame lemmas say what a step of an actor leaves
    alone, so that the invariants which speak of nothing else follow at once; the remaining cases
    are the fetcher's submissions, the marks of the download tasks and the slots that move
    between a task, a body and the decode worker that gives them back. */
module ReadSteps {
  import opened Dedup
  import opened Prepare
  import opened ReadPipeline
  import opened Counting
  import opened ReadInvariant

  // ---------- shape ----------

  lemma ShapeOfFetch(c: Config, s: State, a: FetchAction)
    requires Shape(c, s) && c.Valid() && FetchEnabled(c, s, a)
    ensures Shape(c, FetchStep(c, s, a))
  {
  }

  lemma ShapeOfTask(c: Config, s: State, pi: nat, fi: nat, a: TaskAction)
    requires Shape(c, s) && c.Valid() && pi < |s.parts| && fi < |s.parts[pi].tasks|
    requires TaskEnabled(c, s, s.parts[pi].tasks[fi], a)
    ensures Shape(c, TaskStep(c, s, pi, fi, a))
  {
  }

  lemma ShapeOfEnqueue(c: Config, s: State, w: nat, recs: seq<Rec>)
    requires Shape(c, s) && c.Valid() && w < |s.workers| && s.workers[w].at < |c.parts|
    requires c.queueCap == 0 ==> s.emit.Recv? && s.emit.pi == s.workers[w].at
    ensures Shape(c, Enqueue(c, s, w, MakeBatch(c, s.workers[w].at, recs)))
  {
    ModStep(s.workers[w].at, c.workers);
    ModStep(s.workers[w].next, c.workers);
    assert WorkerShape(c, s.workers[w], w);
    var s' := Enqueue(c, s, w, MakeBatch(c, s.workers[w].at, recs));
    assert WorkerShape(c, s'.workers[w], w);
  }

  lemma ShapeOfDecode(c: Config, s: State, w: nat)
    requires Shape(c, s) && c.Valid() && w < |s.workers| && WorkerEnabled(c, s, w, DecodeNext)
    ensures Shape(c, DecodeStep(c, s, w))
  {
    assert WorkerShape(c, s.workers[w], w);
    assert WorkerShape(c, DecodeStep(c, s, w).workers[w], w);
  }

  lemma ShapeOfSet(c: Config, s: State, w: nat, y: Worker)
    requires Shape(c, s) && w < |s.workers| && WorkerShape(c, y, w)
    ensures Shape(c, SetWorker(s, w, y))
  {
  }

  lemma ShapeOfWorker(c: Config, s: State, w: nat, a: WorkerAction)
    requires Shape(c, s) && c.Valid() && w < |s.workers| && WorkerEnabled(c, s, w, a)
    requires QueuesOk(c, s)
    ensures Shape(c, WorkerStep(c, s, w, a))
  {
    var x := s.workers[w];
    assert WorkerShape(c, x, w);
    match a
    case DecodeNext => ShapeOfDecode(c, s, w);
    case SendTry =>
      if HasSpace(c, s, w) { SpaceMeets(c, s, w); ShapeOfEnqueue(c, s, w, x.pc.recs); }
      else { ShapeOfSet(c, s, w, x.(pc := SendWait(x.pc.recs))); }
    case SendSlow => SpaceMeets(c, s, w); ShapeOfEnqueue(c, s, w, x.pc.recs);
    case RecordFail => ShapeOfSet(c, RecordCause(s, DecodeFailed(x.at)), w, x.(pc := Stopped));
    case _ => ShapeOfSet(c, s, w, Local(c, s.Stop(), x, a));
  }

  lemma SpaceMeets(c: Config, s: State, w: nat)
    requires Shape(c, s) && c.Valid() && w < |s.workers| && QueuesOk(c, s) && HasSpace(c, s, w)
    ensures c.queueCap == 0 ==> s.emit.Recv? && s.emit.pi == s.workers[w].at
  {
    if c.queueCap == 0 {
      RendezvousMeets(c, s, w);
    }
  }

  // With an unbuffered queue, the batch a worker offers to the waiting emit loop is the
  // very one the loop waits for.
  lemma RendezvousMeets(c: Config, s: State, w: nat)
    requires Shape(c, s) && c.Valid() && w < |s.workers| && QueuesOk(c, s)
    requires s.emit.Recv? && WorkerOf(c, s.emit.pi) == w
    ensures s.workers[w].next == s.emit.pi
    ensures |s.workers[w].queue| == 0 ==> s.workers[w].at == s.emit.pi
    ensures |s.workers[w].queue| > 0 ==> s.workers[w].queue[0].index == s.emit.pi
  {
    assert Chain(s.workers[w].queue, s.workers[w].next, s.workers[w].at, c.workers);
    assert WorkerShape(c, s.workers[w], w);
    ModWindow(s.emit.pi, s.workers[w].next, c.workers);
  }

  lemma ShapeOfEmit(c: Config, s: State, a: EmitAction)
    requires Shape(c, s) && c.Valid() && EmitEnabled(c, s, a) && QueuesOk(c, s)
    ensures Shape(c, EmitStep(c, s, a))
  {
    if a.Receive? {
      var w := WorkerOf(c, s.emit.pi);
      ModStep(s.workers[w].next, c.workers);
      RendezvousMeets(c, s, w);
    }
  }

  // ---------- partitions ----------

  lemma SetUnmarked(c: Config, p: nat, ps: PartState, f: nat, t: Task)
    requires p < |c.parts| && PartOk(c, p, ps) && f < |ps.tasks|
    requires !Marked(ps.tasks[f]) && !Marked(t)
    ensures PartOk(c, p, ps.(tasks := ps.tasks[f := t]))
  {
    SumByUpdate(ps.tasks, f, t, MarkedN);
    var qs := ps.(tasks := ps.tasks[f := t]);
    assert forall g :: 0 <= g < |qs.tasks| && qs.tasks[g].Closing? ==> ps.tasks[g].Closing?;
    if ps.completed == |ps.tasks| && !ps.done {
      var g :| 0 <= g < |ps.tasks| && ps.tasks[g].Closing?;
      assert qs.tasks[g].Closing?;
    }
    forall g | 0 <= g < |qs.tasks| ensures BodyOk(c, p, g, qs.tasks[g], qs.bodies[g]) {
      assert BodyOk(c, p, g, ps.tasks[g], ps.bodies[g]);
    }
  }

  lemma SetReturned(c: Config, p: nat, ps: PartState, f: nat)
    requires p < |c.parts| && PartOk(c, p, ps) && f < |ps.tasks| && ps.tasks[f].Returning?
    ensures PartOk(c, p, ps.(tasks := ps.tasks[f := Ended(ps.tasks[f].failed)]))
  {
    var t := Ended(ps.tasks[f].failed);
    SumByUpdate(ps.tasks, f, t, MarkedN);
    var qs := ps.(tasks := ps.tasks[f := t]);
    assert forall g :: 0 <= g < |qs.tasks| && qs.tasks[g].Closing? ==> ps.tasks[g].Closing?;
    if ps.completed == |ps.tasks| && !ps.done {
      var g :| 0 <= g < |ps.tasks| && ps.tasks[g].Closing?;
      assert qs.tasks[g].Closing?;
    }
    forall g | 0 <= g < |qs.tasks| ensures BodyOk(c, p, g, qs.tasks[g], qs.bodies[g]) {
      assert BodyOk(c, p, g, ps.tasks[g], ps.bodies[g]);
    }
  }

  lemma SetClosed(c: Config, p: nat, ps: PartState, f: nat)
    requires p < |c.parts| && PartOk(c, p, ps) && f < |ps.tasks| && ps.tasks[f].Closing?
    ensures !ps.done
    ensures PartOk(c, p, ps.(tasks := ps.tasks[f := Returning(ps.tasks[f].failed)], done := true))
  {
    var t := Returning(ps.tasks[f].failed);
    SumByUpdate(ps.tasks, f, t, MarkedN);
    var qs := ps.(tasks := ps.tasks[f := t], done := true);
    forall g | 0 <= g < |qs.tasks|
      ensures !qs.tasks[g].Closing?
      ensures BodyOk(c, p, g, qs.tasks[g], qs.bodies[g])
    {
      assert BodyOk(c, p, g, ps.tasks[g], ps.bodies[g]);
      assert ps.tasks[g].Closing? ==> g == f;
    }
  }

  lemma MarkCompleteOk(c: Config, p: nat, ps: PartState, f: nat, body: BodySlot, failed: bool)
    requires p < |c.parts| && PartOk(c, p, ps) && f < |ps.tasks|
    requires !Marked(ps.tasks[f])
    requires if failed then body.Empty? else body == Landed(c.content(c.Files(p)[f].s3Key))
    ensures PartOk(c, p, MarkComplete(ps, f, body, failed))
  {
    var t := if ps.completed + 1 == |ps.tasks| then Closing(failed) else Returning(failed);
    SumByUpdate(ps.tasks, f, t, MarkedN);
    SumByBound(ps.tasks, MarkedN);
    var qs := MarkComplete(ps, f, body, failed);
    assert qs.tasks == ps.tasks[f := t];
    assert MarkedN(ps.tasks[f]) == 0;
    assert ps.completed < |ps.tasks|;
    assert forall g :: 0 <= g < |ps.tasks| ==> !ps.tasks[g].Closing?;
    if qs.completed == |qs.tasks| {
      assert qs.tasks[f].Closing?;
    }
    forall g | 0 <= g < |qs.tasks| ensures BodyOk(c, p, g, qs.tasks[g], qs.bodies[g]) {
      assert BodyOk(c, p, g, ps.tasks[g], ps.bodies[g]);
    }
  }

  lemma TakeOk(c: Config, p: nat, ps: PartState, f: nat)
    requires p < |c.parts| && PartOk(c, p, ps) && f < |ps.tasks| && ps.bodies[f].Landed?
    ensures PartOk(c, p, ps.(bodies := ps.bodies[f := Taken]))
  {
    var qs := ps.(bodies := ps.bodies[f := Taken]);
    forall g | 0 <= g < |qs.tasks| ensures BodyOk(c, p, g, qs.tasks[g], qs.bodies[g]) {
      assert BodyOk(c, p, g, ps.tasks[g], ps.bodies[g]);
    }
  }

  lemma PartsSet(c: Config, s: State, p: nat, ps: PartState, s': State)
    requires Shape(c, s) && PartsOk(c, s) && p < |s.parts| && PartOk(c, p, ps)
    requires Shape(c, s') && s'.parts == s.parts[p := ps]
    ensures PartsOk(c, s')
  {
  }

  lemma PartsOfFetch(c: Config, s: State, a: FetchAction)
    requires c.Valid() && Shape(c, s) && PartsOk(c, s) && FetchOk(c, s) && FetchEnabled(c, s, a)
    ensures Shape(c, FetchStep(c, s, a)) && PartsOk(c, FetchStep(c, s, a))
  {
    ShapeOfFetch(c, s, a);
    if a.SubmitTask? || a.SubmitSkip? {
      var pi, fi := s.fetch.pi, s.fetch.fi;
      var ps, t := s.parts[pi], if a.SubmitTask? then Getting else Skipped;
      assert PartOk(c, pi, ps);
      assert FromHere(s.fetch, pi, fi) && ps.tasks[fi].Unsubmitted?;
      SetUnmarked(c, pi, ps, fi, t);
      PartsSet(c, s, pi, ps.(tasks := ps.tasks[fi := t]), FetchStep(c, s, a));
    }
  }

  lemma PartOfTask(c: Config, s: State, pi: nat, fi: nat, a: TaskAction)
    requires c.Valid() && Shape(c, s) && PartsOk(c, s) && pi < |s.parts| && fi < |s.parts[pi].tasks|
    requires TaskEnabled(c, s, s.parts[pi].tasks[fi], a)
    ensures PartOk(c, pi, TaskStep(c, s, pi, fi, a).parts[pi])
  {
    var ps := s.parts[pi];
    var t := ps.tasks[fi];
    assert PartOk(c, pi, ps);
    match a
    case GetOk => MarkCompleteOk(c, pi, ps, fi, Landed(c.content(c.Files(pi)[fi].s3Key)), false);
    case GetHard => SetUnmarked(c, pi, ps, fi, FailRelease(true));
    case GetCtx => SetUnmarked(c, pi, ps, fi, FailRelease(false));
    case ReleaseSlot => SetUnmarked(c, pi, ps, fi, if t.hard then FailRecord else FailMark);
    case RecordErr => SetUnmarked(c, pi, ps, fi, FailMark);
    case MarkFailed => MarkCompleteOk(c, pi, ps, fi, Empty, true);
    case CloseDone => SetClosed(c, pi, ps, fi);
    case ReturnTask => SetReturned(c, pi, ps, fi);
  }

  lemma PartsOfTask(c: Config, s: State, pi: nat, fi: nat, a: TaskAction)
    requires c.Valid() && Shape(c, s) && PartsOk(c, s) && pi < |s.parts| && fi < |s.parts[pi].tasks|
    requires TaskEnabled(c, s, s.parts[pi].tasks[fi], a)
    ensures Shape(c, TaskStep(c, s, pi, fi, a)) && PartsOk(c, TaskStep(c, s, pi, fi, a))
  {
    ShapeOfTask(c, s, pi, fi, a);
    PartOfTask(c, s, pi, fi, a);
    TaskFrameHolds(c, s, pi, fi, a);
    var s' := TaskStep(c, s, pi, fi, a);
    PartsSet(c, s, pi, s'.parts[pi], s');
  }

  lemma PartsOfWorker(c: Config, s: State, w: nat, a: WorkerAction)
    requires c.Valid() && Shape(c, s) && PartsOk(c, s) && w < |s.workers| && WorkerEnabled(c, s, w, a)
    requires Shape(c, WorkerStep(c, s, w, a))
    ensures PartsOk(c, WorkerStep(c, s, w, a))
  {
    var x := s.workers[w];
    if a.DecodeNext? && x.pc.fi < |c.Files(x.at)| && s.parts[x.at].bodies[x.pc.fi].Landed? {
      var ps := s.parts[x.at];
      assert PartOk(c, x.at, ps);
      TakeOk(c, x.at, ps, x.pc.fi);
      PartsSet(c, s, x.at, ps.(bodies := ps.bodies[x.pc.fi := Taken]), WorkerStep(c, s, w, a));
    }
  }

  // ---------- frames: what an actor leaves alone ----------

  ghost predicate TaskFrame(s: State, s': State, pi: nat, fi: nat)
  {
    && s' == s.(parts := s'.parts, slots := s'.slots, pool := s'.pool, cause := s'.cause, groupDone := s'.groupDone)
    && (s.cause.Some? ==> s'.cause == s.cause) && (s.groupDone ==> s'.groupDone)
    && pi < |s.parts| == |s'.parts| && s'.parts == s.parts[pi := s'.parts[pi]]
    && OnePart(s.parts[pi], s'.parts[pi], fi)
  }

  ghost predicate OnePart(p: PartState, q: PartState, f: nat)
  {
    && f < |p.tasks| == |q.tasks| && |p.bodies| == |q.bodies|
    && q.tasks == p.tasks[f := q.tasks[f]]
    && (q.bodies == p.bodies || (f < |p.bodies| && q.bodies == p.bodies[f := q.bodies[f]] && q.bodies[f].Landed? && p.tasks[f].Getting?))
    && !p.tasks[f].Unsubmitted? && !p.tasks[f].Skipped? && !q.tasks[f].Unsubmitted? && !q.tasks[f].Skipped?
    && (p.done ==> q.done)
  }

  lemma TaskFrameHolds(c: Config, s: State, pi: nat, fi: nat, a: TaskAction)
    requires c.Valid() && Shape(c, s) && PartsOk(c, s) && pi < |s.parts| && fi < |s.parts[pi].tasks|
    requires TaskEnabled(c, s, s.parts[pi].tasks[fi], a)
    ensures TaskFrame(s, TaskStep(c, s, pi, fi, a), pi, fi)
  {
    var ps := s.parts[pi];
    assert PartOk(c, pi, ps);
    assert BodyOk(c, pi, fi, ps.tasks[fi], ps.bodies[fi]);
    if a.MarkFailed? {
      assert ps.bodies[fi := Empty] == ps.bodies;
    }
  }

  // Decode workers and the emit loop touch no task.
  ghost predicate SameTasks(s: State, s': State)
  {
    && s'.fetch == s.fetch && s'.pool == s.pool && s'.groupDone == s.groupDone
    && (s.cause.Some? ==> s'.cause == s.cause)
    && |s'.parts| == |s.parts|
    && (forall p :: 0 <= p < |s.parts| ==> s'.parts[p] == s.parts[p].(bodies := s'.parts[p].bodies))
  }

  lemma WorkerFrameHolds(c: Config, s: State, w: nat, a: WorkerAction)
    requires c.Valid() && Shape(c, s) && w < |s.workers| && WorkerEnabled(c, s, w, a)
    ensures SameTasks(s, WorkerStep(c, s, w, a))
  {
  }

  lemma EmitFrameHolds(c: Config, s: State, a: EmitAction)
    requires c.Valid() && Shape(c, s) && EmitEnabled(c, s, a)
    ensures SameTasks(s, EmitStep(c, s, a)) && EmitStep(c, s, a).parts == s.parts
  {
  }

  // ---------- fetcher position ----------

  lemma FetchOfFetch(c: Config, s: State, a: FetchAction)
    requires c.Valid() && Shape(c, s) && FetchOk(c, s) && FetchEnabled(c, s, a)
    requires Shape(c, FetchStep(c, s, a))
    ensures FetchOk(c, FetchStep(c, s, a))
  {
    var s' := FetchStep(c, s, a);
    if a.SubmitTask? || a.SubmitSkip? {
      var pi, fi := s.fetch.pi, s.fetch.fi;
      forall p, f | 0 <= p < |s.parts| && 0 <= f < |s.parts[p].tasks|
        ensures Before(s'.fetch, p, f) ==> !s'.parts[p].tasks[f].Unsubmitted?
        ensures FromHere(s'.fetch, p, f) ==> s'.parts[p].tasks[f].Unsubmitted?
        ensures s'.fetch.Drain? ==> !s'.parts[p].tasks[f].Unsubmitted?
        ensures s'.parts[p].tasks[f].Skipped? ==> s'.GroupStop()
      {
        assert (p != pi || f != fi) ==> s'.parts[p].tasks[f] == s.parts[p].tasks[f];
        assert Before(s.fetch, p, f) || FromHere(s.fetch, p, f);
      }
    }
  }

  lemma FetchOfTask(c: Config, s: State, s': State, pi: nat, fi: nat)
    requires Shape(c, s) && Shape(c, s') && FetchOk(c, s) && TaskFrame(s, s', pi, fi)
    requires s'.pool <= s.pool
    ensures FetchOk(c, s')
  {
    forall p, f | 0 <= p < |s'.parts| && 0 <= f < |s'.parts[p].tasks|
      ensures s'.parts[p].tasks[f].Unsubmitted? <==> s.parts[p].tasks[f].Unsubmitted?
      ensures s'.parts[p].tasks[f].Skipped? <==> s.parts[p].tasks[f].Skipped?
    {
      assert (p != pi || f != fi) ==> s'.parts[p].tasks[f] == s.parts[p].tasks[f];
    }
  }

  lemma FetchOfOthers(c: Config, s: State, s': State)
    requires Shape(c, s) && Shape(c, s') && FetchOk(c, s) && SameTasks(s, s')
    ensures FetchOk(c, s')
  {
    assert forall p :: 0 <= p < |s.parts| ==> s'.parts[p].tasks == s.parts[p].tasks;
  }

  // ---------- causes ----------

  lemma CauseOfFetch(c: Config, s: State, a: FetchAction)
    requires c.Valid() && Shape(c, s) && CauseOk(c, s) && FetchEnabled(c, s, a)
    requires Shape(c, FetchStep(c, s, a))
    ensures CauseOk(c, FetchStep(c, s, a))
  {
  }

  lemma CauseOfTask(c: Config, s: State, pi: nat, fi: nat, a: TaskAction)
    requires c.Valid() && Shape(c, s) && PartsOk(c, s) && CauseOk(c, s)
    requires pi < |s.parts| && fi < |s.parts[pi].tasks|
    requires TaskEnabled(c, s, s.parts[pi].tasks[fi], a) && Shape(c, TaskStep(c, s, pi, fi, a))
    ensures CauseOk(c, TaskStep(c, s, pi, fi, a))
  {
    var s' := TaskStep(c, s, pi, fi, a);
    TaskFrameHolds(c, s, pi, fi, a);
    if c.promptGet && !s'.Stop() {
      assert !FailureRecorded(s.parts[pi].tasks[fi]);
      assert !FailureRecorded(s'.parts[pi].tasks[fi]);
      forall p, f | 0 <= p < |s'.parts| && 0 <= f < |s'.parts[p].tasks|
        ensures !FailureRecorded(s'.parts[p].tasks[f])
      {
        assert (p != pi || f != fi) ==> s'.parts[p].tasks[f] == s.parts[p].tasks[f];
      }
    }
  }

  lemma CauseOfOthers(c: Config, s: State, s': State)
    requires Shape(c, s) && Shape(c, s') && CauseOk(c, s) && SameTasks(s, s')
    requires (s'.emit.Join? || s'.emit.Finished? ==> s'.Stop()) && CauseTrue(c, s')
    ensures CauseOk(c, s')
  {
    assert forall p :: 0 <= p < |s.parts| ==> s'.parts[p].tasks == s.parts[p].tasks;
  }

  // ---------- slots and pool ----------

  lemma HeldUpdate(parts: seq<PartState>, p: nat, f: nat, t: Task)
    requires p < |parts| && f < |parts[p].tasks|
    ensures SumBy(SetTask(parts, p, f, t), PartHeld) + HoldsN(parts[p].tasks[f]) == SumBy(parts, PartHeld) + HoldsN(t)
    ensures SumBy(SetTask(parts, p, f, t), PartPool) + InPoolN(parts[p].tasks[f]) == SumBy(parts, PartPool) + InPoolN(t)
  {
    var qs := parts[p].(tasks := parts[p].tasks[f := t]);
    SumByUpdate(parts[p].tasks, f, t, HoldsN);
    SumByUpdate(parts[p].tasks, f, t, InPoolN);
    SumByUpdate(parts, p, qs, PartHeld);
    SumByUpdate(parts, p, qs, PartPool);
  }

  lemma BodyUpdate(parts: seq<PartState>, p: nat, f: nat, b: BodySlot)
    requires p < |parts| && f < |parts[p].bodies|
    ensures var q := parts[p := parts[p].(bodies := parts[p].bodies[f := b])];
      SumBy(q, PartHeld) + LandedN(parts[p].bodies[f]) == SumBy(parts, PartHeld) + LandedN(b) &&
      SumBy(q, PartPool) == SumBy(parts, PartPool)
  {
    var qs := parts[p].(bodies := parts[p].bodies[f := b]);
    SumByUpdate(parts[p].bodies, f, b, LandedN);
    SumByUpdate(parts, p, qs, PartHeld);
    SumByUpdate(parts, p, qs, PartPool);
  }

  // Fields that the counts do not look at.
  lemma FlagUpdate(parts: seq<PartState>, p: nat, completed: nat, done: bool)
    requires p < |parts|
    ensures var q := parts[p := parts[p].(completed := completed, done := done)];
      SumBy(q, PartHeld) == SumBy(parts, PartHeld) && SumBy(q, PartPool) == SumBy(parts, PartPool)
  {
    var qs := parts[p].(completed := completed, done := done);
    SumByUpdate(parts, p, qs, PartHeld);
    SumByUpdate(parts, p, qs, PartPool);
  }

  lemma MarkCounts(parts: seq<PartState>, p: nat, f: nat, body: BodySlot, failed: bool)
    requires p < |parts| && f < |parts[p].tasks| == |parts[p].bodies|
    requires parts[p].bodies[f].Empty? && (parts[p].tasks[f].Getting? || parts[p].tasks[f].FailMark?)
    ensures var q := parts[p := MarkComplete(parts[p], f, body, failed)];
      SumBy(q, PartHeld) + HoldsN(parts[p].tasks[f]) == SumBy(parts, PartHeld) + LandedN(body) &&
      SumBy(q, PartPool) == SumBy(parts, PartPool)
  {
    var m := MarkComplete(parts[p], f, body, failed);
    var q1 := SetTask(parts, p, f, m.tasks[f]);
    HeldUpdate(parts, p, f, m.tasks[f]);
    var q2 := q1[p := q1[p].(bodies := q1[p].bodies[f := body])];
    BodyUpdate(q1, p, f, body);
    var q3 := q2[p := q2[p].(completed := m.completed, done := m.done)];
    FlagUpdate(q2, p, m.completed, m.done);
    assert q3 == parts[p := m];
  }

  lemma TaskCounted(s: State, p: nat, f: nat)
    requires p < |s.parts| && f < |s.parts[p].tasks|
    ensures SumBy(s.parts, PartHeld) >= HoldsN(s.parts[p].tasks[f])
    ensures SumBy(s.parts, PartPool) >= InPoolN(s.parts[p].tasks[f])
    ensures f < |s.parts[p].bodies| ==> SumBy(s.parts, PartHeld) >= LandedN(s.parts[p].bodies[f])
  {
    SumByAtLeast(s.parts[p].tasks, f, HoldsN);
    SumByAtLeast(s.parts[p].tasks, f, InPoolN);
    SumByAtLeast(s.parts, p, PartHeld);
    SumByAtLeast(s.parts, p, PartPool);
    if f < |s.parts[p].bodies| { SumByAtLeast(s.parts[p].bodies, f, LandedN); }
  }

  lemma SlotsOfFetch(c: Config, s: State, a: FetchAction)
    requires c.Valid() && Shape(c, s) && FetchOk(c, s) && SlotsOk(c, s) && FetchEnabled(c, s, a)
    ensures SlotsOk(c, FetchStep(c, s, a))
  {
    if a.SubmitTask? || a.SubmitSkip? {
      assert FromHere(s.fetch, s.fetch.pi, s.fetch.fi);
      assert s.parts[s.fetch.pi].tasks[s.fetch.fi].Unsubmitted?;
      HeldUpdate(s.parts, s.fetch.pi, s.fetch.fi, if a.SubmitTask? then Getting else Skipped);
    }
  }

  lemma SlotsOfClose(parts: seq<PartState>, pi: nat, fi: nat)
    requires pi < |parts| && fi < |parts[pi].tasks| && parts[pi].tasks[fi].Closing?
    ensures var q := CloseChannel(parts, pi, fi, parts[pi].tasks[fi].failed);
      SumBy(q, PartHeld) == SumBy(parts, PartHeld) && SumBy(q, PartPool) == SumBy(parts, PartPool)
  {
    var t := Returning(parts[pi].tasks[fi].failed);
    var q := SetTask(parts, pi, fi, t);
    HeldUpdate(parts, pi, fi, t);
    FlagUpdate(q, pi, q[pi].completed, true);
    assert q[pi := q[pi].(completed := q[pi].completed, done := true)] == CloseChannel(parts, pi, fi, t.failed);
  }

  lemma SlotsOfSet(c: Config, s: State, s': State, pi: nat, fi: nat, t: Task)
    requires SlotsOk(c, s) && pi < |s.parts| && fi < |s.parts[pi].tasks|
    requires s'.parts == SetTask(s.parts, pi, fi, t) && s'.fetch == s.fetch
    requires s'.slots + HoldsN(s.parts[pi].tasks[fi]) == s.slots + HoldsN(t) && s'.slots <= s.slots
    requires s'.pool + InPoolN(s.parts[pi].tasks[fi]) == s.pool + InPoolN(t) && s'.pool <= s.pool
    ensures SlotsOk(c, s')
  {
    HeldUpdate(s.parts, pi, fi, t);
  }

  lemma SlotsOfTask(c: Config, s: State, pi: nat, fi: nat, a: TaskAction)
    requires c.Valid() && Shape(c, s) && SlotsOk(c, s) && pi < |s.parts| && fi < |s.parts[pi].tasks|
    requires PartOk(c, pi, s.parts[pi])
    requires TaskEnabled(c, s, s.parts[pi].tasks[fi], a)
    ensures SlotsOk(c, TaskStep(c, s, pi, fi, a))
    ensures TaskStep(c, s, pi, fi, a).pool <= s.pool
  {
    var ps := s.parts[pi];
    var t, s' := ps.tasks[fi], TaskStep(c, s, pi, fi, a);
    match a
    case GetOk =>
      assert BodyOk(c, pi, fi, t, ps.bodies[fi]);
      MarkCounts(s.parts, pi, fi, Landed(c.content(c.Files(pi)[fi].s3Key)), false);
    case MarkFailed =>
      assert BodyOk(c, pi, fi, t, ps.bodies[fi]);
      MarkCounts(s.parts, pi, fi, Empty, true);
    case CloseDone => SlotsOfClose(s.parts, pi, fi);
    case GetHard => SlotsOfSet(c, s, s', pi, fi, FailRelease(true));
    case GetCtx => SlotsOfSet(c, s, s', pi, fi, FailRelease(false));
    case ReleaseSlot => SlotsOfSet(c, s, s', pi, fi, if t.hard then FailRecord else FailMark);
    case RecordErr => SlotsOfSet(c, s, s', pi, fi, FailMark);
    case ReturnTask => SlotsOfSet(c, s, s', pi, fi, Ended(t.failed));
  }

  lemma SlotsOfWorker(c: Config, s: State, w: nat, a: WorkerAction)
    requires c.Valid() && Shape(c, s) && SlotsOk(c, s) && w < |s.workers| && WorkerEnabled(c, s, w, a)
    ensures SlotsOk(c, WorkerStep(c, s, w, a))
  {
    var x := s.workers[w];
    if a.DecodeNext? && x.pc.fi < |c.Files(x.at)| && s.parts[x.at].bodies[x.pc.fi].Landed? {
      TaskCounted(s, x.at, x.pc.fi);
      BodyUpdate(s.parts, x.at, x.pc.fi, Taken);
    }
  }
}
