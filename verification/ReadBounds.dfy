/** What a read holds in memory is bounded in every reachable state. */
module ReadBounds {
  import opened Wrappers
  import opened Prepare
  import opened ReadPipeline
  import opened Counting
  import opened ReadInvariant
  import opened ReadTheorems

  ghost predicate WithinCap(c: Config, s: State)
  {
    forall w :: 0 <= w < |s.workers| ==> |s.workers[w].queue| <= c.queueCap
  }

  lemma WorkerStaysWithin(c: Config, s: State, w: nat, d: WorkerAction)
    requires c.Valid() && Shape(c, s) && WithinCap(c, s) && w < |s.workers| && WorkerEnabled(c, s, w, d)
    ensures WithinCap(c, WorkerStep(c, s, w, d))
  {
    var t := WorkerStep(c, s, w, d);
    forall v | 0 <= v < |t.workers| ensures |t.workers[v].queue| <= c.queueCap {
      if v != w { assert t.workers[v] == s.workers[v]; }
    }
  }

  lemma StepStaysWithin(c: Config, s: State, t: State)
    requires c.Valid() && Next(c, s, t) && WithinCap(c, s)
    ensures WithinCap(c, t)
  {
    var a :| Step(c, s, a, t);
    match a
    case ByFetcher(f) => assert t.workers == s.workers;
    case ByTask(pi, fi, b) => assert t.workers == s.workers;
    case ByWorker(w, d) => WorkerStaysWithin(c, s, w, d);
    case ByEmit(b) => EmitStaysWithin(c, s, b);
    case ParentCancel =>
  }

  lemma EmitStaysWithin(c: Config, s: State, a: EmitAction)
    requires c.Valid() && Shape(c, s) && WithinCap(c, s) && EmitEnabled(c, s, a)
    ensures WithinCap(c, EmitStep(c, s, a))
  {
  }

  lemma {:induction false} RunStaysWithin(c: Config, run: seq<State>, i: nat)
    requires c.Valid() && IsRun(c, run) && i < |run|
    ensures WithinCap(c, run[i])
  {
    if i > 0 {
      RunStaysWithin(c, run, i - 1);
      RunTakes(c, run, i);
      hide IsRun, Next, WithinCap;
      StepStaysWithin(c, run[i - 1], run[i]);
    }
  }

  // A queue of this length puts its worker that many rounds ahead of the emit loop.
  lemma {:induction false} ChainSpans(q: seq<Batch>, next: nat, at: nat, step: nat)
    requires Chain(q, next, at, step)
    ensures at == next + step * |q|
  {
    if |q| > 0 { ChainSpans(q[1..], next + step, at, step); }
  }

  /** Decoding stays ahead of the consumer by a bounded number of partitions: a queue holds no
      more than the configured count, so a worker is on a partition at most that many rounds
      after the one that the emit loop takes next. Bodies in memory and downloads that may still
      bring one are together no more than the body slots, and tasks no more than the pool. */
  lemma ReadAheadIsBounded(c: Config, s: State)
    requires c.Valid() && Reachable(c, s)
    ensures forall w :: 0 <= w < |s.workers| ==>
              |s.workers[w].queue| <= c.queueCap && s.workers[w].at < s.received + c.workers * (c.queueCap + 1)
    ensures SumBy(s.parts, PartHeld) <= c.bodyCap && SumBy(s.parts, PartPool) <= c.poolCap
  {
    var run :| IsRun(c, run) && run[|run| - 1] == s;
    RunStaysWithin(c, run, |run| - 1);
    ReachableHolds(c, s);
    forall w | 0 <= w < |s.workers| ensures s.workers[w].at < s.received + c.workers * (c.queueCap + 1) {
      AtIsNear(c, s.workers[w], s.received);
    }
  }

  lemma AtIsNear(c: Config, x: Worker, received: nat)
    requires Chain(x.queue, x.next, x.at, c.workers) && x.next < received + c.workers && |x.queue| <= c.queueCap
    ensures x.at < received + c.workers * (c.queueCap + 1)
  {
    ChainSpans(x.queue, x.next, x.at, c.workers);
    MulMonotone(c.workers, |x.queue|, c.queueCap);
    assert c.workers * (c.queueCap + 1) == c.workers * c.queueCap + c.workers;
  }
}
