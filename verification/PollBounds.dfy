/** How far a poll runs ahead of its consumer is bounded in every reachable state. */
module PollBounds {
  import opened Wrappers
  import opened Prepare
  import opened PollPipeline
  import opened Counting
  import opened PollInvariant
  import opened PollTheorems

  ghost predicate WithinCap(c: Config, s: State)
  {
    forall w :: 0 <= w < |s.workers| ==>
      |s.workers[w].queue| <= c.queueCap && |s.workers[w].input| <= c.InputCap() && Trails(c, s.workers[w])
  }

  // What was handed to the worker is in its input, but for the file in hand.
  ghost predicate Trails(c: Config, x: Worker) { x.upto <= x.at + c.workers * (|x.input| + 1) }

  lemma {:induction false} InputSpans(q: seq<nat>, from: nat, upto: nat, step: nat)
    requires InputChain(q, from, upto, step)
    ensures upto == from + step * |q|
  {
    if |q| > 0 { InputSpans(q[1..], from + step, upto, step); }
  }

  lemma {:induction false} ChainSpans(q: seq<FileResult>, next: nat, at: nat, step: nat)
    requires Chain(q, next, at, step)
    ensures at == next + step * |q|
  {
    if |q| > 0 { ChainSpans(q[1..], next + step, at, step); }
  }

  lemma WorkerStaysWithin(c: Config, s: State, w: nat, d: WorkerAction)
    requires c.Valid() && Shape(c, s) && InputsOk(c, s) && WithinCap(c, s) && w < |s.workers| && WorkerEnabled(c, s, w, d)
    ensures WithinCap(c, WorkerStep(c, s, w, d))
  {
    var t := WorkerStep(c, s, w, d);
    OwnStaysWithin(c, s, w, d);
    OthersStand(c, s, w, d);
    hide InputsOk, Trails;
    forall v | 0 <= v < |t.workers|
      ensures |t.workers[v].queue| <= c.queueCap && |t.workers[v].input| <= c.InputCap() && Trails(c, t.workers[v])
    {
      if v != w { assert t.workers[v] == s.workers[v]; }
    }
  }

  lemma OthersStand(c: Config, s: State, w: nat, d: WorkerAction)
    requires Shape(c, s) && w < |s.workers| && WorkerEnabled(c, s, w, d)
    ensures var t := WorkerStep(c, s, w, d);
      |t.workers| == |s.workers| && forall v :: 0 <= v < |s.workers| && v != w ==> t.workers[v] == s.workers[v]
  {
  }

  lemma OwnStaysWithin(c: Config, s: State, w: nat, d: WorkerAction)
    requires c.Valid() && Shape(c, s) && InputsOk(c, s) && WithinCap(c, s) && w < |s.workers| && WorkerEnabled(c, s, w, d)
    ensures |WorkerStep(c, s, w, d).workers| == |s.workers|
    ensures var x := WorkerStep(c, s, w, d).workers[w];
      |x.queue| <= c.queueCap && |x.input| <= c.InputCap() && Trails(c, x)
  {
    var x := s.workers[w];
    assert InputOk(c, s, x);
    hide InputsOk, InputOk, InputChain;
    if d.TakeNext? { InputCounted(c, s, x); }
  }

  // Between two files, the worker has the whole of its input still to take.
  lemma InputCounted(c: Config, s: State, x: Worker)
    requires InputOk(c, s, x) && x.pc.Take?
    ensures x.upto == x.at + c.workers * |x.input|
  {
    InputSpans(x.input, x.at, x.upto, c.workers);
  }

  lemma FetchStaysWithin(c: Config, s: State, a: FetchAction)
    requires c.Valid() && Shape(c, s) && WithinCap(c, s) && FetchEnabled(c, s, a)
    ensures WithinCap(c, FetchStep(c, s, a))
  {
  }

  lemma StepStaysWithin(c: Config, s: State, t: State)
    requires c.Valid() && InputsOk(c, s) && Next(c, s, t) && WithinCap(c, s)
    ensures WithinCap(c, t)
  {
    var a :| Step(c, s, a, t);
    match a
    case ByFetcher(f) => FetchStaysWithin(c, s, f);
    case ByTask(fi, b) => assert t.workers == s.workers;
    case ByWorker(w, d) => WorkerStaysWithin(c, s, w, d);
    case ByEmit(b) => EmitStaysWithin(c, s, b);
    case ParentCancel =>
  }

  lemma EmitStaysWithin(c: Config, s: State, a: EmitAction)
    requires c.Valid() && Shape(c, s) && WithinCap(c, s) && EmitEnabled(c, s, a)
    ensures WithinCap(c, EmitStep(c, s, a))
  {
  }

  lemma InvGivesInputs(c: Config, s: State)
    requires Inv(c, s)
    ensures InputsOk(c, s)
  {
  }

  lemma StartsWithin(c: Config)
    requires c.Valid()
    ensures WithinCap(c, Init(c))
  {
  }

  lemma {:induction false} RunStaysWithin(c: Config, run: seq<State>, i: nat)
    requires c.Valid() && c.promptGet && IsRun(c, run) && i < |run|
    ensures WithinCap(c, run[i])
  {
    if i == 0 {
      StartsWithin(c);
    } else {
      hide IsRun, Next, Inv, InputsOk, WithinCap;
      RunStaysWithin(c, run, i - 1);
      RunKeepsInv(c, run, i - 1);
      InvGivesInputs(c, run[i - 1]);
      RunTakes(c, run, i);
      StepStaysWithin(c, run[i - 1], run[i]);
    }
  }

  /** Back-pressure: no queue or input grows beyond its configured size, and the source has given
      at most a fixed number of files more than the emit loop took, whatever it could give. Bodies
      in memory and downloads that may still bring one are no more than the body slots, and tasks
      no more than the pool. */
  lemma ReadAheadIsBounded(c: Config, s: State)
    requires c.Valid() && c.promptGet && Reachable(c, s)
    ensures forall w :: 0 <= w < |s.workers| ==> |s.workers[w].queue| <= c.queueCap && |s.workers[w].input| <= c.InputCap()
    ensures |s.files| <= s.received + c.workers * (c.queueCap + c.InputCap() + 1) + 1
    ensures SumBy(s.files, Held) <= c.bodyCap && SumBy(s.files, Pooled) <= c.poolCap
  {
    var run :| IsRun(c, run) && run[|run| - 1] == s;
    RunStaysWithin(c, run, |run| - 1);
    ReachableHolds(c, s);
    var x := s.workers[WorkerOf(c, s.received)];
    assert WorkerShape(c, s, x, WorkerOf(c, s.received)) && InputOk(c, s, x) && QueueOk(c, s, x);
    AwaitedIsBounded(c, s, x, c.workers);
  }

  // The worker whose result comes next has the least index to go.
  lemma AwaitedIsBounded(c: Config, s: State, x: Worker, n: nat)
    requires n == c.workers >= 1 && x.next % n == s.received % n
    requires InputOk(c, s, x) && QueueOk(c, s, x) && Trails(c, x)
    requires |x.queue| <= c.queueCap && |x.input| <= c.InputCap()
    ensures s.handed <= s.received + n * (c.queueCap + c.InputCap() + 1)
  {
    ModWindow(s.received, x.next, n);
    ChainSpans(x.queue, x.next, x.at, n);
    MulMonotone(n, |x.queue| + |x.input| + 1, c.queueCap + c.InputCap() + 1);
    assert x.next + n * |x.queue| + n * (|x.input| + 1) == x.next + n * (|x.queue| + |x.input| + 1);
  }
}
