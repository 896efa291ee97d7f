/** Exactly when reads are free of deadlock, and when they are faithful. */
module ReadConditions {
  import opened Wrappers
  import opened Dedup
  import opened Prepare
  import opened ReadPipeline
  import opened ReadTheorems
  import opened ReadLiveness
  import opened ReadLoss
  import opened ReadLimits

  // ---------- freedom from deadlock ----------

  /** The floor under the body-slot cap is what progress needs, as far as the read gets: with
      the GET hypothesis somebody can always move exactly if every partition that is too large
      lies behind one that does not decode. Otherwise there is a reachable state, with no
      failure and no cancellation, in which nobody can. */
  lemma FloorIsExactlyNeeded(c: Config)
    requires c.Valid() && c.promptGet
    ensures Passable(c) <==> NeverStuckAnywhere(c)
    ensures (forall p :: 0 <= p < |c.parts| ==> Decodable(c, c.Files(p))) ==> (c.Floored() <==> NeverStuckAnywhere(c))
  {
    FlooredOrWall(c);
    if Passable(c) {
      forall s | Reachable(c, s) && !s.emit.Finished? ensures CanMove(c, s) { NeverStuck(c, s); }
    } else {
      var p :| 0 <= p < |c.parts| && Wall(c, p);
      var e := WallExists(c, p);
    }
  }

  /** Without the hypothesis, one early context error among two or more files can leave the
      pipeline waiting for a partition that nobody downloads any more, until the caller
      cancels. */
  lemma LostFileBlocksForever(c: Config) returns (e: State)
    requires c.Valid() && !c.promptGet && !OneFile(c)
    ensures Reachable(c, e) && Shape(c, e) && !e.Stop() && !e.emit.Finished? && !CanMove(c, e)
  {
    var s, p := StartSkipping(c);
    s := SkipAll(c, s, p);
    SkippedDrifts(c, s, p);
    e := DriftsIntoTheWall(c, s, p);
    DriftsLive(c, e, p);
  }

  /** Freedom from deadlock, exactly: with the hypothesis, as far as the read gets every
      partition fits the body slots; without it, there is just one file. */
  lemma NeverStuckExactly(c: Config)
    requires c.Valid()
    ensures NeverStuckAnywhere(c) <==> if c.promptGet then Passable(c) else OneFile(c)
  {
    if c.promptGet {
      FloorIsExactlyNeeded(c);
    } else if OneFile(c) {
      forall s | Reachable(c, s) && !s.emit.Finished? ensures CanMove(c, s) { OneFileNeverStuck(c, s); }
    } else {
      var e := LostFileBlocksForever(c);
    }
  }

  // ---------- faithfulness ----------

  /** Without the hypothesis, for every configuration, a read can hand over every partition
      without any of its records, each call a success and no cause recorded. */
  lemma EarlyContextErrorLosesData(c: Config) returns (s: State)
    requires c.Valid() && !c.promptGet
    ensures Reachable(c, s) && s.cause.None?
    ensures |s.calls| == |c.parts| && forall i :: 0 <= i < |s.calls| ==> HollowCall(c, s.calls[i], i)
  {
    s := StartDrift(c);
    s := DriftsOn(c, s);
    ReachableHolds(c, s);
    HollowEnd(c, s);
  }

  /** The hypothesis is exactly what faithfulness needs: it holds, or there is nothing to lose
      because every file decodes and none holds a record. */
  lemma PromptGetIsExactlyNeeded(c: Config)
    requires c.Valid()
    ensures Faithful(c) <==> c.promptGet || NothingToLose(c)
  {
    if c.promptGet {
      forall s | Reachable(c, s) ensures Yields(s.calls) <= SequentialRead(c) { RefinesSequentialRead(c, s); }
    } else if NothingToLose(c) {
      forall s | Reachable(c, s) ensures Yields(s.calls) <= SequentialRead(c) { HollowYieldsAreRight(c, s); }
    } else {
      var s := EarlyContextErrorLosesData(c);
      YieldsOfCalls(s.calls);
      var p, f :| 0 <= p < |c.parts| && 0 <= f < |c.Files(p)| && FileRecs(c, c.Files(p)[f]) != Some([]);
      assert HollowCall(c, s.calls[p], p);
      HollowIsRight(c, p);
      if Yields(s.calls) <= SequentialRead(c) {
        assert Yields(s.calls)[p] == SequentialRead(c)[p];
        SequentialAt(c, 0, p);
      }
    }
  }
}
