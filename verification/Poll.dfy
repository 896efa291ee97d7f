/** Reading the feed: poll.go. */
module Poll {
  // The feed is the sequence of sequenced rows; the catalog protocol keeps it gap-free and only
  // appends.

  import opened Wrappers

  const DEFAULT_POLL_PAGE_SIZE := 10000

  datatype Row = Row(offset: int, fileId: nat)

  // Row feed[i] has offset i + 1.
  predicate GapFree(feed: seq<Row>)
  {
    forall i :: 0 <= i < |feed| ==> feed[i].offset == i + 1
  }

  function Max(a: int, b: int): int { if a < b then b else a }

  function Min(a: int, b: int): int { if a < b then a else b }

  // ---------- one Poll ----------

  // WHERE feed_seq >= since AND feed_seq < until ORDER BY feed_seq, on rows in feed order.
  function Selected(rows: seq<Row>, since: int, until: int): seq<Row>
  {
    if rows == [] then []
    else
      (if since <= rows[0].offset < until then [rows[0]] else []) + Selected(rows[1..], since, until)
  }

  // The stretch of a gap-free feed with offsets in [since, until).
  function Window<R>(feed: seq<R>, since: int, until: int): seq<R>
  {
    var lo, hi := Max(since, 1) - 1, Min(until - 1, |feed|);
    if lo < hi then feed[lo..hi] else []
  }

  // The offset to resume from: one past the last row, or `since` when there is none.
  function NextOffset<R>(since: int, rows: seq<R>): int
  {
    if rows == [] then since else Max(since, 1) + |rows|
  }

  lemma {:induction false} SelectedFrom(feed: seq<Row>, i: nat, since: int, until: int)
    requires GapFree(feed) && i <= |feed|
    ensures Selected(feed[i..], since, until) == Window(feed, Max(since, i + 1), until)
    decreases |feed| - i
  {
    if i < |feed| {
      SelectedFrom(feed, i + 1, since, until);
      assert feed[i..][0] == feed[i] && feed[i..][1..] == feed[i + 1..];
    }
  }

  lemma SelectedIsWindow(feed: seq<Row>, since: int, until: int)
    requires GapFree(feed)
    ensures Selected(feed, since, until) == Window(feed, since, until)
  {
    SelectedFrom(feed, 0, since, until);
    assert feed[0..] == feed;
    assert Window(feed, Max(since, 1), until) == Window(feed, since, until);
  }

  lemma WindowOfPrefix<R>(f: seq<R>, g: seq<R>, since: int, until: int)
    requires f <= g
    ensures Window(g, since, NextOffset(since, Window(f, since, until))) == Window(f, since, until)
  {
  }

  datatype Answer = Seen(feed: seq<Row>) | DbError | Cancelled

  datatype PollResult = Page(rows: seq<Row>, next: int) | Inverted | PollErr | PollCancelled

  /** Poll: the page is the window of the feed, and `next` is where a reader resumes. */
  method PollOnce(db: Answer, since: int, until: int) returns (r: PollResult)
    requires db.Seen? ==> GapFree(db.feed)
    ensures since > until ==> r == Inverted
    ensures since == until ==> r == Page([], since)
    ensures since < until && db.Seen? ==>
      r == Page(Window(db.feed, since, until), NextOffset(since, Window(db.feed, since, until)))
    ensures since < until && db.DbError? ==> r == PollErr
    ensures since < until && db.Cancelled? ==> r == PollCancelled
  {
    if since > until { return Inverted; }
    if since == until { return Page([], since); }
    match db
    case DbError => return PollErr;
    case Cancelled => return PollCancelled;
    case Seen(feed) =>
      SelectedIsWindow(feed, since, until);
      r := ReadRows(Selected(feed, since, until), since);
  }

  // The loop over the result set.
  method ReadRows(rows: seq<Row>, since: int) returns (r: PollResult)
    requires forall i :: 0 <= i < |rows| ==> rows[i].offset == Max(since, 1) + i
    ensures r == Page(rows, NextOffset(since, rows))
  {
    var out: seq<Row> := [];
    var next := since;
    for i := 0 to |rows|
      invariant out == rows[..i] && next == NextOffset(since, out)
    {
      var e := rows[i];
      out := out + [e];
      if e.offset + 1 > next { next := e.offset + 1; }
    }
    assert rows[..|rows|] == rows;
    r := Page(out, next);
  }

  // OffsetLatest: MAX(feed_seq) + 1, and 1 for an empty feed.
  function OffsetLatest(feed: seq<Row>): int { |feed| + 1 }

  // One past the offset of the last row.
  function PastLast(rows: seq<Row>): int
    requires rows != []
  {
    rows[|rows| - 1].offset + 1
  }

  // ---------- what successive polls see ----------

  // The i-th poll of an iterator sees polls(i); between polls the feed may grow.
  ghost predicate Growing(polls: nat -> Answer)
  {
    && (forall i :: polls(i).Seen? ==> GapFree(polls(i).feed))
    && (forall i, j :: i <= j && polls(i).Seen? && polls(j).Seen? ==> polls(i).feed <= polls(j).feed)
  }

  datatype Ending = Finished | Failed | Stopped | Broke

  // An iterator started at `since` has yielded everything below `cursor` of this feed.
  ghost predicate Reached(feed: seq<Row>, since: int, cursor: int, yielded: seq<Row>)
  {
    GapFree(feed) && yielded == Window(feed, since, cursor) && cursor == NextOffset(since, yielded)
  }

  // One page further, on a feed that may have grown meanwhile.
  lemma PageStep(top: seq<Row>, feed: seq<Row>, since: int, cursor: int, end: int, yielded: seq<Row>)
    requires Reached(top, since, cursor, yielded) && top <= feed && GapFree(feed) && cursor < end
    ensures Reached(feed, since, NextOffset(cursor, Window(feed, cursor, end)), yielded + Window(feed, cursor, end))
  {
  }

  lemma PageJoins(top: seq<Row>, feed: seq<Row>, since: int, cursor: int, end: int, yielded: seq<Row>)
    requires Reached(top, since, cursor, yielded) && top <= feed && cursor < end
    ensures yielded + Window(feed, cursor, end) == Window(feed, since, end)
  {
    assert yielded <= Window(top, since, end);
    ResumeIsSeamless(top, feed, since, end, yielded);
  }

  lemma PageMoves(feed: seq<Row>, cursor: int, end: int, page: seq<Row>)
    requires GapFree(feed) && page == Window(feed, cursor, end)
    ensures if page == [] then NextOffset(cursor, page) == cursor else cursor < NextOffset(cursor, page) == PastLast(page)
  {
  }

  /** OffsetLatest is the tip: every row so far lies below it, and up to it the feed is final. */
  lemma WindowBelowTip(f: seq<Row>, g: seq<Row>, since: int, until: int)
    requires f <= g
    ensures until <= OffsetLatest(f) ==> Window(g, since, until) == Window(f, since, until)
    ensures GapFree(f) ==> forall i :: 0 <= i < |f| ==> f[i].offset < OffsetLatest(f)
  {
  }

  /** Resuming one past the last row received, on the feed as it is by then, completes the
      stretch without a gap or a duplicate, wherever the first reader stopped. */
  lemma ResumeIsSeamless(f: seq<Row>, g: seq<Row>, since: int, until: int, yielded: seq<Row>)
    requires f <= g && yielded <= Window(f, since, until)
    ensures yielded + Window(g, NextOffset(since, yielded), until) == Window(g, since, until)
  {
  }

  lemma WindowGrows(f: seq<Row>, g: seq<Row>, since: int, until: int)
    requires f <= g
    ensures Window(f, since, until) <= Window(g, since, until)
  {
  }

  // The iterator hands rows to the consumer, which breaks off at row `breakAt`.
  predicate Breaks(breakAt: Option<nat>, yielded: seq<Row>)
  {
    breakAt.Some? && |yielded| == breakAt.value + 1
  }

  // Row `breakAt` is among the rows yielded.
  predicate Past(breakAt: Option<nat>, yielded: seq<Row>)
  {
    breakAt.Some? && |yielded| > breakAt.value
  }

  // After `before`, the page went to the consumer, up to the row at which it broke off.
  predicate Handed(before: seq<Row>, page: seq<Row>, breakAt: Option<nat>, yielded: seq<Row>, broke: bool)
  {
    && before <= yielded <= before + page
    && if broke then Breaks(breakAt, yielded) else yielded == before + page && !Past(breakAt, yielded)
  }

  lemma NothingHanded(before: seq<Row>, breakAt: Option<nat>)
    requires !Past(breakAt, before)
    ensures Handed(before, [], breakAt, before, false)
  {
    assert before + [] == before;
  }

  method YieldPage(page: seq<Row>, before: seq<Row>, breakAt: Option<nat>) returns (yielded: seq<Row>, broke: bool)
    requires !Past(breakAt, before)
    ensures Handed(before, page, breakAt, yielded, broke)
  {
    yielded, broke := before, false;
    for i := 0 to |page|
      invariant yielded == before + page[..i] && !Past(breakAt, yielded)
    {
      yielded := yielded + [page[i]];
      assert yielded == before + page[..i + 1];
      if Breaks(breakAt, yielded) { broke := true; return; }
    }
    assert page[..|page|] == page;
  }

  // How an iterator ends is settled by its inputs: it fails or stops on the poll that did,
  // it breaks on the consumer's row, and otherwise it finishes. `polled` polls were answered,
  // and `top` is the feed as the last of them saw it.
  ghost predicate EndsFor(polls: nat -> Answer, breakAt: Option<nat>, yielded: seq<Row>, ending: Ending, top: seq<Row>, polled: nat)
  {
    && (forall i :: 0 <= i < polled ==> polls(i).Seen?)
    && (if polled == 0 then top == [] else polls(polled - 1) == Seen(top))
    && match ending
       case Finished => !Past(breakAt, yielded)
       case Failed => polls(polled).DbError? && !Past(breakAt, yielded)
       case Stopped => polls(polled).Cancelled? && !Past(breakAt, yielded)
       case Broke => Breaks(breakAt, yielded)
  }

  // No poll fails, nobody cancels and the consumer takes everything.
  ghost predicate Undisturbed(polls: nat -> Answer, breakAt: Option<nat>)
  {
    breakAt.None? && forall i :: polls(i).Seen?
  }

  // One poll more.
  lemma PollsOn(polls: nat -> Answer, breakAt: Option<nat>, yielded: seq<Row>, top: seq<Row>, n: nat)
    requires Growing(polls) && EndsFor(polls, breakAt, yielded, Finished, top, n)
    ensures polls(n).Seen? ==> GapFree(polls(n).feed)
    ensures polls(n).Seen? ==> polls(0).Seen? && polls(0).feed <= polls(n).feed && top <= polls(n).feed
    ensures polls(n).DbError? ==> EndsFor(polls, breakAt, yielded, Failed, top, n)
    ensures polls(n).Cancelled? ==> EndsFor(polls, breakAt, yielded, Stopped, top, n)
    ensures !polls(n).Seen? ==> !Undisturbed(polls, breakAt)
    ensures !Past(breakAt, yielded)
  {
  }

  lemma RowsTaken(polls: nat -> Answer, breakAt: Option<nat>, before: seq<Row>, top: seq<Row>, n: nat, yielded: seq<Row>)
    requires EndsFor(polls, breakAt, before, Finished, top, n) && polls(n).Seen?
    ensures !Past(breakAt, yielded) ==> EndsFor(polls, breakAt, yielded, Finished, polls(n).feed, n + 1)
    ensures Breaks(breakAt, yielded) ==> EndsFor(polls, breakAt, yielded, Broke, polls(n).feed, n + 1) && !Undisturbed(polls, breakAt)
  {
  }

  // ---------- cycles ----------

  function PageSize(requested: int): (p: int)
    ensures p >= 1
  {
    if requested <= 0 then DEFAULT_POLL_PAGE_SIZE else requested
  }

  // Where the page that starts at `cursor` ends.
  function PageEnd(cursor: int, pageSize: int, until: Option<int>): int
  {
    if until.None? then cursor + pageSize else Min(cursor + pageSize, until.value)
  }

  // What was yielded once a cycle has taken the whole page that its poll saw.
  function Took(feed: seq<Row>, since: int, pageSize: int, until: Option<int>, before: seq<Row>): seq<Row>
  {
    Window(feed, since, PageEnd(NextOffset(since, before), pageSize, until))
  }

  // Cycle by cycle: `after[i]` is what had been yielded after i cycles, and every cycle took
  // the page that its own poll saw.
  ghost predicate Cycles(polls: nat -> Answer, since: int, pageSize: int, until: Option<int>, after: seq<seq<Row>>)
  {
    && |after| > 0 && after[0] == []
    && forall i :: 0 <= i < |after| - 1 ==> polls(i).Seen? && after[i + 1] == Took(polls(i).feed, since, pageSize, until, after[i])
  }

  // The rows yielded are those of the answered polls' cycles; if the consumer broke off, it
  // did so within the page of the last one.
  ghost predicate Yields(polls: nat -> Answer, since: int, pageSize: int, until: Option<int>, ending: Ending, polled: nat, after: seq<seq<Row>>, yielded: seq<Row>)
  {
    && Cycles(polls, since, pageSize, until, after)
    && if ending.Broke? then
         |after| == polled && polls(polled - 1).Seen? &&
           after[polled - 1] <= yielded <= Took(polls(polled - 1).feed, since, pageSize, until, after[polled - 1])
       else |after| == polled + 1 && yielded == after[polled]
  }

  // Where an iterator stands between two cycles.
  ghost predicate Standing(polls: nat -> Answer, since: int, pageSize: int, until: Option<int>, n: nat, cursor: int, top: seq<Row>, yielded: seq<Row>, after: seq<seq<Row>>)
  {
    Reached(top, since, cursor, yielded) && Yields(polls, since, pageSize, until, Finished, n, after, yielded)
  }

  lemma StandsAtStart(polls: nat -> Answer, since: int, pageSize: int, until: Option<int>)
    ensures Standing(polls, since, pageSize, until, 0, since, [], [], [[]])
  {
  }

  lemma StandingYields(polls: nat -> Answer, since: int, pageSize: int, until: Option<int>, n: nat, cursor: int, top: seq<Row>, yielded: seq<Row>, after: seq<seq<Row>>, ending: Ending)
    requires Standing(polls, since, pageSize, until, n, cursor, top, yielded, after) && !ending.Broke?
    ensures Yields(polls, since, pageSize, until, ending, n, after, yielded)
    ensures cursor == NextOffset(since, after[n]) && yielded == after[n]
  {
  }

  lemma CycleAdded(polls: nat -> Answer, since: int, pageSize: int, until: Option<int>, n: nat, after: seq<seq<Row>>, yielded: seq<Row>)
    requires Cycles(polls, since, pageSize, until, after) && |after| == n + 1 && polls(n).Seen?
    requires yielded == Took(polls(n).feed, since, pageSize, until, after[n])
    ensures Cycles(polls, since, pageSize, until, after + [yielded])
  {
    hide Took;
    var all := after + [yielded];
    forall i | 0 <= i < |all| - 1 ensures polls(i).Seen? && all[i + 1] == Took(polls(i).feed, since, pageSize, until, all[i]) {
      assert all[i] == after[i];
      assert i < n ==> all[i + 1] == after[i + 1];
    }
  }

  // A page was polled, and the consumer took it or broke off within it.
  lemma PageTaken(polls: nat -> Answer, breakAt: Option<nat>, since: int, pageSize: int, until: Option<int>, n: nat, cursor: int, top: seq<Row>,
                  before: seq<Row>, after: seq<seq<Row>>, page: seq<Row>, yielded: seq<Row>, broke: bool)
    requires Growing(polls) && Standing(polls, since, pageSize, until, n, cursor, top, before, after)
    requires EndsFor(polls, breakAt, before, Finished, top, n) && polls(n).Seen? && cursor < PageEnd(cursor, pageSize, until)
    requires page == Window(polls(n).feed, cursor, PageEnd(cursor, pageSize, until)) && Handed(before, page, breakAt, yielded, broke)
    ensures if page == [] then NextOffset(cursor, page) == cursor else cursor < NextOffset(cursor, page) == PastLast(page)
    ensures !broke ==> EndsFor(polls, breakAt, yielded, Finished, polls(n).feed, n + 1)
    ensures !broke ==> Standing(polls, since, pageSize, until, n + 1, NextOffset(cursor, page), polls(n).feed, yielded, after + [yielded])
    ensures !broke ==> (page == [] <==> yielded == before)
    ensures broke ==> EndsFor(polls, breakAt, yielded, Broke, polls(n).feed, n + 1) && !Undisturbed(polls, breakAt)
    ensures broke ==> Yields(polls, since, pageSize, until, Broke, n + 1, after, yielded)
  {
    PollsOn(polls, breakAt, before, top, n);
    RowsTaken(polls, breakAt, before, top, n, yielded);
    var feed, end := polls(n).feed, PageEnd(cursor, pageSize, until);
    PageStep(top, feed, since, cursor, end, before);
    PageJoins(top, feed, since, cursor, end, before);
    PageMoves(feed, cursor, end, page);
    assert before + [] == before;
    hide Growing, EndsFor, Undisturbed, Window, NextOffset, GapFree, PageEnd, Past, Breaks;
    assert before + page == Took(feed, since, pageSize, until, after[n]);
    if !broke { CycleAdded(polls, since, pageSize, until, n, after, yielded); }
    hide Cycles, Took;
  }

  // ---------- what the cycles amount to ----------

  // With a first page wholly below offset 1 nothing ever comes.
  lemma {:induction false} NothingBelowOne(polls: nat -> Answer, since: int, pageSize: int, until: Option<int>, after: seq<seq<Row>>, i: nat)
    requires Cycles(polls, since, pageSize, until, after) && i < |after| && since + pageSize <= 1
    ensures after[i] == []
  {
    if i > 0 {
      NothingBelowOne(polls, since, pageSize, until, after, i - 1);
      assert after[i - 1 + 1] == Took(polls(i - 1).feed, since, pageSize, until, after[i - 1]);
    }
  }

  lemma YieldsNothing(polls: nat -> Answer, since: int, pageSize: int, until: Option<int>, ending: Ending, polled: nat, after: seq<seq<Row>>, yielded: seq<Row>)
    requires Yields(polls, since, pageSize, until, ending, polled, after, yielded) && since + pageSize <= 1
    ensures yielded == []
  {
    NothingBelowOne(polls, since, pageSize, until, after, |after| - 1);
  }

  // All rows of the feed from `since` on.
  function Rest(feed: seq<Row>, since: int): seq<Row> { Window(feed, since, OffsetLatest(feed)) }

  lemma TookIsPrefix(feed: seq<Row>, since: int, pageSize: int, until: Option<int>, before: seq<Row>)
    ensures Took(feed, since, pageSize, until, before) <= Rest(feed, since)
    ensures until.Some? ==> Took(feed, since, pageSize, until, before) <= Window(feed, since, until.value)
  {
  }

  lemma YieldsPrefix(polls: nat -> Answer, breakAt: Option<nat>, since: int, pageSize: int, until: Option<int>, ending: Ending, top: seq<Row>, polled: nat, after: seq<seq<Row>>, yielded: seq<Row>)
    requires Yields(polls, since, pageSize, until, ending, polled, after, yielded) && EndsFor(polls, breakAt, yielded, ending, top, polled)
    ensures yielded <= Rest(top, since)
    ensures until.Some? ==> yielded <= Window(top, since, until.value)
  {
    if polled > 0 {
      assert polls(polled - 1) == Seen(top);
      TookIsPrefix(top, since, pageSize, until, after[polled - 1]);
      assert !ending.Broke? ==> after[polled - 1 + 1] == Took(top, since, pageSize, until, after[polled - 1]);
    }
    hide Took, Rest, Window;
  }

  // Each cycle extends what the one before left.
  lemma CycleExtends(polls: nat -> Answer, since: int, pageSize: int, after: seq<seq<Row>>, i: nat)
    requires Growing(polls) && Cycles(polls, since, pageSize, None, after) && i < |after| - 1 && pageSize >= 1
    ensures polls(i).Seen? && after[i] == Window(polls(i).feed, since, NextOffset(since, after[i])) <= after[i + 1]
  {
    assert after[i + 1] == Took(polls(i).feed, since, pageSize, None, after[i]);
    if i > 0 {
      assert after[i - 1 + 1] == Took(polls(i - 1).feed, since, pageSize, None, after[i - 1]);
      WindowOfPrefix(polls(i - 1).feed, polls(i).feed, since, NextOffset(since, after[i - 1]) + pageSize);
    } else {
      NothingYet(polls(0).feed, since);
    }
    LaterIsMore(polls(i).feed, since, NextOffset(since, after[i]), NextOffset(since, after[i]) + pageSize);
    hide Window, NextOffset;
  }

  lemma NothingYet(feed: seq<Row>, since: int)
    ensures Window(feed, since, since) == []
  {
  }

  lemma LaterIsMore(feed: seq<Row>, since: int, a: int, b: int)
    requires a <= b
    ensures Window(feed, since, a) <= Window(feed, since, b)
  {
  }

  // A reader that holds the rows below `a` of an earlier feed takes the next page of a later one.
  lemma NextPage(f: seq<Row>, g: seq<Row>, since: int, a: int, pageSize: int, before: seq<Row>)
    requires f <= g && pageSize >= 1 && since + pageSize > 1
    requires Window(f, since, a) <= before && before == Window(g, since, NextOffset(since, before))
    requires a == NextOffset(since, before) || since + pageSize <= a
    ensures Window(f, since, a + pageSize) <= Took(g, since, pageSize, None, before)
  {
  }

  lemma OnePageMore(polls: nat -> Answer, since: int, pageSize: int, after: seq<seq<Row>>, i: nat, j: nat, a: int)
    requires Growing(polls) && Cycles(polls, since, pageSize, None, after) && i <= j < |after| - 1
    requires pageSize >= 1 && since + pageSize > 1 && (a == NextOffset(since, after[j]) || since + pageSize <= a)
    requires polls(i).Seen? && Window(polls(i).feed, since, a) <= after[j]
    ensures Window(polls(i).feed, since, a + pageSize) <= after[j + 1]
  {
    CycleExtends(polls, since, pageSize, after, j);
    assert after[j + 1] == Took(polls(j).feed, since, pageSize, None, after[j]);
    NextPage(polls(i).feed, polls(j).feed, since, a, pageSize, after[j]);
    hide Window, NextOffset, Took;
  }

  // k pages of the given size.
  function Pages(k: nat, pageSize: int): int { k * pageSize }

  lemma PagesAhead(since: int, rows: seq<Row>, pageSize: int, k: nat)
    requires pageSize >= 1
    ensures Pages(0, pageSize) == 0 && Pages(k + 1, pageSize) == Pages(k, pageSize) + pageSize
    ensures k > 0 ==> NextOffset(since, rows) + Pages(k, pageSize) >= since + pageSize
  {
  }

  /** What a tail delivers: k cycles after poll i answered, the reader has everything of the
      feed that this poll saw up to k pages beyond its place; and once that covers the feed, all
      of it, whenever the rows were appended. */
  lemma {:induction false} TailCatchesUp(polls: nat -> Answer, since: int, pageSize: int, after: seq<seq<Row>>, i: nat, k: nat)
    requires Growing(polls) && Cycles(polls, since, pageSize, None, after) && i < |after| - 1 && i + k < |after|
    requires pageSize >= 1 && since + pageSize > 1
    ensures polls(i).Seen? && Window(polls(i).feed, since, NextOffset(since, after[i]) + Pages(k, pageSize)) <= after[i + k]
    ensures NextOffset(since, after[i]) + Pages(k, pageSize) > |polls(i).feed| ==> Rest(polls(i).feed, since) <= after[i + k]
  {
    hide Window, NextOffset, Rest, Pages, Cycles, Growing;
    CycleExtends(polls, since, pageSize, after, i);
    var a, f := NextOffset(since, after[i]), polls(i).feed;
    PagesAhead(since, after[i], pageSize, 0);
    if k > 0 {
      TailCatchesUp(polls, since, pageSize, after, i, k - 1);
      PagesAhead(since, after[i], pageSize, k - 1);
      OnePageMore(polls, since, pageSize, after, i, i + k - 1, a + Pages(k - 1, pageSize));
    }
    WholeFeed(f, since, a + Pages(k, pageSize));
  }

  lemma WholeFeed(feed: seq<Row>, since: int, end: int)
    ensures end > |feed| ==> Window(feed, since, end) == Rest(feed, since)
  {
  }

  // ---------- PollIter ----------

  // After n pages PollIter has seen the end: an empty page, or nothing left below `until`.
  predicate Stops(since: int, until: int, after: seq<seq<Row>>, n: nat)
    requires n < |after|
  {
    n > 0 && (after[n] == after[n - 1] || NextOffset(since, after[n]) >= until)
  }

  // It did not stop before.
  ghost predicate GoesOn(since: int, until: int, after: seq<seq<Row>>, n: nat)
  {
    n <= |after| && forall m :: 0 <= m < n ==> !Stops(since, until, after, m)
  }

  lemma PageCounts(since: int, until: int, after: seq<seq<Row>>, yielded: seq<Row>)
    requires |after| > 0 && GoesOn(since, until, after, |after|)
    ensures GoesOn(since, until, after + [yielded], |after|)
    ensures Stops(since, until, after + [yielded], |after|) <==> yielded == after[|after| - 1] || NextOffset(since, yielded) >= until
    ensures !Stops(since, until, after + [yielded], |after|) ==> GoesOn(since, until, after + [yielded], |after| + 1)
  {
    var all := after + [yielded];
    forall m | 0 <= m < |after| ensures !Stops(since, until, all, m) { assert !Stops(since, until, after, m); }
  }

  // A page that came back empty or reached `until` was the last one.
  lemma LastPage(f: seq<Row>, g: seq<Row>, since: int, until: int, pageSize: int, before: seq<Row>, after: seq<Row>)
    requires f <= g && since < until && since + pageSize > 1 && pageSize >= 1
    requires before == Window(g, since, NextOffset(since, before)) && NextOffset(since, before) < until
    requires after == Took(g, since, pageSize, Some(until), before) && (after == before || NextOffset(since, after) >= until)
    ensures after == Window(g, since, until)
  {
  }

  lemma PageFits(polls: nat -> Answer, since: int, until: int, pageSize: int, after: seq<seq<Row>>, n: nat)
    requires Growing(polls) && Cycles(polls, since, pageSize, Some(until), after) && n < |after| - 1
    ensures polls(n).Seen? && after[n] == Window(polls(n).feed, since, NextOffset(since, after[n]))
    ensures after[n + 1] == Took(polls(n).feed, since, pageSize, Some(until), after[n])
  {
    assert after[n + 1] == Took(polls(n).feed, since, pageSize, Some(until), after[n]);
    if n > 0 {
      assert after[n - 1 + 1] == Took(polls(n - 1).feed, since, pageSize, Some(until), after[n - 1]);
      WindowOfPrefix(polls(n - 1).feed, polls(n).feed, since, PageEnd(NextOffset(since, after[n - 1]), pageSize, Some(until)));
    } else {
      NothingYet(polls(0).feed, since);
    }
    hide Window, NextOffset, PageEnd;
  }

  // Where PollIter stops, the window is complete on the feed that its last poll saw.
  lemma PagesComplete(polls: nat -> Answer, since: int, until: int, pageSize: int, after: seq<seq<Row>>, n: nat)
    requires Growing(polls) && Cycles(polls, since, pageSize, Some(until), after) && |after| == n + 1 && n > 0
    requires GoesOn(since, until, after, n) && Stops(since, until, after, n) && since < until && since + pageSize > 1 && pageSize >= 1
    ensures polls(n - 1).Seen? && after[n] == Window(polls(n - 1).feed, since, until)
  {
    PageFits(polls, since, until, pageSize, after, n - 1);
    assert !Stops(since, until, after, n - 1);
    BelowUntil(polls, since, until, pageSize, after, n - 1);
    var g := polls(n - 1).feed;
    hide Window, Took, Cycles, Growing;
    LastPage(g, g, since, until, pageSize, after[n - 1], after[n]);
  }

  lemma BelowUntil(polls: nat -> Answer, since: int, until: int, pageSize: int, after: seq<seq<Row>>, n: nat)
    requires Cycles(polls, since, pageSize, Some(until), after) && n < |after| && !Stops(since, until, after, n) && since < until
    ensures NextOffset(since, after[n]) < until
  {
  }

  // What PollIter owes at the end, against Poll on the feed of its first poll.
  ghost predicate Agrees(first: seq<Row>, since: int, until: int, pageSize: int, yielded: seq<Row>)
  {
    var all := Window(first, since, until);
    && (since + pageSize > 1 ==> all <= yielded)
    && (until <= OffsetLatest(first) ==> (yielded == all <==> since + pageSize > 1 || all == []))
  }

  lemma Agreement(first: seq<Row>, top: seq<Row>, since: int, until: int, pageSize: int, yielded: seq<Row>)
    requires first <= top
    requires if since + pageSize > 1 then yielded == Window(top, since, until) else yielded == []
    ensures Agrees(first, since, until, pageSize, yielded)
  {
    WindowBelowTip(first, top, since, until);
    WindowGrows(first, top, since, until);
  }

  // ---------- the two loops ----------

  // What holds however an iterator ends: the inputs settle the ending and the cycles the rows,
  // which are consecutive rows of the feed as the last answered poll saw it.
  ghost predicate Delivered(polls: nat -> Answer, breakAt: Option<nat>, since: int, pageSize: int, until: Option<int>,
                            ending: Ending, top: seq<Row>, polled: nat, after: seq<seq<Row>>, yielded: seq<Row>)
  {
    && EndsFor(polls, breakAt, yielded, ending, top, polled) && Yields(polls, since, pageSize, until, ending, polled, after, yielded)
    && (Undisturbed(polls, breakAt) ==> ending.Finished?)
    && yielded <= Rest(top, since) && (until.Some? ==> yielded <= Window(top, since, until.value))
    && (since + pageSize <= 1 ==> yielded == [])
  }

  lemma Ended(polls: nat -> Answer, breakAt: Option<nat>, since: int, pageSize: int, until: Option<int>, ending: Ending, top: seq<Row>, polled: nat, after: seq<seq<Row>>, yielded: seq<Row>)
    requires Yields(polls, since, pageSize, until, ending, polled, after, yielded) && EndsFor(polls, breakAt, yielded, ending, top, polled)
    requires Undisturbed(polls, breakAt) ==> ending.Finished?
    ensures Delivered(polls, breakAt, since, pageSize, until, ending, top, polled, after, yielded)
  {
    YieldsPrefix(polls, breakAt, since, pageSize, until, ending, top, polled, after, yielded);
    if since + pageSize <= 1 { YieldsNothing(polls, since, pageSize, until, ending, polled, after, yielded); }
    hide EndsFor, Yields, Undisturbed, Rest, Window;
  }

  // Between two cycles, with n polls answered.
  ghost predicate OnCourse(polls: nat -> Answer, breakAt: Option<nat>, since: int, pageSize: int, until: Option<int>,
                           n: nat, cursor: int, top: seq<Row>, yielded: seq<Row>, after: seq<seq<Row>>)
  {
    Standing(polls, since, pageSize, until, n, cursor, top, yielded, after) && EndsFor(polls, breakAt, yielded, Finished, top, n)
  }

  lemma SetsOut(polls: nat -> Answer, breakAt: Option<nat>, since: int, pageSize: int, until: Option<int>)
    ensures OnCourse(polls, breakAt, since, pageSize, until, 0, since, [], [], [[]])
  {
    StandsAtStart(polls, since, pageSize, until);
  }

  // It may stop here, and has to if the next poll fails.
  lemma MayLeave(polls: nat -> Answer, breakAt: Option<nat>, since: int, pageSize: int, until: Option<int>, n: nat, cursor: int, top: seq<Row>, yielded: seq<Row>, after: seq<seq<Row>>)
    requires Growing(polls) && OnCourse(polls, breakAt, since, pageSize, until, n, cursor, top, yielded, after)
    ensures (polls(n).Seen? ==> GapFree(polls(n).feed)) && !Past(breakAt, yielded)
    ensures Delivered(polls, breakAt, since, pageSize, until, Finished, top, n, after, yielded)
    ensures polls(n).DbError? ==> Delivered(polls, breakAt, since, pageSize, until, Failed, top, n, after, yielded)
    ensures polls(n).Cancelled? ==> Delivered(polls, breakAt, since, pageSize, until, Stopped, top, n, after, yielded)
  {
    PollsOn(polls, breakAt, yielded, top, n);
    StandingYields(polls, since, pageSize, until, n, cursor, top, yielded, after, Finished);
    StandingYields(polls, since, pageSize, until, n, cursor, top, yielded, after, Failed);
    StandingYields(polls, since, pageSize, until, n, cursor, top, yielded, after, Stopped);
    assert |after| == n + 1;
    hide Standing, Yields, EndsFor, Growing, Delivered, Undisturbed;
    Ended(polls, breakAt, since, pageSize, until, Finished, top, n, after, yielded);
    if polls(n).DbError? { Ended(polls, breakAt, since, pageSize, until, Failed, top, n, after, yielded); }
    if polls(n).Cancelled? { Ended(polls, breakAt, since, pageSize, until, Stopped, top, n, after, yielded); }
  }

  lemma CourseIs(polls: nat -> Answer, breakAt: Option<nat>, since: int, pageSize: int, until: Option<int>, n: nat, cursor: int, top: seq<Row>, yielded: seq<Row>, after: seq<seq<Row>>)
    requires OnCourse(polls, breakAt, since, pageSize, until, n, cursor, top, yielded, after)
    ensures |after| == n + 1 && yielded == after[n] && cursor == NextOffset(since, yielded)
  {
  }

  lemma CycleRuns(polls: nat -> Answer, breakAt: Option<nat>, since: int, pageSize: int, until: Option<int>, n: nat, cursor: int, top: seq<Row>,
                  before: seq<Row>, after: seq<seq<Row>>, page: seq<Row>, yielded: seq<Row>, broke: bool)
    requires Growing(polls) && OnCourse(polls, breakAt, since, pageSize, until, n, cursor, top, before, after)
    requires polls(n).Seen? && cursor < PageEnd(cursor, pageSize, until)
    requires page == Window(polls(n).feed, cursor, PageEnd(cursor, pageSize, until)) && Handed(before, page, breakAt, yielded, broke)
    ensures if page == [] then NextOffset(cursor, page) == cursor else cursor < NextOffset(cursor, page) == PastLast(page)
    ensures !broke ==> OnCourse(polls, breakAt, since, pageSize, until, n + 1, NextOffset(cursor, page), polls(n).feed, yielded, after + [yielded])
    ensures !broke ==> (page == [] <==> yielded == before)
    ensures broke ==> Delivered(polls, breakAt, since, pageSize, until, Broke, polls(n).feed, n + 1, after, yielded)
  {
    PageTaken(polls, breakAt, since, pageSize, until, n, cursor, top, before, after, page, yielded, broke);
    hide Standing, Yields, EndsFor, Growing, Delivered, Undisturbed, Handed, Window, NextOffset;
    if broke { Ended(polls, breakAt, since, pageSize, until, Broke, polls(n).feed, n + 1, after, yielded); }
  }

  // What PollIter adds when it finishes.
  ghost predicate WindowDone(polls: nat -> Answer, since: int, until: int, pageSize: int, top: seq<Row>, polled: nat, after: seq<seq<Row>>, yielded: seq<Row>)
  {
    && polled < |after| && Stops(since, until, after, polled)
    && (since + pageSize > 1 ==> yielded == Window(top, since, until))
    && polls(0).Seen? && Agrees(polls(0).feed, since, until, pageSize, yielded)
  }

  lemma Finishes(polls: nat -> Answer, breakAt: Option<nat>, since: int, until: int, pageSize: int, top: seq<Row>, n: nat, after: seq<seq<Row>>, yielded: seq<Row>)
    requires Growing(polls) && Delivered(polls, breakAt, since, pageSize, Some(until), Finished, top, n, after, yielded) && 0 < n < |after|
    requires GoesOn(since, until, after, n) && Stops(since, until, after, n) && since < until && pageSize >= 1
    ensures WindowDone(polls, since, until, pageSize, top, n, after, yielded)
  {
    assert polls(n - 1) == Seen(top) && polls(0).Seen? && polls(0).feed <= top;
    if since + pageSize > 1 { PagesComplete(polls, since, until, pageSize, after, n); }
    hide Growing, EndsFor, Yields, Stops, GoesOn, Window, Agrees, Rest, Undisturbed;
    Agreement(polls(0).feed, top, since, until, pageSize, yielded);
  }

  lemma PageRuns(polls: nat -> Answer, breakAt: Option<nat>, since: int, until: int, pageSize: int, n: nat, cursor: int, top: seq<Row>,
                 before: seq<Row>, after: seq<seq<Row>>, page: seq<Row>, yielded: seq<Row>, broke: bool)
    requires Growing(polls) && OnCourse(polls, breakAt, since, pageSize, Some(until), n, cursor, top, before, after)
    requires polls(n).Seen? && since < until && cursor < until && pageSize >= 1 && GoesOn(since, until, after, n + 1)
    requires page == Window(polls(n).feed, cursor, Min(cursor + pageSize, until)) && Handed(before, page, breakAt, yielded, broke)
    ensures page != [] ==> cursor < NextOffset(cursor, page)
    ensures broke ==> Delivered(polls, breakAt, since, pageSize, Some(until), Broke, polls(n).feed, n + 1, after, yielded)
    ensures !broke ==> GoesOn(since, until, after + [yielded], n + 1)
    ensures !broke && page != [] && NextOffset(cursor, page) < until ==> GoesOn(since, until, after + [yielded], n + 2)
    ensures !broke && page != [] && NextOffset(cursor, page) < until ==>
      OnCourse(polls, breakAt, since, pageSize, Some(until), n + 1, NextOffset(cursor, page), polls(n).feed, yielded, after + [yielded])
    ensures !broke && (page == [] || NextOffset(cursor, page) >= until) ==>
      Delivered(polls, breakAt, since, pageSize, Some(until), Finished, polls(n).feed, n + 1, after + [yielded], yielded) &&
      WindowDone(polls, since, until, pageSize, polls(n).feed, n + 1, after + [yielded], yielded)
  {
    hide Growing, OnCourse, Delivered, WindowDone, GoesOn, Stops, Window, NextOffset, Handed, GapFree, Past;
    CycleRuns(polls, breakAt, since, pageSize, Some(until), n, cursor, top, before, after, page, yielded, broke);
    CourseIs(polls, breakAt, since, pageSize, Some(until), n, cursor, top, before, after);
    if !broke {
      var all, next, feed := after + [yielded], NextOffset(cursor, page), polls(n).feed;
      PageCounts(since, until, after, yielded);
      CourseIs(polls, breakAt, since, pageSize, Some(until), n + 1, next, feed, yielded, all);
      MayLeave(polls, breakAt, since, pageSize, Some(until), n + 1, next, feed, yielded, all);
      if page == [] || next >= until { Finishes(polls, breakAt, since, until, pageSize, feed, n + 1, all, yielded); }
    }
  }

  /** PollIter: a loop over prefetched pages. Page by page, what it has yielded is the window of
      the feed up to the end of the page asked for, as that page's poll saw it; it stops at the
      first page that comes back empty or reaches `until`, and at no other, unless a poll fails
      or the consumer breaks off, which is settled by the inputs. So, undisturbed, it finishes
      with the whole window as its last poll saw it: every row that was there at its first
      poll, and up to the tip exactly Poll. The one exception is a first page wholly below
      offset 1. */
  method PollIter(polls: nat -> Answer, since: int, until: int, requested: int, breakAt: Option<nat>)
      returns (yielded: seq<Row>, ending: Ending, ghost top: seq<Row>, ghost polled: nat, ghost after: seq<seq<Row>>)
    requires Growing(polls)
    ensures Delivered(polls, breakAt, since, PageSize(requested), Some(until), ending, top, polled, after, yielded)
    ensures GoesOn(since, until, after, polled)
    ensures since >= until ==> ending.Finished? && polled == 0 && yielded == []
    ensures Undisturbed(polls, breakAt) ==> ending.Finished?
    ensures since < until && ending.Finished? ==> polls(0).Seen? && Agrees(polls(0).feed, since, until, PageSize(requested), yielded)
    ensures since < until && ending.Finished? ==> WindowDone(polls, since, until, PageSize(requested), top, polled, after, yielded)
  {
    yielded, ending, top, polled, after := [], Finished, [], 0, [[]];
    var pageSize := PageSize(requested);
    SetsOut(polls, breakAt, since, pageSize, Some(until));
    MayLeave(polls, breakAt, since, pageSize, Some(until), 0, since, top, yielded, after);
    if since >= until { return; }
    var cursor, calls := since, 0;
    assert GoesOn(since, until, after, 1);
    hide Growing, OnCourse, Delivered, WindowDone, GoesOn, Stops, Window, NextOffset, GapFree, Handed, Past, Breaks, PageSize;
    while true
      invariant polled == calls && cursor < until
      invariant OnCourse(polls, breakAt, since, pageSize, Some(until), calls, cursor, top, yielded, after)
      invariant GoesOn(since, until, after, calls + 1)
      decreases until - cursor
    {
      MayLeave(polls, breakAt, since, pageSize, Some(until), calls, cursor, top, yielded, after);
      FewerPages(since, until, after, calls);
      var r := PollOnce(polls(calls), cursor, Min(cursor + pageSize, until));
      if r.PollErr? { ending := Failed; return; }
      if r.PollCancelled? { ending := Stopped; return; }
      if r.rows == [] {
        NothingHanded(yielded, breakAt);
        PageRuns(polls, breakAt, since, until, pageSize, calls, cursor, top, yielded, after, [], yielded, false);
        top, polled, after := polls(calls).feed, polled + 1, after + [yielded];
        return;
      }
      var handed, broke := YieldPage(r.rows, yielded, breakAt);
      PageRuns(polls, breakAt, since, until, pageSize, calls, cursor, top, yielded, after, r.rows, handed, broke);
      yielded, top, polled := handed, polls(calls).feed, polled + 1;
      if broke { ending := Broke; return; }
      after := after + [yielded];
      if r.next >= until { return; }
      cursor, calls := r.next, calls + 1;
    }
  }

  lemma FewerPages(since: int, until: int, after: seq<seq<Row>>, n: nat)
    requires GoesOn(since, until, after, n + 1)
    ensures GoesOn(since, until, after, n)
  {
  }

  lemma TailRuns(polls: nat -> Answer, breakAt: Option<nat>, since: int, pageSize: int, n: nat, cursor: int, next: int, top: seq<Row>,
                 before: seq<Row>, after: seq<seq<Row>>, page: seq<Row>, yielded: seq<Row>, broke: bool)
    requires Growing(polls) && OnCourse(polls, breakAt, since, pageSize, None, n, cursor, top, before, after)
    requires polls(n).Seen? && pageSize >= 1 && page == Window(polls(n).feed, cursor, cursor + pageSize) && next == NextOffset(cursor, page)
    requires Handed(before, page, breakAt, yielded, broke)
    ensures if page == [] then next == cursor else next == PastLast(page)
    ensures !broke ==> OnCourse(polls, breakAt, since, pageSize, None, n + 1, next, polls(n).feed, yielded, after + [yielded])
    ensures broke ==> Delivered(polls, breakAt, since, pageSize, None, Broke, polls(n).feed, n + 1, after, yielded)
  {
    hide Growing, OnCourse, Delivered, Window, NextOffset, Handed;
    CycleRuns(polls, breakAt, since, pageSize, None, n, cursor, top, before, after, page, yielded, broke);
  }

  // An empty page: the next poll asks for the same range again.
  lemma TailWaits(polls: nat -> Answer, breakAt: Option<nat>, since: int, pageSize: int, n: nat, cursor: int, top: seq<Row>, yielded: seq<Row>, after: seq<seq<Row>>)
    requires Growing(polls) && OnCourse(polls, breakAt, since, pageSize, None, n, cursor, top, yielded, after)
    requires polls(n).Seen? && pageSize >= 1 && Window(polls(n).feed, cursor, cursor + pageSize) == []
    ensures OnCourse(polls, breakAt, since, pageSize, None, n + 1, cursor, polls(n).feed, yielded, after + [yielded])
  {
    hide Growing, OnCourse, Delivered, Window, Handed, Past;
    MayLeave(polls, breakAt, since, pageSize, None, n, cursor, top, yielded, after);
    NothingHanded(yielded, breakAt);
    TailRuns(polls, breakAt, since, pageSize, n, cursor, cursor, top, yielded, after, [], yielded, false);
  }

  // Of every poll's feed, all that the cycles left from there on can cover has been yielded.
  ghost predicate CaughtUp(polls: nat -> Answer, since: int, pageSize: int, cycles: nat, yielded: seq<Row>)
  {
    forall i: nat | i < cycles :: CaughtUpWith(polls(i), since + Pages(cycles - i, pageSize), since, yielded)
  }

  predicate CaughtUpWith(poll: Answer, end: int, since: int, yielded: seq<Row>)
  {
    poll.Seen? && (end > |poll.feed| ==> Rest(poll.feed, since) <= yielded)
  }

  lemma TailEnds(polls: nat -> Answer, breakAt: Option<nat>, since: int, pageSize: int, n: nat, cursor: int, top: seq<Row>, yielded: seq<Row>, after: seq<seq<Row>>)
    requires Growing(polls) && OnCourse(polls, breakAt, since, pageSize, None, n, cursor, top, yielded, after) && pageSize >= 1
    ensures since + pageSize > 1 ==> CaughtUp(polls, since, pageSize, n, yielded)
  {
    hide Growing, CaughtUp, Yields;
    if since + pageSize > 1 { TailIsCaughtUp(polls, since, pageSize, n, after, yielded); }
  }

  lemma TailIsCaughtUp(polls: nat -> Answer, since: int, pageSize: int, n: nat, after: seq<seq<Row>>, yielded: seq<Row>)
    requires Growing(polls) && pageSize >= 1 && since + pageSize > 1
    requires Yields(polls, since, pageSize, None, Finished, n, after, yielded)
    ensures CaughtUp(polls, since, pageSize, n, yielded)
  {
    hide Growing, Window, NextOffset, Rest, Pages, Cycles;
    forall i: nat | i < n ensures CaughtUpWith(polls(i), since + Pages(n - i, pageSize), since, yielded) {
      TailCatchesUp(polls, since, pageSize, after, i, n - i);
      NeverBack(since, after[i]);
    }
  }

  lemma NeverBack(since: int, rows: seq<Row>)
    ensures NextOffset(since, rows) >= since
  {
  }

  /** TailIter, followed for `cycles` of its polls. Cycle by cycle it takes the whole page that
      the cycle's own poll saw, empty or not, so `TailCatchesUp` speaks of its run. It ends as
      its inputs settle, and undisturbed goes on for all the cycles; of every poll's feed it has
      then yielded all that the cycles from there on could cover. */
  method TailIter(polls: nat -> Answer, since: int, requested: int, breakAt: Option<nat>, cycles: nat)
      returns (yielded: seq<Row>, ending: Ending, ghost top: seq<Row>, ghost polled: nat, ghost after: seq<seq<Row>>)
    requires Growing(polls)
    ensures Delivered(polls, breakAt, since, PageSize(requested), None, ending, top, polled, after, yielded)
    ensures ending.Finished? ==> polled == cycles
    ensures Undisturbed(polls, breakAt) ==> ending.Finished?
    ensures ending.Finished? && since + PageSize(requested) > 1 ==> CaughtUp(polls, since, PageSize(requested), cycles, yielded)
  {
    yielded, ending, top, polled, after := [], Finished, [], 0, [[]];
    var pageSize := PageSize(requested);
    var cursor, start, calls := since, since, 0;
    SetsOut(polls, breakAt, since, pageSize, None);
    hide Growing, OnCourse, Delivered, Window, NextOffset, GapFree, Handed, Past, Breaks, PageSize, PastLast, Undisturbed, CaughtUp;
    while calls < cycles
      invariant polled == calls <= cycles && start == cursor
      invariant OnCourse(polls, breakAt, since, pageSize, None, calls, cursor, top, yielded, after)
    {
      MayLeave(polls, breakAt, since, pageSize, None, calls, cursor, top, yielded, after);
      var r := PollOnce(polls(calls), start, start + pageSize);
      if r.PollErr? { ending := Failed; return; }
      if r.PollCancelled? { ending := Stopped; return; }
      if r.rows == [] {
        TailWaits(polls, breakAt, since, pageSize, calls, cursor, top, yielded, after);
        top, polled, after := polls(calls).feed, polled + 1, after + [yielded];
        start, calls := cursor, calls + 1;
        continue;
      }
      start := r.next;
      var handed, broke := YieldPage(r.rows, yielded, breakAt);
      TailRuns(polls, breakAt, since, pageSize, calls, cursor, r.next, top, yielded, after, r.rows, handed, broke);
      yielded, top, polled := handed, polls(calls).feed, polled + 1;
      if broke { ending := Broke; return; }
      cursor, calls, after := PastLast(r.rows), calls + 1, after + [yielded];
    }
    MayLeave(polls, breakAt, since, pageSize, None, cycles, cursor, top, yielded, after);
    TailEnds(polls, breakAt, since, pageSize, cycles, cursor, top, yielded, after);
  }
}
