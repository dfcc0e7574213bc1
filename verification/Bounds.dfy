/** What a report without a partial result is worth for each pair of page bounds. */
module BoundsSpec {
  import opened Schema
  import opened Provider
  import opened Walk
  import opened CoverageSpec
  import opened Coverage

  /** After earlier attempts, cut off anywhere, the last one reports a complete acquisition. */
  predicate Reports(t: Tables, req: Request, ch: seq<Post>, scripts: seq<seq<Timed>>, last: seq<Timed>) {
    && ValidChannel(ch) && req.Lease() !in t.leases
    && FaithfulAttempts(t, req, ch, scripts)
    && FaithfulRun(Attempts(t, req, scripts), req, ch, Entering, last)
    && var w := Advance(Attempts(t, req, scripts), req, Entering, last).1;
      w.Done? && w.outcome.Reported? && !w.outcome.partial
  }

  /** Whatever the channel holds and however often the process died, complete means covered. */
  ghost predicate CompleteMeansCovered(req: Request) {
    forall t, ch, scripts, last | Reports(t, req, ch, scripts, last) ::
      Covered(Advance(Attempts(t, req, scripts), req, Entering, last).0.revisions.Keys, req, ch)
  }

  /** The attempt fetched and stored nothing: no page, or one empty page. */
  function EmptyAttempt(req: Request, now: Instant): seq<Timed> {
    var ok := Timed(now, Carried(0));
    if req.maxPages == 0 then [Timed(now, Silent), Timed(now, Resolved), ok]
    else [Timed(now, Silent), Timed(now, Resolved), Timed(now, Fetched(Page([], None))), Timed(now, Silent), ok, ok, ok]
  }
}

/** The bounds the executor passes are needed: with a page limit or a page size of zero the walk reports a
    complete acquisition it did not make. */
module Bounds {
  import opened Schema
  import opened Provider
  import opened Revisions
  import opened Walk
  import opened CoverageSpec
  import opened Coverage
  import opened BoundsSpec

  lemma {:induction false} AdvanceOne(t: Tables, req: Request, w: Walk, answers: seq<Timed>, last: Timed)
    ensures Advance(t, req, w, answers + [last]) ==
      var (t', w') := Advance(t, req, w, answers); Step(t', req, w', last.at, last.answer)
  {
    assert (answers + [last])[..|answers|] == answers;
  }

  lemma {:induction false} FaithfulOne(t: Tables, req: Request, ch: seq<Post>, w: Walk, answers: seq<Timed>,
      last: Timed)
    requires FaithfulRun(t, req, ch, w, answers)
    requires Faithful(req, ch, Advance(t, req, w, answers).1, last.answer)
    ensures FaithfulRun(t, req, ch, w, answers + [last])
  {
    assert (answers + [last])[..|answers|] == answers;
  }

  lemma {:induction false} Extend(t: Tables, req: Request, ch: seq<Post>, answers: seq<Timed>, last: Timed, t1: Tables,
      w1: Walk)
    requires FaithfulRun(t, req, ch, Entering, answers) && Advance(t, req, Entering, answers) == (t1, w1)
    requires Faithful(req, ch, w1, last.answer)
    ensures FaithfulRun(t, req, ch, Entering, answers + [last])
    ensures Advance(t, req, Entering, answers + [last]) == Step(t1, req, w1, last.at, last.answer)
  {
    AdvanceOne(t, req, Entering, answers, last);
    FaithfulOne(t, req, ch, Entering, answers, last);
  }

  /** With a page limit of zero the walk reads nothing, changes no row and reports itself complete. */
  lemma {:induction false} NoPageIsComplete(t: Tables, req: Request, ch: seq<Post>, now: Instant)
    requires CanonicalUsername(req.username) && req.Lease() !in t.leases && req.maxPages == 0
    ensures FaithfulRun(t, req, ch, Entering, EmptyAttempt(req, now))
    ensures var (t', w') := Advance(t, req, Entering, EmptyAttempt(req, now));
      t'.revisions == t.revisions && w' == Done(Reported(0, 0, false))
  {
    var e := EmptyAttempt(req, now);
    var start := Position(None, 0, 0);
    Extend(t, req, ch, [], e[0], t, Entering);
    Extend(t, req, ch, [e[0]], e[1], t, Resolving(start));
    Extend(t, req, ch, [e[0]] + [e[1]], e[2], t, Closing(start));
    assert e == [e[0]] + [e[1]] + [e[2]];
  }

  /** With a page size of zero the empty page proves every message of the channel gone: the walk withdraws
      all of them, whatever the channel holds, and reports itself complete. */
  lemma {:induction false} EmptyPageWithdrawsAll(t: Tables, req: Request, ch: seq<Post>, now: Instant)
    requires CanonicalUsername(req.username) && req.Lease() !in t.leases && req.maxPages > 0 && req.pageSize == 0
    ensures FaithfulRun(t, req, ch, Entering, EmptyAttempt(req, now))
    ensures var (t', w') := Advance(t, req, Entering, EmptyAttempt(req, now));
      && t'.revisions.Keys == t.revisions.Keys
      && (forall k :: k in t.revisions && k.channel == req.channel ==> t'.revisions[k].deleted.Some?)
      && w' == Done(Reported(1, 0, false))
  {
    var e := EmptyAttempt(req, now);
    var at, page := Position(None, 1, 0), Page([], None);
    assert PageOf(ch, None, 0) == page;
    Extend(t, req, ch, [], e[0], t, Entering);
    Extend(t, req, ch, [e[0]], e[1], t, Resolving(Position(None, 0, 0)));
    Extend(t, req, ch, [e[0]] + [e[1]], e[2], t, Fetching(Position(None, 0, 0), {}));
    Extend(t, req, ch, [e[0]] + [e[1]] + [e[2]], e[3], t, Storing(at, page, {}, 0, 0, false));
    var front := [e[0]] + [e[1]] + [e[2]] + [e[3]];
    EmptyPageCloses(t, req, ch, now, front);
    assert e == front + [e[4]] + [e[5]] + [e[6]];
  }

  lemma {:induction false} EmptyPageCloses(t: Tables, req: Request, ch: seq<Post>, now: Instant, front: seq<Timed>)
    requires var at, page := Position(None, 1, 0), Page([], None);
      && FaithfulRun(t, req, ch, Entering, front)
      && Advance(t, req, Entering, front) == (t, Withdrawing(at, page, {}, 0, false))
    ensures var ok := Timed(now, Carried(0));
      var (t', w') := Advance(t, req, Entering, front + [ok] + [ok] + [ok]);
      && FaithfulRun(t, req, ch, Entering, front + [ok] + [ok] + [ok])
      && t'.revisions.Keys == t.revisions.Keys
      && (forall k :: k in t.revisions && k.channel == req.channel ==> t'.revisions[k].deleted.Some?)
      && w' == Done(Reported(1, 0, false))
  {
    var at, page, ok := Position(None, 1, 0), Page([], None), Timed(now, Carried(0));
    var gone := AbsenceOf(page, Proved(page, None).value);
    assert forall id: MessageId :: gone.Covers(id);
    var t1 := WithdrawMissing(t, req.channel, gone, now);
    var t2 := Save(t1, req, at, PageCommitted, now + LEASE_SECONDS);
    Extend(t, req, ch, front, ok, t, Withdrawing(at, page, {}, 0, false));
    Extend(t, req, ch, front + [ok], ok, t1, Saving(at, {}));
    Extend(t, req, ch, front + [ok] + [ok], ok, t2, Closing(at));
  }

  lemma {:induction false} NoNameNoReport(t: Tables, req: Request, answers: seq<Timed>)
    requires !CanonicalUsername(req.username)
    ensures var w := Advance(t, req, Entering, answers).1; w.Entering? || (w.Done? && !w.outcome.Reported?)
    decreases |answers|
  {
    if answers != [] {
      NoNameNoReport(t, req, answers[..|answers| - 1]);
    }
  }

  function NoTables(): Tables { Tables(map[], map[], map[], map[], map[], map[], map[], map[], map[]) }

  lemma {:induction false} ZeroBoundFails(req: Request)
    requires CanonicalUsername(req.username) && req.start < req.end
    requires req.maxPages == 0 || req.pageSize == 0
    ensures !CompleteMeansCovered(req)
  {
    var ch := [Post(0, [1], Some(req.start), false)];
    var t, last := NoTables(), EmptyAttempt(req, 0);
    if req.maxPages == 0 {
      NoPageIsComplete(t, req, ch, 0);
    } else {
      EmptyPageWithdrawsAll(t, req, ch, 0);
    }
    assert Attempts(t, req, []) == t;
    assert Reports(t, req, ch, [], last);
    assert req.Wanted(ch[0]);
    assert Advance(t, req, Entering, last).0.revisions.Keys == {};
  }

  /** The exact condition: a report without a partial result means the window is covered if and only if
      both bounds are positive, for every request that can want a post at all. */
  lemma {:induction false} CompleteMeansCoveredExactlyWhen(req: Request)
    ensures CompleteMeansCovered(req) <==>
      (CanonicalUsername(req.username) && req.start < req.end ==> req.maxPages > 0 && req.pageSize > 0)
  {
    if CanonicalUsername(req.username) && req.start < req.end && (req.maxPages == 0 || req.pageSize == 0) {
      ZeroBoundFails(req);
    } else {
      forall t, ch, scripts, last | Reports(t, req, ch, scripts, last)
        ensures Covered(Advance(Attempts(t, req, scripts), req, Entering, last).0.revisions.Keys, req, ch)
      {
        ReportCovers(t, req, ch, scripts, last);
      }
    }
  }

  lemma {:induction false} ReportCovers(t: Tables, req: Request, ch: seq<Post>, scripts: seq<seq<Timed>>,
      last: seq<Timed>)
    requires CanonicalUsername(req.username) && req.start < req.end ==> req.maxPages > 0 && req.pageSize > 0
    requires Reports(t, req, ch, scripts, last)
    ensures Covered(Advance(Attempts(t, req, scripts), req, Entering, last).0.revisions.Keys, req, ch)
  {
    if !CanonicalUsername(req.username) {
      NoNameNoReport(Attempts(t, req, scripts), req, last);
    } else if req.start < req.end {
      CompleteWalkCovers(t, req, ch, scripts, last);
    }
  }
}
