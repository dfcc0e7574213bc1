/** Which page of an attempt proves a message gone. */
module WithdrawalSpec {
  import opened Schema
  import opened Provider
  import opened Revisions
  import opened Walk

  /** Answer `i` is the page, asked for below the cursor, and nothing was asked for since. */
  predicate CameFrom(t: Tables, req: Request, answers: seq<Timed>, i: nat, before: Option<MessageId>, page: Page) {
    && LastFetch(t, req, answers, |answers|, i)
    && answers[i].answer == Fetched(page)
    && Advance(t, req, Entering, answers[..i]).1.at.before == before
  }

  /** After `i` answers the walk waits for a page. */
  predicate Asking(t: Tables, req: Request, answers: seq<Timed>, i: nat)
    requires i <= |answers|
  {
    Advance(t, req, Entering, answers[..i]).1.Fetching?
  }

  /** Answer `i` is the last answer to a fetch among the first `n`. */
  predicate LastFetch(t: Tables, req: Request, answers: seq<Timed>, n: nat, i: nat)
    requires n <= |answers|
  {
    && i < n && Asking(t, req, answers, i)
    && forall j :: i < j <= n ==> !Asking(t, req, answers, j)
  }

  predicate PageCame(t: Tables, req: Request, answers: seq<Timed>, w: Walk) {
    (w.Storing? || w.Withdrawing?) ==>
      exists i :: 0 <= i < |answers| && CameFrom(t, req, answers, i, w.at.before, w.page)
  }

  /** The row was not withdrawn before the attempt, or some page of the attempt proves its message gone. */
  predicate Justified(t: Tables, req: Request, answers: seq<Timed>, k: RevisionKey) {
    (k in t.revisions && t.revisions[k].deleted.Some?) ||
    (k.channel == req.channel && exists i :: 0 <= i < |answers| && ProvedGone(t, req, answers, i, k.message))
  }

  /** Step `n` of the attempt withdraws the row. */
  predicate WithdrawnBy(t: Tables, req: Request, answers: seq<Timed>, n: nat, k: RevisionKey)
    requires n < |answers|
  {
    var t1, t2 := Advance(t, req, Entering, answers[..n]).0, Advance(t, req, Entering, answers[..n + 1]).0;
    k in t2.revisions && t2.revisions[k].deleted.Some? && !(k in t1.revisions && t1.revisions[k].deleted.Some?)
  }

  /** The channel did not hold the message, or marked it deleted, when the page was served that the walk
      had in hand at step `n`. */
  predicate AbsentWhenFetched(t: Tables, req: Request, answers: seq<Timed>, snaps: seq<seq<Post>>, n: nat,
      id: MessageId)
    requires n < |answers| == |snaps|
  {
    exists i :: 0 <= i < n && LastFetch(t, req, answers, n, i) && answers[i].answer.Fetched? && !Live(snaps[i], id)
  }

  /** Answer `i` is a page that proves the message gone. */
  predicate ProvedGone(t: Tables, req: Request, answers: seq<Timed>, i: nat, id: MessageId)
    requires i < |answers|
  {
    && answers[i].answer.Fetched?
    && var asked := Advance(t, req, Entering, answers[..i]).1;
       && asked.Fetching?
       && var page := answers[i].answer.page;
          var range := Proved(page, asked.at.before);
          range.Some? && AbsenceOf(page, range.value).Covers(id)
  }

  /** Answer `i`, when it is a page, is the page the channel `ch` holds below the cursor asked for. */
  predicate Answered(t: Tables, req: Request, answers: seq<Timed>, i: nat, ch: seq<Post>)
    requires i < |answers|
  {
    var asked := Advance(t, req, Entering, answers[..i]).1;
    answers[i].answer.Fetched? && asked.Fetching? ==> answers[i].answer.page == PageOf(ch, asked.at.before, req.Limit())
  }

  /** The id lies in exactly one of the ranges when it reaches the last lower bound, else in none. */
  predicate Tiled(tiles: seq<ProvedRange>, id: MessageId) {
    && tiles != []
    && (id >= tiles[|tiles| - 1].lowest <==> exists i :: 0 <= i < |tiles| && tiles[i].Holds(id))
    && (forall i, j :: 0 <= i < j < |tiles| ==> !(tiles[i].Holds(id) && tiles[j].Holds(id)))
  }

  /** The ranges all end at or below the bound, and so does the last lower bound. */
  predicate Under(tiles: seq<ProvedRange>, bound: MessageId) {
    && tiles != []
    && (forall i :: 0 <= i < |tiles| ==> tiles[i].below.Some? && tiles[i].below.value <= bound)
    && tiles[|tiles| - 1].lowest <= bound
  }

  /** The proved ranges of the first `k` pages below a cursor. */
  function Tiles(ch: seq<Post>, before: Option<MessageId>, limit: nat, k: nat): seq<ProvedRange>
    decreases k
  {
    if k == 0 then [] else
      var page := PageOf(ch, before, limit);
      var range := Proved(page, before);
      if range.None? then []
      else [range.value] + (if page.next.None? then [] else Tiles(ch, page.next, limit, k - 1))
  }

  /** The cursor below which page `k` is asked for, when there is such a page. */
  function CursorAt(ch: seq<Post>, before: Option<MessageId>, limit: nat, k: nat): Option<Option<MessageId>>
    decreases k
  {
    if k == 0 then Some(before) else
      var page := PageOf(ch, before, limit);
      if page.next.None? then None else CursorAt(ch, page.next, limit, k - 1)
  }

  /** Where an attempt reads on. */
  function LeaseCursor(leases: map<LeaseKey, Checkpoint>, req: Request): Option<MessageId> {
    if req.Lease() in leases && !leases[req.Lease()].mark.Completed? then leases[req.Lease()].before else None
  }

  /** The ranges the pages of an attempt prove, in the order they were fetched. */
  function ProvedRanges(t: Tables, req: Request, answers: seq<Timed>): seq<ProvedRange>
    decreases |answers|
  {
    if answers == [] then [] else
      var n := |answers| - 1;
      ProvedRanges(t, req, answers[..n]) + RangeOf(Advance(t, req, Entering, answers[..n]).1, answers[n].answer)
  }

  /** The range that one answer proves. */
  function RangeOf(w: Walk, a: Answer): seq<ProvedRange> {
    if w.Fetching? && a.Fetched? && Proved(a.page, w.at.before).Some? then [Proved(a.page, w.at.before).value] else []
  }

  /** The walk stands where `n` pages below the cursor `start` lead. */
  predicate AtPage(ch: seq<Post>, limit: nat, start: Option<MessageId>, n: nat, w: Walk) {
    match w
    case Entering => n == 0
    case Resolving(at) => CursorAt(ch, start, limit, n) == Some(at.before)
    case Fetching(at, _) => CursorAt(ch, start, limit, n) == Some(at.before)
    case Storing(at, page, _, _, _, _) =>
      n > 0 && CursorAt(ch, start, limit, n - 1) == Some(at.before) && page == PageOf(ch, at.before, limit)
    case Withdrawing(at, page, _, _, _) =>
      n > 0 && CursorAt(ch, start, limit, n - 1) == Some(at.before) && page == PageOf(ch, at.before, limit)
    case Saving(at, _) => at.before.Some? ==> CursorAt(ch, start, limit, n) == Some(at.before)
    case _ => true
  }

  /** The ranges are the first tiles below the cursor, and the walk stands behind them. */
  predicate RangesLead(ch: seq<Post>, limit: nat, start: Option<MessageId>, ranges: seq<ProvedRange>, w: Walk) {
    ranges == Tiles(ch, start, limit, |ranges|) && AtPage(ch, limit, start, |ranges|, w)
  }
}

/** Withdrawal by absence is sound while the channel changes, and the proved ranges of a walk tile. */
module Withdrawal {
  import opened Schema
  import opened Provider
  import opened Revisions
  import opened Walk
  import opened CoverageSpec
  import opened Coverage
  import opened Exactness
  import opened WithdrawalSpec

  lemma {:induction false} EarlierStays(t: Tables, req: Request, answers: seq<Timed>, i: nat)
    requires 0 <= i < |answers| - 1
    ensures answers[..|answers| - 1][..i] == answers[..i]
    ensures answers[..|answers| - 1][i] == answers[i]
  {
  }

  lemma {:induction false} JustifiedStays(t: Tables, req: Request, answers: seq<Timed>, k: RevisionKey)
    requires 0 < |answers| && Justified(t, req, answers[..|answers| - 1], k)
    ensures Justified(t, req, answers, k)
  {
    var before := answers[..|answers| - 1];
    if !(k in t.revisions && t.revisions[k].deleted.Some?) {
      var i :| 0 <= i < |before| && ProvedGone(t, req, before, i, k.message);
      EarlierStays(t, req, answers, i);
      assert ProvedGone(t, req, answers, i, k.message);
    }
  }

  lemma {:induction false} PrefixAsks(t: Tables, req: Request, answers: seq<Timed>, n: nat, j: nat)
    requires j <= n <= |answers|
    ensures Asking(t, req, answers[..n], j) == Asking(t, req, answers, j)
  {
    assert answers[..n][..j] == answers[..j];
  }

  lemma {:induction false} LastFetchOf(t: Tables, req: Request, answers: seq<Timed>, n: nat, i: nat)
    requires n <= |answers| && LastFetch(t, req, answers[..n], n, i)
    ensures LastFetch(t, req, answers, n, i)
  {
    PrefixAsks(t, req, answers, n, i);
    forall j | i < j <= n
      ensures !Asking(t, req, answers, j)
    {
      PrefixAsks(t, req, answers, n, j);
    }
  }

  lemma {:induction false} CameFromStays(t: Tables, req: Request, answers: seq<Timed>, n: nat, i: nat,
      before: Option<MessageId>, page: Page)
    requires |answers| == n + 1 && CameFrom(t, req, answers[..n], i, before, page) && !Asking(t, req, answers, n + 1)
    ensures CameFrom(t, req, answers, i, before, page)
  {
    LastFetchOf(t, req, answers, n, i);
    EarlierStays(t, req, answers, i);
  }

  lemma {:induction false} PageCameStays(t: Tables, req: Request, answers: seq<Timed>, w: Walk)
    requires 0 < |answers| && (w.Storing? || w.Withdrawing?) && PageCame(t, req, answers[..|answers| - 1], w)
    requires !Asking(t, req, answers, |answers|)
    ensures PageCame(t, req, answers, w)
  {
    var n := |answers| - 1;
    var i :| 0 <= i < n && CameFrom(t, req, answers[..n], i, w.at.before, w.page);
    CameFromStays(t, req, answers, n, i, w.at.before, w.page);
  }

  /** Only a withdrawal step withdraws, and only what its page proves gone. */
  lemma {:induction false} StepWithdraws(t: Tables, req: Request, w: Walk, now: Instant, a: Answer, k: RevisionKey)
    requires var t' := Step(t, req, w, now, a).0;
      k in t'.revisions && t'.revisions[k].deleted.Some? && !(k in t.revisions && t.revisions[k].deleted.Some?)
    ensures w.Withdrawing? && k.channel == req.channel
    ensures Proved(w.page, w.at.before).Some? && AbsenceOf(w.page, Proved(w.page, w.at.before).value).Covers(k.message)
  {
    if w.Storing? && w.next < |w.page.posts| {
      var seen := StorePostAppends(t, req, w, a);
    }
  }

  /** A page in hand is the one just fetched, or the one in hand before. */
  lemma {:induction false} StepKeepsPage(t: Tables, req: Request, w: Walk, now: Instant, a: Answer)
    ensures var w' := Step(t, req, w, now, a).1;
      (w'.Storing? || w'.Withdrawing?) ==>
        || ((w.Storing? || w.Withdrawing?) && w'.page == w.page && w'.at.before == w.at.before)
        || (w.Fetching? && a == Fetched(w'.page) && w'.at.before == w.at.before)
  {
  }

  /** The page in hand is the answer to the last fetch. */
  lemma {:induction false} PageInHand(t: Tables, req: Request, answers: seq<Timed>)
    ensures PageCame(t, req, answers, Advance(t, req, Entering, answers).1)
    decreases |answers|
  {
    if answers != [] {
      var n := |answers| - 1;
      PageInHand(t, req, answers[..n]);
      var (t1, w1) := Advance(t, req, Entering, answers[..n]);
      var w2 := Step(t1, req, w1, answers[n].at, answers[n].answer).1;
      assert answers[..n + 1] == answers && w2 == Advance(t, req, Entering, answers).1;
      if w2.Storing? || w2.Withdrawing? {
        StepKeepsPage(t1, req, w1, answers[n].at, answers[n].answer);
        if w1.Fetching? {
          assert CameFrom(t, req, answers, n, w2.at.before, w2.page);
        } else {
          PageCameStays(t, req, answers, w2);
        }
      }
    }
  }

  /** What the page in hand proves gone is justified. */
  lemma {:induction false} InHandJustifies(t: Tables, req: Request, answers: seq<Timed>, k: RevisionKey)
    requires var w := Advance(t, req, Entering, answers).1;
      && w.Withdrawing? && k.channel == req.channel
      && Proved(w.page, w.at.before).Some? && AbsenceOf(w.page, Proved(w.page, w.at.before).value).Covers(k.message)
    ensures Justified(t, req, answers, k)
  {
    PageInHand(t, req, answers);
    var w := Advance(t, req, Entering, answers).1;
    var i :| 0 <= i < |answers| && CameFrom(t, req, answers, i, w.at.before, w.page);
    assert ProvedGone(t, req, answers, i, k.message);
  }

  /** Every withdrawal of an attempt is justified by a page of that attempt. */
  lemma {:induction false} WithdrawalIsJustified(t: Tables, req: Request, answers: seq<Timed>, k: RevisionKey)
    requires var t' := Advance(t, req, Entering, answers).0; k in t'.revisions && t'.revisions[k].deleted.Some?
    ensures Justified(t, req, answers, k)
    decreases |answers|
  {
    if answers != [] {
      var n := |answers| - 1;
      var (t1, w1) := Advance(t, req, Entering, answers[..n]);
      if k in t1.revisions && t1.revisions[k].deleted.Some? {
        WithdrawalIsJustified(t, req, answers[..n], k);
      } else {
        StepWithdraws(t1, req, w1, answers[n].at, answers[n].answer, k);
        InHandJustifies(t, req, answers[..n], k);
      }
      JustifiedStays(t, req, answers, k);
    }
  }

  /** A page proves nothing gone that the channel held when it was served. */
  lemma {:induction false} ServedPageProves(ch: seq<Post>, req: Request, before: Option<MessageId>, page: Page,
      id: MessageId)
    requires req.pageSize > 0 && Descending(ch) && page == PageOf(ch, before, req.Limit())
    requires Proved(page, before).Some? && AbsenceOf(page, Proved(page, before).value).Covers(id)
    ensures !Live(ch, id)
  {
    var p, n, e := PageIsSlice(ch, before, req.Limit());
    if Live(ch, id) {
      LiveIsNotAbsent(ch, before, p, n, e, Proved(page, before).value, id);
    }
  }

  /** Soundness over a changing channel, step by step: `snaps[i]` is the channel when answer `i` was given.
      What a step withdraws was absent, or marked deleted, when the page of that step was fetched. */
  lemma {:induction false} WithdrawalIsSound(t: Tables, req: Request, answers: seq<Timed>, snaps: seq<seq<Post>>,
      n: nat, k: RevisionKey)
    requires req.pageSize > 0 && n < |answers| == |snaps|
    requires forall i :: 0 <= i < |answers| ==> Descending(snaps[i])
    requires forall i :: 0 <= i < |answers| ==> Answered(t, req, answers, i, snaps[i])
    requires WithdrawnBy(t, req, answers, n, k)
    ensures k.channel == req.channel && AbsentWhenFetched(t, req, answers, snaps, n, k.message)
  {
    var before := answers[..n];
    var (t1, w1) := Advance(t, req, Entering, before);
    assert answers[..n + 1][..n] == before && answers[..n + 1][n] == answers[n];
    StepWithdraws(t1, req, w1, answers[n].at, answers[n].answer, k);
    PageInHand(t, req, before);
    var i :| 0 <= i < n && CameFrom(t, req, before, i, w1.at.before, w1.page);
    LastFetchOf(t, req, answers, n, i);
    assert before[..i] == answers[..i] && before[i] == answers[i];
    assert Answered(t, req, answers, i, snaps[i]);
    ServedPageProves(snaps[i], req, w1.at.before, w1.page, k.message);
  }

  /** What an attempt withdrew, one of its steps withdrew. */
  lemma {:induction false} SomeStepWithdrew(t: Tables, req: Request, answers: seq<Timed>,
      k: RevisionKey) returns (n: nat)
    requires var t' := Advance(t, req, Entering, answers).0;
      k in t'.revisions && t'.revisions[k].deleted.Some? && !(k in t.revisions && t.revisions[k].deleted.Some?)
    ensures n < |answers| && WithdrawnBy(t, req, answers, n, k)
    decreases |answers|
  {
    n := |answers| - 1;
    assert answers[..n + 1] == answers;
    var t1 := Advance(t, req, Entering, answers[..n]).0;
    if k in t1.revisions && t1.revisions[k].deleted.Some? {
      n := SomeStepWithdrew(t, req, answers[..n], k);
      assert answers[..|answers| - 1][..n] == answers[..n] && answers[..|answers| - 1][..n + 1] == answers[..n + 1];
    }
  }

  /** An attempt that read only full pages, whether the page limit or the provider stopped it,
      withdraws nothing below the lowest post it read. */
  lemma {:induction false} NothingBelowThePages(t: Tables, req: Request, answers: seq<Timed>, floor: MessageId,
      k: RevisionKey)
    requires forall i :: 0 <= i < |answers| && answers[i].answer.Fetched? ==>
      && answers[i].answer.page.next.Some?
      && forall j :: 0 <= j < |answers[i].answer.page.posts| ==> answers[i].answer.page.posts[j].id >= floor
    requires var t' := Advance(t, req, Entering, answers).0;
      k in t'.revisions && t'.revisions[k].deleted.Some? && !(k in t.revisions && t.revisions[k].deleted.Some?)
    ensures k.message >= floor
  {
    WithdrawalIsJustified(t, req, answers, k);
    var i :| 0 <= i < |answers| && ProvedGone(t, req, answers, i, k.message);
    var page := answers[i].answer.page;
    if k.message in Ids(page.posts, true) {
      var j :| 0 <= j < |page.posts| && page.posts[j].deleted && page.posts[j].id == k.message;
    } else {
      var j :| 0 <= j < |page.posts| && page.posts[j].id == Lowest(page.posts);
    }
  }

  // ---------------------------------------------------------------- tiling

  /** The later tiles all lie below the cursor they start from. */
  lemma {:induction false} TilesFollow(ch: seq<Post>, before: MessageId, limit: nat, k: nat)
    requires Descending(ch) && limit > 0 && k > 0
    ensures Under(Tiles(ch, Some(before), limit, k), before)
    decreases k
  {
    var range, next := TilesUnfold(ch, Some(before), limit, k);
    LowestBelow(ch, before, limit, k, range);
    if next.Some? && k > 1 {
      TilesFollow(ch, next.value, limit, k - 1);
      ConsUnder(range, Tiles(ch, next, limit, k - 1), before);
    } else {
      assert Tiles(ch, Some(before), limit, k) == [range];
    }
  }

  /** The first range below a cursor begins below it. */
  lemma {:induction false} LowestBelow(ch: seq<Post>, before: MessageId, limit: nat, k: nat, range: ProvedRange)
    requires Descending(ch) && limit > 0 && k > 0
    requires Tiles(ch, Some(before), limit, k) != [] && Tiles(ch, Some(before), limit, k)[0] == range
    ensures range.lowest <= before
  {
    var page, n, e := PageIsSlice(ch, Some(before), limit);
    if page.next.Some? {
      LastIsLowest(ch, n, e);
    }
  }

  lemma {:induction false} ConsUnder(range: ProvedRange, rest: seq<ProvedRange>, bound: MessageId)
    requires Under(rest, range.lowest) && range.below == Some(bound) && range.lowest <= bound
    ensures Under([range] + rest, bound)
  {
    var tiles := [range] + rest;
    assert forall i :: 0 < i < |tiles| ==> tiles[i] == rest[i - 1];
    assert tiles[|tiles| - 1] == rest[|rest| - 1];
  }

  lemma {:induction false} OneTile(range: ProvedRange, id: MessageId)
    requires range.below.Some? ==> id < range.below.value
    ensures Tiled([range], id)
  {
    assert [range][0].Holds(id) <==> id >= range.lowest;
  }

  lemma {:induction false} ConsTiles(range: ProvedRange, rest: seq<ProvedRange>, id: MessageId)
    requires Under(rest, range.lowest) && (range.below.Some? ==> id < range.below.value)
    requires id < range.lowest ==> Tiled(rest, id)
    ensures Tiled([range] + rest, id)
  {
    var tiles := [range] + rest;
    assert forall i :: 0 < i < |tiles| ==> tiles[i] == rest[i - 1];
    if id < range.lowest {
      if i :| 0 <= i < |rest| && rest[i].Holds(id) {
        assert tiles[i + 1].Holds(id);
      }
    } else {
      assert tiles[0].Holds(id);
    }
  }

  /** The first tile, and the tiles of the pages after it. */
  lemma {:induction false} TilesUnfold(ch: seq<Post>, before: Option<MessageId>, limit: nat,
      k: nat) returns (range: ProvedRange, next: Option<MessageId>)
    requires Descending(ch) && limit > 0 && k > 0
    ensures range.below == before
    ensures next.Some? ==> range.lowest == next.value
    ensures Tiles(ch, before, limit, k) == [range] + if next.None? then [] else Tiles(ch, next, limit, k - 1)
  {
    var page, n, e := PageIsSlice(ch, before, limit);
    range, next := Proved(page, before).value, page.next;
    if next.Some? {
      LastIsLowest(ch, n, e);
    }
  }

  /** The proved ranges of successive pages tile: an id below the first cursor lies in exactly one of
      them when it is at or above the lowest bound of the last, and in none otherwise. */
  lemma {:induction false} RangesTile(ch: seq<Post>, before: Option<MessageId>, limit: nat, k: nat, id: MessageId)
    requires Descending(ch) && limit > 0 && k > 0
    requires before.Some? ==> id < before.value
    ensures Tiled(Tiles(ch, before, limit, k), id)
    decreases k
  {
    var range, next := TilesUnfold(ch, before, limit, k);
    if next.Some? && k > 1 {
      TilesFollow(ch, next.value, limit, k - 1);
      if id < range.lowest {
        RangesTile(ch, next, limit, k - 1, id);
      }
      ConsTiles(range, Tiles(ch, next, limit, k - 1), id);
    } else {
      OneTile(range, id);
      assert Tiles(ch, before, limit, k) == [range];
    }
  }

  // ---------------------------------------------------------------- the ranges of an attempt

  lemma {:induction false} NextCursor(ch: seq<Post>, start: Option<MessageId>, limit: nat, n: nat)
    requires CursorAt(ch, start, limit, n).Some?
    ensures var page := PageOf(ch, CursorAt(ch, start, limit, n).value, limit);
      CursorAt(ch, start, limit, n + 1) == if page.next.None? then None else Some(page.next)
    decreases n
  {
    if n > 0 {
      NextCursor(ch, PageOf(ch, start, limit).next, limit, n - 1);
    }
  }

  /** One page more is one tile more. */
  lemma {:induction false} OneTileMore(ch: seq<Post>, start: Option<MessageId>, limit: nat, n: nat)
    requires Descending(ch) && limit > 0 && CursorAt(ch, start, limit, n).Some?
    ensures var c := CursorAt(ch, start, limit, n).value;
      var range := Proved(PageOf(ch, c, limit), c);
      range.Some? && Tiles(ch, start, limit, n + 1) == Tiles(ch, start, limit, n) + [range.value]
    ensures |Tiles(ch, start, limit, n)| == n
    decreases n
  {
    PageProves(ch, start, limit);
    if n == 0 {
      FirstTile(ch, start, limit, 0);
    } else {
      var next := PageOf(ch, start, limit).next;
      OneTileMore(ch, next, limit, n - 1);
      FirstTile(ch, start, limit, n);
      FirstTile(ch, start, limit, n - 1);
      var c := CursorAt(ch, start, limit, n).value;
      Regroup(Proved(PageOf(ch, start, limit), start).value, Tiles(ch, next, limit, n - 1),
              Proved(PageOf(ch, c, limit), c).value);
    }
  }

  lemma {:induction false} Regroup<T>(x: T, s: seq<T>, y: T)
    ensures [x] + (s + [y]) == ([x] + s) + [y]
  {
  }

  /** The first tile is that of the first page. */
  lemma {:induction false} FirstTile(ch: seq<Post>, start: Option<MessageId>, limit: nat, n: nat)
    requires Descending(ch) && limit > 0
    ensures var page := PageOf(ch, start, limit);
      && Proved(page, start).Some?
      && Tiles(ch, start, limit, n + 1) ==
           [Proved(page, start).value] + if page.next.None? then [] else Tiles(ch, page.next, limit, n)
  {
    PageProves(ch, start, limit);
  }

  lemma {:induction false} OneRangeMore(ch: seq<Post>, start: Option<MessageId>, limit: nat, ranges: seq<ProvedRange>,
      c: Option<MessageId>, range: ProvedRange)
    requires Descending(ch) && limit > 0 && ranges == Tiles(ch, start, limit, |ranges|)
    requires CursorAt(ch, start, limit, |ranges|) == Some(c) && Proved(PageOf(ch, c, limit), c) == Some(range)
    ensures ranges + [range] == Tiles(ch, start, limit, |ranges + [range]|)
  {
    OneTileMore(ch, start, limit, |ranges|);
    assert |ranges + [range]| == |ranges| + 1;
  }

  /** An answered fetch turns to the next page and proves its range. */
  lemma {:induction false} FetchTurnsPage(ch: seq<Post>, limit: nat, start: Option<MessageId>, ranges: seq<ProvedRange>,
      w: Walk, range: ProvedRange, w': Walk)
    requires Descending(ch) && limit > 0 && w.Fetching? && RangesLead(ch, limit, start, ranges, w)
    requires Proved(PageOf(ch, w.at.before, limit), w.at.before) == Some(range)
    requires w'.Storing? && w'.at.before == w.at.before && w'.page == PageOf(ch, w.at.before, limit)
    ensures RangesLead(ch, limit, start, ranges + [range], w')
  {
    OneRangeMore(ch, start, limit, ranges, w.at.before, range);
    PageInHandAt(ch, limit, start, |ranges|, w, w');
  }

  lemma {:induction false} PageInHandAt(ch: seq<Post>, limit: nat, start: Option<MessageId>, n: nat, w: Walk, w': Walk)
    requires w.Fetching? && AtPage(ch, limit, start, n, w)
    requires w'.Storing? && w'.at.before == w.at.before && w'.page == PageOf(ch, w.at.before, limit)
    ensures AtPage(ch, limit, start, n + 1, w')
  {
  }

  /** The withdrawal of a page leads below it. */
  lemma {:induction false} WithdrawalLeads(ch: seq<Post>, limit: nat, start: Option<MessageId>, n: nat, w: Walk,
      w': Walk)
    requires w.Withdrawing? && AtPage(ch, limit, start, n, w)
    requires w'.Saving? && w'.at.before == if w.reached then None else w.page.next
    ensures AtPage(ch, limit, start, n, w')
  {
    NextCursor(ch, start, limit, n - 1);
  }

  lemma {:induction false} WithdrawingStays(t: Tables, req: Request, ch: seq<Post>, start: Option<MessageId>, n: nat,
      w: Walk, now: Instant, a: Answer)
    requires w.Withdrawing? && AtPage(ch, req.Limit(), start, n, w)
    ensures AtPage(ch, req.Limit(), start, n, Step(t, req, w, now, a).1) && !Step(t, req, w, now, a).1.Entering?
  {
    WithdrawingCases(t, req, w, now, a);
    var w' := Step(t, req, w, now, a).1;
    if w'.Saving? {
      WithdrawalLeads(ch, req.Limit(), start, n, w, w');
    }
  }

  lemma {:induction false} StoringStays(t: Tables, req: Request, ch: seq<Post>, start: Option<MessageId>, n: nat,
      w: Walk, now: Instant, a: Answer)
    requires w.Storing? && AtPage(ch, req.Limit(), start, n, w)
    ensures AtPage(ch, req.Limit(), start, n, Step(t, req, w, now, a).1) && !Step(t, req, w, now, a).1.Entering?
  {
    if w.next < |w.page.posts| {
      StorePostCases(t, req, w, a);
    }
  }

  /** Every other step keeps the walk at its page. */
  lemma {:induction false} OtherStays(t: Tables, req: Request, ch: seq<Post>, start: Option<MessageId>, n: nat, w: Walk,
      now: Instant, a: Answer)
    requires !w.Storing? && !w.Withdrawing? && !(w.Fetching? && a.Fetched?) && AtPage(ch, req.Limit(), start, n, w)
    requires w.Entering? ==> LeaseCursor(t.leases, req) == start
    ensures AtPage(ch, req.Limit(), start, n, Step(t, req, w, now, a).1) && !Step(t, req, w, now, a).1.Entering?
  {
  }

  lemma {:induction false} StepLeads(t: Tables, req: Request, ch: seq<Post>, start: Option<MessageId>,
      ranges: seq<ProvedRange>, w: Walk, now: Instant, a: Answer)
    requires Descending(ch) && req.Limit() > 0 && RangesLead(ch, req.Limit(), start, ranges, w)
    requires Faithful(req, ch, w, a)
    requires w.Entering? ==> LeaseCursor(t.leases, req) == start
    ensures RangesLead(ch, req.Limit(), start, ranges + RangeOf(w, a), Step(t, req, w, now, a).1)
    ensures !Step(t, req, w, now, a).1.Entering?
  {
    if w.Fetching? && a.Fetched? {
      PageProves(ch, w.at.before, req.Limit());
      FetchTurnsPage(ch, req.Limit(), start, ranges, w, Proved(a.page, w.at.before).value, Step(t, req, w, now, a).1);
    } else {
      assert ranges + RangeOf(w, a) == ranges;
      if w.Storing? {
        StoringStays(t, req, ch, start, |ranges|, w, now, a);
      } else if w.Withdrawing? {
        WithdrawingStays(t, req, ch, start, |ranges|, w, now, a);
      } else {
        OtherStays(t, req, ch, start, |ranges|, w, now, a);
      }
    }
  }

  /** The pages of an attempt over a fixed channel prove the first tiles below the cursor it resumed at, in order. */
  lemma {:induction false} RangesAreTiles(t: Tables, req: Request, ch: seq<Post>, answers: seq<Timed>)
    requires Descending(ch) && req.Limit() > 0 && FaithfulRun(t, req, ch, Entering, answers)
    ensures RangesLead(ch, req.Limit(), LeaseCursor(t.leases, req), ProvedRanges(t, req, answers),
                       Advance(t, req, Entering, answers).1)
    ensures answers != [] ==> !Advance(t, req, Entering, answers).1.Entering?
    decreases |answers|
  {
    if answers != [] {
      var n := |answers| - 1;
      RangesAreTiles(t, req, ch, answers[..n]);
      var (t1, w1) := Advance(t, req, Entering, answers[..n]);
      assert answers[..n] == [] ==> (t1, w1) == (t, Entering);
      StepLeads(t1, req, ch, LeaseCursor(t.leases, req), ProvedRanges(t, req, answers[..n]), w1, answers[n].at,
                answers[n].answer);
    }
  }

  /** So the ranges an attempt proves tile the ids below its first cursor. */
  lemma {:induction false} AttemptTiles(t: Tables, req: Request, ch: seq<Post>, answers: seq<Timed>, id: MessageId)
    requires Descending(ch) && req.Limit() > 0 && FaithfulRun(t, req, ch, Entering, answers)
    requires ProvedRanges(t, req, answers) != []
    requires LeaseCursor(t.leases, req).Some? ==> id < LeaseCursor(t.leases, req).value
    ensures Tiled(ProvedRanges(t, req, answers), id)
  {
    RangesAreTiles(t, req, ch, answers);
    RangesTile(ch, LeaseCursor(t.leases, req), req.Limit(), |ProvedRanges(t, req, answers)|, id);
  }
}
