/** The closed form of a walk over a fixed channel: which rows it leaves and which it withdraws. */
module RegionSpec {
  import opened Schema
  import opened Provider
  import opened Revisions
  import opened Walk
  import opened CoverageSpec

  /** How far an uninterrupted walk reads: the posts above `reach`, the whole channel when its last
      page is short, and whether the page limit cut it. */
  datatype Plan = Plan(reach: nat, whole: bool, partial: bool)

  predicate HasOld(ch: seq<Post>, req: Request, i: nat, e: nat)
    requires i <= e <= |ch|
  {
    exists j :: i <= j < e && req.TooOld(ch[j])
  }

  function PlanFrom(ch: seq<Post>, req: Request, i: nat, left: nat): (p: Plan)
    requires i <= |ch|
    ensures i <= p.reach <= |ch|
    decreases left
  {
    if left == 0 then Plan(i, false, true)
    else if i + req.Limit() > |ch| then Plan(|ch|, true, false)
    else if HasOld(ch, req, i, i + req.Limit()) then Plan(i + req.Limit(), false, false)
    else PlanFrom(ch, req, i + req.Limit(), left - 1)
  }

  function FullPlan(ch: seq<Post>, req: Request): Plan {
    PlanFrom(ch, req, 0, req.maxPages)
  }

  /** The ids at or above the first `n` posts, or all ids. */
  predicate InRegion(ch: seq<Post>, n: nat, whole: bool, id: MessageId)
    requires n <= |ch|
  {
    whole || (n > 0 && id >= ch[n - 1].id)
  }

  predicate StoredTo(rows: Rows, req: Request, ch: seq<Post>, n: nat)
    requires n <= |ch|
  {
    forall j :: 0 <= j < n && req.Wanted(ch[j]) ==> req.Key(ch[j]) in rows
  }

  /** No row of the region that is missing upstream is left unwithdrawn. */
  predicate PurgedTo(rows: Rows, req: Request, ch: seq<Post>, n: nat, whole: bool)
    requires n <= |ch|
  {
    forall k :: k in rows && k.channel == req.channel && rows[k].deleted.None? && InRegion(ch, n, whole, k.message)
      ==> Live(ch, k.message)
  }

  /** Nothing beyond the plan was written: new rows are wanted posts of the region, and new
      withdrawals are of messages of the region that the channel does not hold. */
  predicate Bounded(rows0: Rows, rows: Rows, req: Request, ch: seq<Post>) {
    var plan := FullPlan(ch, req);
    && rows0.Keys <= rows.Keys
    && (forall k :: k in rows && k !in rows0 ==> IsPlanned(ch, req, plan.reach, k))
    && (forall k :: k in rows0 && rows0[k].deleted.Some? ==> rows[k].deleted.Some?)
    && (forall k :: k in rows && rows[k].deleted.Some? && !(k in rows0 && rows0[k].deleted.Some?)
         ==> k.channel == req.channel && InRegion(ch, plan.reach, plan.whole, k.message) && !Live(ch, k.message))
  }

  predicate IsPlanned(ch: seq<Post>, req: Request, reach: nat, k: RevisionKey)
    requires reach <= |ch|
  {
    exists j :: 0 <= j < reach && req.Wanted(ch[j]) && k == req.Key(ch[j])
  }

  /** The planned region is stored and purged. */
  predicate Finished(rows: Rows, req: Request, ch: seq<Post>) {
    var plan := FullPlan(ch, req);
    StoredTo(rows, req, ch, plan.reach) && PurgedTo(rows, req, ch, plan.reach, plan.whole)
  }

  /** The page holds the posts from `n` up to `e`, the ones below the cursor. */
  predicate Slice(ch: seq<Post>, before: Option<MessageId>, page: Page, n: nat, e: nat) {
    && n <= e <= |ch| && page.posts == ch[n..e]
    && n == Above(ch, before)
    && (before.Some? ==> forall j :: 0 <= j < |ch| ==> (j < n <==> ch[j].id >= before.value))
    && (page.next.None? ==> e == |ch|)
    && (page.next.Some? ==> n < e && page.next == Some(ch[e - 1].id))
  }

  /** The cursor is absent or the id of a post of the channel. */
  predicate Anchored(ch: seq<Post>, before: Option<MessageId>) {
    before.Some? ==> var n := Above(ch, before); n > 0 && ch[n - 1].id == before.value
  }

  /** Reading on from the cursor follows the plan. */
  predicate OnPlan(ch: seq<Post>, req: Request, before: Option<MessageId>, left: nat) {
    Anchored(ch, before) && PlanFrom(ch, req, Above(ch, before), left) == FullPlan(ch, req)
  }

  /** Either the walk is still on its first pass, or the planned region is done and it reads again. */
  ghost predicate ExactCursor(rows: Rows, req: Request, ch: seq<Post>, before: Option<MessageId>, pages: nat) {
    FirstPass(rows, req, ch, before, pages) || SecondPass(rows, req, ch, before, pages)
  }

  predicate FirstPass(rows: Rows, req: Request, ch: seq<Post>, before: Option<MessageId>, pages: nat) {
    && pages <= req.maxPages
    && (pages == 0 <==> before.None?)
    && OnPlan(ch, req, before, req.maxPages - pages)
    && StoredTo(rows, req, ch, Above(ch, before))
    && PurgedTo(rows, req, ch, Above(ch, before), false)
  }

  ghost predicate SecondPass(rows: Rows, req: Request, ch: seq<Post>, before: Option<MessageId>, pages: nat) {
    && pages > 0
    && !FullPlan(ch, req).partial
    && Finished(rows, req, ch)
    && exists left: nat :: OnPlan(ch, req, before, left)
  }

  ghost predicate ExactPosition(rows: Rows, req: Request, ch: seq<Post>, at: Position) {
    ExactCursor(rows, req, ch, at.before, at.pages)
  }

  /** A page of the plan whose first `next` posts were visited. */
  ghost predicate ExactPage(rows: Rows, req: Request, ch: seq<Post>, at: Position, page: Page, next: nat,
      reached: bool) {
    && 0 < at.pages <= req.maxPages
    && ExactCursor(rows, req, ch, at.before, at.pages - 1)
    && page == PageOf(ch, at.before, req.Limit())
    && PageVisited(rows, req, page, next, reached)
  }

  /** The posts of the page already visited are stored, and the flag tells exactly whether one was too old. */
  predicate PageVisited(rows: Rows, req: Request, page: Page, next: nat, reached: bool) {
    && next <= |page.posts|
    && (forall j :: 0 <= j < next && req.Wanted(page.posts[j]) ==> req.Key(page.posts[j]) in rows)
    && (reached <==> exists j :: 0 <= j < next && req.TooOld(page.posts[j]))
  }

  ghost predicate ExactWalk(rows: Rows, req: Request, ch: seq<Post>, w: Walk) {
    match w
    case Entering => true
    case Resolving(at) => ExactPosition(rows, req, ch, at)
    case Fetching(at, seen) =>
      at.pages < req.maxPages && ExactPosition(rows, req, ch, at) && SeenStored(rows.Keys, req, seen)
    case Storing(at, page, seen, next, _, reached) =>
      ExactPage(rows, req, ch, at, page, next, reached) && SeenStored(rows.Keys, req, seen)
    case Withdrawing(at, page, seen, _, reached) =>
      ExactPage(rows, req, ch, at, page, |page.posts|, reached) && SeenStored(rows.Keys, req, seen)
    case Saving(at, seen) => at.pages > 0 && ExactPosition(rows, req, ch, at) && SeenStored(rows.Keys, req, seen)
    case Closing(at) => ExactPosition(rows, req, ch, at) && Finished(rows, req, ch)
        && (FullPlan(ch, req).partial ==> at.before.Some?) && at.pages > 0
    case Waiting(at, _) => ExactPosition(rows, req, ch, at)
    case Breaking(at) => ExactPosition(rows, req, ch, at)
    case Done(Reported(_, _, partial)) => FullPlan(ch, req).partial ==> partial
    case Done(_) => true
  }

  /** The marks of a walk that ended by itself. */
  predicate Ended(mark: Mark) {
    mark.Completed? || mark.PageLimit?
  }

  ghost predicate ExactLease(t: Tables, req: Request, ch: seq<Post>) {
    req.Lease() in t.leases ==>
      var c := t.leases[req.Lease()];
      && ExactCursor(t.revisions, req, ch, c.before, c.pages)
      && (Ended(c.mark) ==> c.pages > 0 && Finished(t.revisions, req, ch))
      && (Ended(c.mark) && FullPlan(ch, req).partial ==> c.mark.PageLimit?)
      && (c.mark.Completed? ==> c.before.None?)
  }

  /** Rows only appear for posts the channel holds, and are only withdrawn otherwise. */
  predicate Milder(rows: Rows, rows': Rows, req: Request, ch: seq<Post>) {
    && rows.Keys <= rows'.Keys
    && forall k :: k in rows' && k.channel == req.channel && rows'[k].deleted.None?
         ==> (k in rows && rows[k].deleted.None?) || Live(ch, k.message)
  }

  ghost predicate Exact(rows0: Rows, t: Tables, req: Request, ch: seq<Post>, w: Walk) {
    && Bounded(rows0, t.revisions, req, ch)
    && ExactLease(t, req, ch)
    && ExactWalk(t.revisions, req, ch, w)
  }
}

/** Crashes, waits and re-reads change nothing: over a fixed channel, every schedule of attempts that
    ends by itself leaves the rows and the withdrawals of the uninterrupted walk. */
module Exactness {
  import opened Schema
  import opened Provider
  import opened Revisions
  import opened Walk
  import opened CoverageSpec
  import opened Coverage
  import opened RegionSpec

  /** A page is the slice of the channel below the cursor; a full one ends at its next cursor. */
  lemma {:induction false} PageIsSlice(ch: seq<Post>, before: Option<MessageId>, limit: nat) returns (page: Page,
      n: nat, e: nat)
    requires Descending(ch) && limit > 0
    ensures page == PageOf(ch, before, limit) && e == n + |page.posts|
    ensures Slice(ch, before, page, n, e)
    ensures page.next.None? <==> n + limit > |ch|
    ensures page.next.Some? ==> e == n + limit
  {
    page, n := PageOf(ch, before, limit), Above(ch, before);
    e := n + |page.posts|;
    if before.Some? {
      AboveSplits(ch, before.value);
    }
  }

  lemma {:induction false} LastIsLowest(ch: seq<Post>, n: nat, e: nat)
    requires Descending(ch) && n < e <= |ch|
    ensures Lowest(ch[n..e]) == ch[e - 1].id
  {
    var posts := ch[n..e];
    var i :| 0 <= i < |posts| && posts[i].id == Lowest(posts);
    assert posts[i] == ch[n + i];
    assert posts[e - 1 - n] == ch[e - 1];
  }

  lemma {:induction false} OnSlice(ch: seq<Post>, n: nat, e: nat, j: nat)
    requires n <= j < e <= |ch|
    ensures ch[j].id in Ids(ch[n..e], ch[j].deleted)
  {
    assert ch[n..e][j - n] == ch[j];
  }

  lemma {:induction false} FromSlice(ch: seq<Post>, n: nat, e: nat, deleted: bool, id: MessageId) returns (j: nat)
    requires n <= e <= |ch| && id in Ids(ch[n..e], deleted)
    ensures n <= j < e && ch[j].id == id && ch[j].deleted == deleted
  {
    var i :| 0 <= i < e - n && ch[n..e][i].deleted == deleted && ch[n..e][i].id == id;
    j := n + i;
  }

  /** A page never proves a live message gone. */
  lemma {:induction false} LiveIsNotAbsent(ch: seq<Post>, before: Option<MessageId>, page: Page, n: nat, e: nat,
      range: ProvedRange, id: MessageId)
    requires Descending(ch) && Live(ch, id)
    requires Slice(ch, before, page, n, e) && Proved(page, before) == Some(range)
    ensures !AbsenceOf(page, range).Covers(id)
  {
    var j :| 0 <= j < |ch| && ch[j].id == id && !ch[j].deleted;
    if id in Ids(page.posts, true) {
      var i := FromSlice(ch, n, e, true, id);
    }
    if range.Holds(id) {
      if page.next.Some? {
        LastIsLowest(ch, n, e);
      }
      OnSlice(ch, n, e, j);
    }
  }

  /** What a page proves gone lies at or above its lowest post, or anywhere for a short page. */
  lemma {:induction false} AbsentIsInRegion(ch: seq<Post>, before: Option<MessageId>, page: Page, n: nat, e: nat,
      range: ProvedRange, id: MessageId)
    requires Descending(ch)
    requires Slice(ch, before, page, n, e) && Proved(page, before) == Some(range)
    requires AbsenceOf(page, range).Covers(id)
    ensures InRegion(ch, e, page.next.None?, id)
  {
    if page.next.Some? {
      LastIsLowest(ch, n, e);
      if id in Ids(page.posts, true) {
        var i := FromSlice(ch, n, e, true, id);
        assert i <= e - 1;
      }
    }
  }

  /** An id of the proved stretch that is not proved gone by the page is on the page. */
  lemma {:induction false} RemainingIsLive(ch: seq<Post>, before: Option<MessageId>, page: Page, n: nat, e: nat,
      range: ProvedRange, id: MessageId)
    requires Descending(ch)
    requires Slice(ch, before, page, n, e) && Proved(page, before) == Some(range)
    requires !AbsenceOf(page, range).Covers(id)
    requires before.Some? ==> id < before.value
    requires InRegion(ch, e, page.next.None?, id)
    ensures Live(ch, id)
  {
    if page.next.Some? {
      LastIsLowest(ch, n, e);
    }
    var i := FromSlice(ch, n, e, false, id);
  }

  /** After its withdrawal a page is purged, together with everything purged above it. */
  lemma {:induction false} PagePurges(rows: Rows, req: Request, ch: seq<Post>, before: Option<MessageId>, page: Page,
      n: nat, e: nat, range: ProvedRange, now: Instant)
    requires Descending(ch) && Anchored(ch, before)
    requires Slice(ch, before, page, n, e) && Proved(page, before) == Some(range)
    requires PurgedTo(rows, req, ch, n, false)
    ensures PurgedTo(WithdrawRows(rows, req.channel, AbsenceOf(page, range), now), req, ch, e, page.next.None?)
  {
    var gone := AbsenceOf(page, range);
    var rows' := WithdrawRows(rows, req.channel, gone, now);
    forall k | k in rows' && k.channel == req.channel && rows'[k].deleted.None?
      && InRegion(ch, e, page.next.None?, k.message)
      ensures Live(ch, k.message)
    {
      assert !Hit(k, rows[k], req.channel, gone);
      if before.None? || k.message < before.value {
        RemainingIsLive(ch, before, page, n, e, range, k.message);
      }
    }
  }

  /** Reading one page of the plan either ends it or leaves the cursor on it. */
  lemma {:induction false} PageFollowsPlan(req: Request, ch: seq<Post>, before: Option<MessageId>, left: nat)
    requires Descending(ch) && req.Limit() > 0
    requires OnPlan(ch, req, before, left) && left > 0
    ensures var page := PageOf(ch, before, req.Limit());
      var n := Above(ch, before);
      var e := n + |page.posts|;
      && e <= |ch|
      && (page.next.None? ==> FullPlan(ch, req) == Plan(|ch|, true, false) && e == |ch|)
      && (page.next.Some? && HasOld(ch, req, n, e) ==> FullPlan(ch, req) == Plan(e, false, false))
      && (page.next.Some? ==> Above(ch, page.next) == e && Anchored(ch, page.next))
      && (page.next.Some? && !HasOld(ch, req, n, e) ==> OnPlan(ch, req, page.next, left - 1))
  {
    var page, n, e := PageIsSlice(ch, before, req.Limit());
    if page.next.Some? {
      AboveSplits(ch, page.next.value);
      assert e - 1 < Above(ch, page.next);
      assert e < |ch| ==> ch[e].id < page.next.value;
    }
  }

  // ---------------------------------------------------------------- one step

  lemma {:induction false} MilderKeepsRegion(rows: Rows, rows': Rows, req: Request, ch: seq<Post>, n: nat, whole: bool)
    requires n <= |ch| && Milder(rows, rows', req, ch)
    ensures StoredTo(rows, req, ch, n) ==> StoredTo(rows', req, ch, n)
    ensures PurgedTo(rows, req, ch, n, whole) ==> PurgedTo(rows', req, ch, n, whole)
  {
  }

  lemma {:induction false} MilderKeepsCursor(rows: Rows, rows': Rows, req: Request, ch: seq<Post>,
      before: Option<MessageId>, pages: nat)
    requires Milder(rows, rows', req, ch)
    ensures Finished(rows, req, ch) ==> Finished(rows', req, ch)
    ensures ExactCursor(rows, req, ch, before, pages) ==> ExactCursor(rows', req, ch, before, pages)
  {
    var plan := FullPlan(ch, req);
    MilderKeepsRegion(rows, rows', req, ch, plan.reach, plan.whole);
    MilderKeepsRegion(rows, rows', req, ch, Above(ch, before), false);
  }

  lemma {:induction false} MilderKeepsLease(t: Tables, t': Tables, req: Request, ch: seq<Post>)
    requires ExactLease(t, req, ch) && t'.leases == t.leases
    requires Milder(t.revisions, t'.revisions, req, ch)
    ensures ExactLease(t', req, ch)
  {
    if req.Lease() in t.leases {
      var c := t.leases[req.Lease()];
      MilderKeepsCursor(t.revisions, t'.revisions, req, ch, c.before, c.pages);
    }
  }

  /** A cursor with pages left to read has part of the plan left. */
  lemma {:induction false} PlanLeft(rows: Rows, req: Request, ch: seq<Post>, before: Option<MessageId>,
      pages: nat) returns (left: nat)
    requires ExactCursor(rows, req, ch, before, pages) && pages < req.maxPages
    ensures left > 0 && OnPlan(ch, req, before, left)
    ensures FirstPass(rows, req, ch, before, pages) ==> left == req.maxPages - pages
  {
    if FirstPass(rows, req, ch, before, pages) {
      left := req.maxPages - pages;
    } else {
      left :| OnPlan(ch, req, before, left);
    }
  }

  /** A page the walk reads lies inside the planned region. */
  lemma {:induction false} PageWithinPlan(rows: Rows, req: Request, ch: seq<Post>, at: Position, page: Page, n: nat,
      e: nat)
    requires Descending(ch) && req.Limit() > 0
    requires at.pages > 0 && at.pages <= req.maxPages && ExactCursor(rows, req, ch, at.before, at.pages - 1)
    requires page == PageOf(ch, at.before, req.Limit()) && n == Above(ch, at.before) && e == n + |page.posts|
    ensures e <= FullPlan(ch, req).reach && (page.next.None? ==> FullPlan(ch, req).whole)
  {
    var left := PlanLeft(rows, req, ch, at.before, at.pages - 1);
    PageFollowsPlan(req, ch, at.before, left);
  }

  /** The walk is at the end of its plan: it has no cursor, or no page left to read. */
  lemma {:induction false} EndFinishes(rows: Rows, req: Request, ch: seq<Post>, at: Position)
    requires ExactPosition(rows, req, ch, at) && at.pages > 0
    requires at.before.None? || at.pages >= req.maxPages
    ensures Finished(rows, req, ch)
    ensures FullPlan(ch, req).partial ==> at.before.Some?
  {
  }

  lemma {:induction false} AppendIsMild(rows: Rows, req: Request, ch: seq<Post>, j: nat, newId: Uuid, seen: Observation)
    requires j < |ch| && req.Wanted(ch[j])
    requires Append(rows, req.Key(ch[j]), newId, seen).Some?
    ensures Milder(rows, Append(rows, req.Key(ch[j]), newId, seen).value, req, ch)
  {
    assert Live(ch, ch[j].id);
  }

  lemma {:induction false} AppendIsBounded(rows0: Rows, rows: Rows, req: Request, ch: seq<Post>, j: nat, newId: Uuid,
      seen: Observation)
    requires j < FullPlan(ch, req).reach && req.Wanted(ch[j]) && Bounded(rows0, rows, req, ch)
    requires Append(rows, req.Key(ch[j]), newId, seen).Some?
    ensures Bounded(rows0, Append(rows, req.Key(ch[j]), newId, seen).value, req, ch)
  {
    assert IsPlanned(ch, req, FullPlan(ch, req).reach, req.Key(ch[j]));
  }

  /** What visiting one post does to the tables: nothing, or one append of a wanted post. */
  lemma {:induction false} StorePostAppends(t: Tables, req: Request, w: Walk, a: Answer) returns (seen: Observation)
    requires w.Storing? && w.next < |w.page.posts|
    ensures var t' := StorePost(t, req, w, a).0;
      var p := w.page.posts[w.next];
      t' == t
      || (&& req.Wanted(p) && a.Carried? && Append(t.revisions, req.Key(p), a.newId, seen).Some?
          && t' == t.(revisions := Append(t.revisions, req.Key(p), a.newId, seen).value))
  {
    var p := w.page.posts[w.next];
    seen := Observation(TelegramLink(req.username, p.id), if p.published.Some? then p.published.value else 0, req.end);
  }

  /** A post of a planned page is a post of the planned region. */
  lemma {:induction false} OnPlannedPage(rows: Rows, req: Request, ch: seq<Post>, at: Position, page: Page, next: nat,
      reached: bool) returns (j: nat)
    requires ValidChannel(ch) && req.Limit() > 0
    requires ExactPage(rows, req, ch, at, page, next, reached) && next < |page.posts|
    ensures j < FullPlan(ch, req).reach && ch[j] == page.posts[next]
  {
    var slice, n, e := PageIsSlice(ch, at.before, req.Limit());
    PageWithinPlan(rows, req, ch, at, page, n, e);
    j := n + next;
  }

  lemma {:induction false} StorePostTables(rows0: Rows, t: Tables, req: Request, ch: seq<Post>, w: Walk, a: Answer)
    requires ValidChannel(ch) && req.Limit() > 0
    requires w.Storing? && w.next < |w.page.posts|
    requires ExactPage(t.revisions, req, ch, w.at, w.page, w.next, w.reached)
    requires Bounded(rows0, t.revisions, req, ch)
    ensures var t' := StorePost(t, req, w, a).0;
      t'.leases == t.leases && Milder(t.revisions, t'.revisions, req, ch) && Bounded(rows0, t'.revisions, req, ch)
  {
    var seen := StorePostAppends(t, req, w, a);
    if StorePost(t, req, w, a).0 != t {
      var j := OnPlannedPage(t.revisions, req, ch, w.at, w.page, w.next, w.reached);
      AppendIsMild(t.revisions, req, ch, j, a.newId, seen);
      AppendIsBounded(rows0, t.revisions, req, ch, j, a.newId, seen);
    }
  }

  /** A visited post leaves an exact page behind. */
  lemma {:induction false} VisitedExact(t: Tables, t': Tables, req: Request, ch: seq<Post>, w: Walk, w': Walk)
    requires w.Storing? && w'.Storing? && w.next < |w.page.posts|
    requires ExactPage(t.revisions, req, ch, w.at, w.page, w.next, w.reached)
    requires Milder(t.revisions, t'.revisions, req, ch)
    requires w'.page == w.page && w'.next == w.next + 1 && w'.at == w.at
    requires w'.reached <==> w.reached || req.TooOld(w.page.posts[w.next])
    requires req.Wanted(w.page.posts[w.next]) ==> req.Key(w.page.posts[w.next]) in t'.revisions
    ensures ExactPage(t'.revisions, req, ch, w'.at, w'.page, w'.next, w'.reached)
  {
    MilderKeepsCursor(t.revisions, t'.revisions, req, ch, w.at.before, w.at.pages - 1);
    VisitedPost(t.revisions, t'.revisions, req, w.page, w.next, w.reached, w'.reached);
  }

  /** Visiting one post of a planned page keeps the walk exact. */
  lemma {:induction false} StorePostExact(rows0: Rows, t: Tables, req: Request, ch: seq<Post>, w: Walk, a: Answer)
    requires ValidChannel(ch) && req.Limit() > 0
    requires w.Storing? && w.next < |w.page.posts| && Exact(rows0, t, req, ch, w)
    ensures Exact(rows0, StorePost(t, req, w, a).0, req, ch, StorePost(t, req, w, a).1)
  {
    var (t', w') := StorePost(t, req, w, a);
    StorePostTables(rows0, t, req, ch, w, a);
    MilderKeepsLease(t, t', req, ch);
    StorePostMoves(t, req, w, a);
    if w'.Storing? {
      VisitedExact(t, t', req, ch, w, w');
    }
  }

  lemma {:induction false} VisitedPost(rows: Rows, rows': Rows, req: Request, page: Page, next: nat, reached: bool,
      reached': bool)
    requires PageVisited(rows, req, page, next, reached) && next < |page.posts| && rows.Keys <= rows'.Keys
    requires req.Wanted(page.posts[next]) ==> req.Key(page.posts[next]) in rows'
    requires reached' <==> reached || req.TooOld(page.posts[next])
    ensures PageVisited(rows', req, page, next + 1, reached')
  {
  }

  lemma {:induction false} WithdrawIsMild(rows: Rows, req: Request, ch: seq<Post>, gone: Absence, now: Instant)
    ensures Milder(rows, WithdrawRows(rows, req.channel, gone, now), req, ch)
  {
  }

  lemma {:induction false} RegionWidens(ch: seq<Post>, e: nat, short: bool, n: nat, whole: bool, id: MessageId)
    requires Descending(ch) && e <= n <= |ch| && (short ==> whole) && InRegion(ch, e, short, id)
    ensures InRegion(ch, n, whole, id)
  {
  }

  /** The withdrawal of a planned page stays inside the plan and spares every live message. */
  lemma {:induction false} WithdrawIsBounded(rows0: Rows, rows: Rows, req: Request, ch: seq<Post>,
      before: Option<MessageId>, page: Page, n: nat, e: nat, range: ProvedRange, now: Instant)
    requires Descending(ch) && Slice(ch, before, page, n, e) && Proved(page, before) == Some(range)
    requires e <= FullPlan(ch, req).reach && (page.next.None? ==> FullPlan(ch, req).whole)
    requires Bounded(rows0, rows, req, ch)
    ensures Bounded(rows0, WithdrawRows(rows, req.channel, AbsenceOf(page, range), now), req, ch)
  {
    var plan := FullPlan(ch, req);
    var gone := AbsenceOf(page, range);
    forall k | k in rows && Hit(k, rows[k], req.channel, gone)
      ensures InRegion(ch, plan.reach, plan.whole, k.message) && !Live(ch, k.message)
    {
      AbsentIsInRegion(ch, before, page, n, e, range, k.message);
      RegionWidens(ch, e, page.next.None?, plan.reach, plan.whole, k.message);
      if Live(ch, k.message) {
        LiveIsNotAbsent(ch, before, page, n, e, range, k.message);
      }
    }
  }

  lemma {:induction false} ReachedIsOld(req: Request, ch: seq<Post>, page: Page, n: nat, e: nat, reached: bool)
    requires n <= e <= |ch| && page.posts == ch[n..e]
    requires reached <==> exists j :: 0 <= j < |page.posts| && req.TooOld(page.posts[j])
    ensures reached <==> HasOld(ch, req, n, e)
  {
    forall j | n <= j < e
      ensures page.posts[j - n] == ch[j]
    {
    }
  }

  lemma {:induction false} StoredExtends(rows: Rows, req: Request, ch: seq<Post>, page: Page, n: nat, e: nat)
    requires n <= e <= |ch| && page.posts == ch[n..e] && StoredTo(rows, req, ch, n)
    requires forall j :: 0 <= j < |page.posts| && req.Wanted(page.posts[j]) ==> req.Key(page.posts[j]) in rows
    ensures StoredTo(rows, req, ch, e)
  {
    forall j | n <= j < e
      ensures page.posts[j - n] == ch[j]
    {
    }
  }

  /** The last page of the first pass: the plan is finished. */
  lemma {:induction false} FirstPassFinishes(rows: Rows, req: Request, ch: seq<Post>, before: Option<MessageId>,
      pages: nat, page: Page, n: nat, e: nat, reached: bool)
    requires Descending(ch) && req.Limit() > 0 && pages < req.maxPages && (reached || page.next.None?)
    requires OnPlan(ch, req, before, req.maxPages - pages)
    requires page == PageOf(ch, before, req.Limit()) && Slice(ch, before, page, n, e)
    requires reached <==> HasOld(ch, req, n, e)
    requires StoredTo(rows, req, ch, e) && PurgedTo(rows, req, ch, e, page.next.None?)
    ensures SecondPass(rows, req, ch, None, pages + 1)
  {
    PageFollowsPlan(req, ch, before, req.maxPages - pages);
    assert OnPlan(ch, req, None, req.maxPages);
  }

  /** A page of the first pass before the last: the pass goes on below it. */
  lemma {:induction false} FirstPassGoesOn(rows: Rows, req: Request, ch: seq<Post>, before: Option<MessageId>,
      pages: nat, page: Page, n: nat, e: nat)
    requires Descending(ch) && req.Limit() > 0 && pages < req.maxPages && page.next.Some?
    requires OnPlan(ch, req, before, req.maxPages - pages)
    requires page == PageOf(ch, before, req.Limit()) && Slice(ch, before, page, n, e) && !HasOld(ch, req, n, e)
    requires StoredTo(rows, req, ch, e) && PurgedTo(rows, req, ch, e, false)
    ensures FirstPass(rows, req, ch, page.next, pages + 1)
  {
    PageFollowsPlan(req, ch, before, req.maxPages - pages);
  }

  lemma {:induction false} FirstPassEnds(rows: Rows, req: Request, ch: seq<Post>, before: Option<MessageId>, pages: nat,
      page: Page, n: nat, e: nat, reached: bool)
    requires Descending(ch) && req.Limit() > 0 && pages < req.maxPages
    requires OnPlan(ch, req, before, req.maxPages - pages)
    requires page == PageOf(ch, before, req.Limit()) && Slice(ch, before, page, n, e)
    requires reached <==> HasOld(ch, req, n, e)
    requires StoredTo(rows, req, ch, e) && PurgedTo(rows, req, ch, e, page.next.None?)
    ensures ExactCursor(rows, req, ch, if reached then None else page.next, pages + 1)
  {
    if reached || page.next.None? {
      FirstPassFinishes(rows, req, ch, before, pages, page, n, e, reached);
    } else {
      FirstPassGoesOn(rows, req, ch, before, pages, page, n, e);
    }
  }

  /** The end of a page of a later pass: the region stays finished. */
  lemma {:induction false} SecondPassEnds(rows: Rows, req: Request, ch: seq<Post>, before: Option<MessageId>,
      pages: nat, page: Page, n: nat, e: nat, reached: bool)
    requires Descending(ch) && req.Limit() > 0
    requires !FullPlan(ch, req).partial && Finished(rows, req, ch)
    requires exists left: nat :: OnPlan(ch, req, before, left)
    requires page == PageOf(ch, before, req.Limit()) && Slice(ch, before, page, n, e)
    requires reached <==> HasOld(ch, req, n, e)
    ensures ExactCursor(rows, req, ch, if reached then None else page.next, pages + 1)
  {
    var left: nat :| OnPlan(ch, req, before, left);
    PageFollowsPlan(req, ch, before, left);
    assert OnPlan(ch, req, None, req.maxPages);
    assert OnPlan(ch, req, if reached then None else page.next,
                  if reached || page.next.None? then req.maxPages else left - 1);
    assert SecondPass(rows, req, ch, if reached then None else page.next, pages + 1);
  }

  /** The cursor after a stored and purged page is exact again. */
  lemma {:induction false} PageEndExact(rows: Rows, rows': Rows, req: Request, ch: seq<Post>, at: Position, page: Page,
      n: nat, e: nat, reached: bool)
    requires ValidChannel(ch) && req.Limit() > 0
    requires ExactPage(rows, req, ch, at, page, |page.posts|, reached)
    requires Slice(ch, at.before, page, n, e)
    requires Milder(rows, rows', req, ch) && rows'.Keys == rows.Keys
    requires FirstPass(rows, req, ch, at.before, at.pages - 1) ==> PurgedTo(rows', req, ch, e, page.next.None?)
    ensures ExactCursor(rows', req, ch, if reached then None else page.next, at.pages)
  {
    ReachedIsOld(req, ch, page, n, e, reached);
    if FirstPass(rows, req, ch, at.before, at.pages - 1) {
      StoredExtends(rows, req, ch, page, n, e);
      MilderKeepsRegion(rows, rows', req, ch, e, false);
      FirstPassEnds(rows', req, ch, at.before, at.pages - 1, page, n, e, reached);
    } else {
      MilderKeepsCursor(rows, rows', req, ch, at.before, at.pages - 1);
      SecondPassEnds(rows', req, ch, at.before, at.pages - 1, page, n, e, reached);
    }
  }

  /** What the withdrawal of a page does to the rows. */
  lemma {:induction false} WithdrawnPage(rows0: Rows, rows: Rows, req: Request, ch: seq<Post>, at: Position, page: Page,
      n: nat, e: nat, reached: bool, range: ProvedRange, now: Instant)
    requires ValidChannel(ch) && req.Limit() > 0
    requires ExactPage(rows, req, ch, at, page, |page.posts|, reached) && Bounded(rows0, rows, req, ch)
    requires Slice(ch, at.before, page, n, e) && (page.next.None? <==> n + req.Limit() > |ch|)
    requires page.next.Some? ==> e == n + req.Limit()
    requires Proved(page, at.before) == Some(range)
    ensures var rows' := WithdrawRows(rows, req.channel, AbsenceOf(page, range), now);
      && Milder(rows, rows', req, ch) && Bounded(rows0, rows', req, ch)
      && (FirstPass(rows, req, ch, at.before, at.pages - 1) ==> PurgedTo(rows', req, ch, e, page.next.None?))
  {
    PageWithinPlan(rows, req, ch, at, page, n, e);
    WithdrawIsMild(rows, req, ch, AbsenceOf(page, range), now);
    WithdrawIsBounded(rows0, rows, req, ch, at.before, page, n, e, range, now);
    if FirstPass(rows, req, ch, at.before, at.pages - 1) {
      PagePurges(rows, req, ch, at.before, page, n, e, range, now);
    }
  }

  /** After the withdrawal of a page the walk is exact at the position behind it. */
  lemma {:induction false} WithdrawnExact(rows0: Rows, t: Tables, t': Tables, req: Request, ch: seq<Post>, at: Position,
      page: Page, seen: SeenPosts, reached: bool, revisions: nat, n: nat, e: nat)
    requires ValidChannel(ch) && req.Limit() > 0
    requires ExactLease(t, req, ch) && ExactPage(t.revisions, req, ch, at, page, |page.posts|, reached)
    requires SeenStored(t.revisions.Keys, req, seen) && Slice(ch, at.before, page, n, e)
    requires t'.leases == t.leases && t'.revisions.Keys == t.revisions.Keys
    requires Milder(t.revisions, t'.revisions, req, ch) && Bounded(rows0, t'.revisions, req, ch)
    requires FirstPass(t.revisions, req, ch, at.before, at.pages - 1) ==>
      PurgedTo(t'.revisions, req, ch, e, page.next.None?)
    ensures Exact(rows0, t', req, ch, Saving(Position(if reached then None else page.next, at.pages, revisions), seen))
  {
    MilderKeepsLease(t, t', req, ch);
    PageEndExact(t.revisions, t'.revisions, req, ch, at, page, n, e, reached);
  }

  lemma {:induction false} FailedExact(rows0: Rows, t: Tables, req: Request, ch: seq<Post>, w: Walk)
    requires Exact(rows0, t, req, ch, w)
    ensures Exact(rows0, t, req, ch, Done(Unavailable))
  {
  }

  /** The withdrawal that was carried out. */
  lemma {:induction false} PageCarried(rows0: Rows, t: Tables, req: Request, ch: seq<Post>, at: Position, page: Page,
      seen: SeenPosts, reached: bool, range: ProvedRange, now: Instant, revisions: nat)
    requires ValidChannel(ch) && req.Limit() > 0
    requires Bounded(rows0, t.revisions, req, ch) && ExactLease(t, req, ch)
    requires ExactPage(t.revisions, req, ch, at, page, |page.posts|, reached)
    requires SeenStored(t.revisions.Keys, req, seen) && Proved(page, at.before) == Some(range)
    ensures Exact(rows0, WithdrawMissing(t, req.channel, AbsenceOf(page, range), now), req, ch,
                  Saving(Position(if reached then None else page.next, at.pages, revisions), seen))
  {
    var slice, n, e := PageIsSlice(ch, at.before, req.Limit());
    WithdrawnPage(rows0, t.revisions, req, ch, at, page, n, e, reached, range, now);
    WithdrawnExact(rows0, t, WithdrawMissing(t, req.channel, AbsenceOf(page, range), now), req, ch, at, page, seen,
                   reached, revisions, n, e);
  }

  lemma {:induction false} CarriedExact(rows0: Rows, t: Tables, req: Request, ch: seq<Post>, w: Walk,
      range: ProvedRange, now: Instant, revisions: nat)
    requires ValidChannel(ch) && req.Limit() > 0
    requires w.Withdrawing? && Exact(rows0, t, req, ch, w) && Proved(w.page, w.at.before) == Some(range)
    ensures Exact(rows0, WithdrawMissing(t, req.channel, AbsenceOf(w.page, range), now), req, ch,
                  Saving(Position(if w.reached then None else w.page.next, w.at.pages, revisions), w.seen))
  {
    PageCarried(rows0, t, req, ch, w.at, w.page, w.seen, w.reached, range, now, revisions);
  }

  /** A page of the channel always proves a range. */
  lemma {:induction false} PageProves(ch: seq<Post>, before: Option<MessageId>, limit: nat)
    requires Descending(ch) && limit > 0
    ensures Proved(PageOf(ch, before, limit), before).Some?
  {
    var page, n, e := PageIsSlice(ch, before, limit);
  }

  lemma {:induction false} WithdrawingStepExact(rows0: Rows, t: Tables, req: Request, ch: seq<Post>, w: Walk,
      now: Instant, a: Answer)
    requires ValidChannel(ch) && req.Limit() > 0
    requires w.Withdrawing? && Exact(rows0, t, req, ch, w)
    ensures Exact(rows0, Step(t, req, w, now, a).0, req, ch, Step(t, req, w, now, a).1)
  {
    WithdrawingCases(t, req, w, now, a);
    PageProves(ch, w.at.before, req.Limit());
    if Step(t, req, w, now, a).1.Saving? {
      CarriedExact(rows0, t, req, ch, w, Proved(w.page, w.at.before).value, now, w.at.revisions + w.stored);
    } else {
      FailedExact(rows0, t, req, ch, w);
    }
  }

  lemma {:induction false} SavedExact(t: Tables, req: Request, ch: seq<Post>, at: Position, mark: Mark,
      expires: Instant)
    requires ExactPosition(t.revisions, req, ch, at)
    requires Ended(mark) ==> at.pages > 0 && Finished(t.revisions, req, ch)
    requires mark.Completed? <==> Ended(mark) && at.before.None?
    requires FullPlan(ch, req).partial && Ended(mark) ==> at.before.Some?
    ensures ExactLease(Save(t, req, at, mark, expires), req, ch)
  {
  }

  lemma {:induction false} ContinueExact(rows: Rows, req: Request, ch: seq<Post>, at: Position, seen: SeenPosts)
    requires req.maxPages > 0 && ExactPosition(rows, req, ch, at) && SeenStored(rows.Keys, req, seen)
    ensures ExactWalk(rows, req, ch, Continue(req, at, seen))
    ensures at.pages > 0 && at.before.None? ==> ExactWalk(rows, req, ch, Closing(at))
  {
    if at.pages > 0 && (at.before.None? || at.pages >= req.maxPages) {
      EndFinishes(rows, req, ch, at);
    }
  }

  lemma {:induction false} SavingStepExact(rows0: Rows, t: Tables, req: Request, ch: seq<Post>, w: Walk, now: Instant,
      a: Answer)
    requires w.Saving? && req.maxPages > 0 && Exact(rows0, t, req, ch, w)
    ensures Exact(rows0, Step(t, req, w, now, a).0, req, ch, Step(t, req, w, now, a).1)
  {
    SavedExact(t, req, ch, w.at, PageCommitted, now + LEASE_SECONDS);
    ContinueExact(t.revisions, req, ch, w.at, w.seen);
  }

  /** The lease of a walk that is over. */
  lemma {:induction false} OverExact(rows0: Rows, t: Tables, req: Request, ch: seq<Post>, at: Position, mark: Mark,
      expires: Instant, outcome: Outcome)
    requires Bounded(rows0, t.revisions, req, ch) && ExactLease(Save(t, req, at, mark, expires), req, ch)
    requires outcome.Reported? && FullPlan(ch, req).partial ==> outcome.partial
    ensures Exact(rows0, Save(t, req, at, mark, expires), req, ch, Done(outcome))
  {
  }

  lemma {:induction false} ClosingExact(rows0: Rows, t: Tables, req: Request, ch: seq<Post>, w: Walk, now: Instant)
    requires w.Closing? && Exact(rows0, t, req, ch, w)
    ensures var mark := if w.at.before.Some? then PageLimit else Mark.Completed;
      Exact(rows0, Save(t, req, w.at, mark, now + LEASE_SECONDS), req, ch,
            Done(Reported(w.at.pages, w.at.revisions, w.at.before.Some?)))
  {
    var mark := if w.at.before.Some? then PageLimit else Mark.Completed;
    SavedExact(t, req, ch, w.at, mark, now + LEASE_SECONDS);
    OverExact(rows0, t, req, ch, w.at, mark, now + LEASE_SECONDS,
              Reported(w.at.pages, w.at.revisions, w.at.before.Some?));
  }

  lemma {:induction false} WaitingExact(rows0: Rows, t: Tables, req: Request, ch: seq<Post>, w: Walk, now: Instant)
    requires w.Waiting? && Exact(rows0, t, req, ch, w)
    ensures Exact(rows0, Save(t, req, w.at, FloodWait, now + Clamp(w.seconds)), req, ch, Done(Deferred))
  {
    SavedExact(t, req, ch, w.at, FloodWait, now + Clamp(w.seconds));
    OverExact(rows0, t, req, ch, w.at, FloodWait, now + Clamp(w.seconds), Deferred);
  }

  lemma {:induction false} BreakingExact(rows0: Rows, t: Tables, req: Request, ch: seq<Post>, w: Walk, now: Instant)
    requires w.Breaking? && Exact(rows0, t, req, ch, w)
    ensures Exact(rows0, Save(t, req, w.at, ProviderUnavailable, now + LEASE_SECONDS), req, ch,
                  Done(Reported(w.at.pages, w.at.revisions, true)))
  {
    SavedExact(t, req, ch, w.at, ProviderUnavailable, now + LEASE_SECONDS);
    OverExact(rows0, t, req, ch, w.at, ProviderUnavailable, now + LEASE_SECONDS,
              Reported(w.at.pages, w.at.revisions, true));
  }

  lemma {:induction false} EndingStepExact(rows0: Rows, t: Tables, req: Request, ch: seq<Post>, w: Walk, now: Instant,
      a: Answer)
    requires w.Closing? || w.Waiting? || w.Breaking?
    requires Exact(rows0, t, req, ch, w)
    ensures Exact(rows0, Step(t, req, w, now, a).0, req, ch, Step(t, req, w, now, a).1)
  {
    if !a.Carried? {
      FailedExact(rows0, t, req, ch, w);
    } else if w.Closing? {
      ClosingExact(rows0, t, req, ch, w, now);
    } else if w.Waiting? {
      WaitingExact(rows0, t, req, ch, w, now);
    } else {
      BreakingExact(rows0, t, req, ch, w, now);
    }
  }

  lemma {:induction false} ResumeExact(t: Tables, req: Request, ch: seq<Post>, now: Instant)
    requires req.maxPages > 0 && ExactLease(t, req, ch)
    ensures ExactWalk(t.revisions, req, ch, Resume(t.leases, req, now))
  {
    assert OnPlan(ch, req, None, req.maxPages);
    if req.Lease() in t.leases {
      var c := t.leases[req.Lease()];
      if c.mark.Completed? {
        assert SecondPass(t.revisions, req, ch, None, req.maxPages);
      }
    } else {
      assert FirstPass(t.revisions, req, ch, None, 0);
    }
  }

  lemma {:induction false} ProviderStepExact(rows0: Rows, t: Tables, req: Request, ch: seq<Post>, w: Walk, now: Instant,
      a: Answer)
    requires w.Entering? || w.Resolving? || w.Fetching? || w.Done?
    requires req.maxPages > 0 && Exact(rows0, t, req, ch, w) && Faithful(req, ch, w, a)
    ensures Exact(rows0, Step(t, req, w, now, a).0, req, ch, Step(t, req, w, now, a).1)
  {
    if w.Entering? {
      ResumeExact(t, req, ch, now);
    } else if w.Resolving? {
      ContinueExact(t.revisions, req, ch, w.at, {});
    }
  }

  /** One step keeps the walk exact. */
  lemma {:induction false} StepExact(rows0: Rows, t: Tables, req: Request, ch: seq<Post>, w: Walk, now: Instant,
      a: Answer)
    requires ValidChannel(ch) && req.maxPages > 0 && req.pageSize > 0
    requires Exact(rows0, t, req, ch, w) && Faithful(req, ch, w, a)
    ensures Exact(rows0, Step(t, req, w, now, a).0, req, ch, Step(t, req, w, now, a).1)
  {
    if w.Storing? {
      if w.next < |w.page.posts| {
        StorePostExact(rows0, t, req, ch, w, a);
      }
    } else if w.Withdrawing? {
      WithdrawingStepExact(rows0, t, req, ch, w, now, a);
    } else if w.Saving? {
      SavingStepExact(rows0, t, req, ch, w, now, a);
    } else if w.Closing? || w.Waiting? || w.Breaking? {
      EndingStepExact(rows0, t, req, ch, w, now, a);
    } else {
      ProviderStepExact(rows0, t, req, ch, w, now, a);
    }
  }

  // ---------------------------------------------------------------- whole schedules

  lemma {:induction false} AdvanceExact(rows0: Rows, t: Tables, req: Request, ch: seq<Post>, w: Walk,
      answers: seq<Timed>)
    requires ValidChannel(ch) && req.maxPages > 0 && req.pageSize > 0
    requires Exact(rows0, t, req, ch, w) && FaithfulRun(t, req, ch, w, answers)
    ensures Exact(rows0, Advance(t, req, w, answers).0, req, ch, Advance(t, req, w, answers).1)
    decreases |answers|
  {
    if answers != [] {
      var n := |answers| - 1;
      AdvanceExact(rows0, t, req, ch, w, answers[..n]);
      var (t', w') := Advance(t, req, w, answers[..n]);
      StepExact(rows0, t', req, ch, w', answers[n].at, answers[n].answer);
    }
  }

  lemma {:induction false} AttemptsExact(t: Tables, req: Request, ch: seq<Post>, scripts: seq<seq<Timed>>)
    requires ValidChannel(ch) && req.maxPages > 0 && req.pageSize > 0
    requires req.Lease() !in t.leases && FaithfulAttempts(t, req, ch, scripts)
    ensures Exact(t.revisions, Attempts(t, req, scripts), req, ch, Entering)
    decreases |scripts|
  {
    if scripts != [] {
      var n := |scripts| - 1;
      AttemptsExact(t, req, ch, scripts[..n]);
      AdvanceExact(t.revisions, Attempts(t, req, scripts[..n]), req, ch, Entering, scripts[n]);
    }
  }

  /** The lease says that the walk ended by itself. */
  predicate EndedWalk(t: Tables, req: Request) {
    req.Lease() in t.leases && Ended(t.leases[req.Lease()].mark)
  }

  /** Closed form: a schedule that ended by itself added exactly the wanted posts of the planned
      region and withdrew exactly the stored messages of that region that the channel lacks. A walk
      the page limit cuts never calls itself complete. */
  lemma {:induction false} EndedWalkMatchesPlan(t: Tables, req: Request, ch: seq<Post>, scripts: seq<seq<Timed>>)
    requires ValidChannel(ch) && req.maxPages > 0 && req.pageSize > 0
    requires req.Lease() !in t.leases && FaithfulAttempts(t, req, ch, scripts)
    requires EndedWalk(Attempts(t, req, scripts), req)
    ensures var rows := Attempts(t, req, scripts).revisions;
      var plan := FullPlan(ch, req);
      && (forall k :: k in rows <==> k in t.revisions || IsPlanned(ch, req, plan.reach, k))
      && (forall k :: k in rows ==>
            (rows[k].deleted.Some? <==>
              || (k in t.revisions && t.revisions[k].deleted.Some?)
              || (k.channel == req.channel && InRegion(ch, plan.reach, plan.whole, k.message) && !Live(ch, k.message))))
    ensures FullPlan(ch, req).partial ==> !Attempts(t, req, scripts).leases[req.Lease()].mark.Completed?
  {
    AttemptsExact(t, req, ch, scripts);
  }

  /** Crash-resume equivalence: any two schedules over the same channel that ended by themselves, the
      uninterrupted walk among them, leave the same rows and the same withdrawn messages. */
  lemma {:induction false} CrashesChangeNothing(t: Tables, req: Request, ch: seq<Post>, one: seq<seq<Timed>>,
      two: seq<seq<Timed>>)
    requires ValidChannel(ch) && req.maxPages > 0 && req.pageSize > 0
    requires req.Lease() !in t.leases
    requires FaithfulAttempts(t, req, ch, one) && EndedWalk(Attempts(t, req, one), req)
    requires FaithfulAttempts(t, req, ch, two) && EndedWalk(Attempts(t, req, two), req)
    ensures var a, b := Attempts(t, req, one).revisions, Attempts(t, req, two).revisions;
      && a.Keys == b.Keys
      && forall k :: k in a ==> (a[k].deleted.Some? <==> b[k].deleted.Some?)
  {
    EndedWalkMatchesPlan(t, req, ch, one);
    EndedWalkMatchesPlan(t, req, ch, two);
  }
}
