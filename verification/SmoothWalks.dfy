/** Attempts that nothing disturbs. */
module SmoothSpec {
  import opened Schema
  import opened Provider
  import opened Revisions
  import opened Walk
  import opened RegionSpec

  /** Every one of the first posts that could be stored is dated. */
  predicate DatedTo(ch: seq<Post>, n: nat)
    requires n <= |ch|
  {
    forall j :: 0 <= j < n && Storable(ch[j]) ==> ch[j].published.Some?
  }

  /** The answer is the one the walk hopes for: the provider serves the page of the channel, and the database carries
      out every statement, under a fresh identity. */
  predicate Smooth(t: Tables, req: Request, ch: seq<Post>, w: Walk, a: Answer) {
    match w
    case Entering => a.Silent?
    case Resolving(_) => a.Resolved?
    case Fetching(at, _) => a == Fetched(PageOf(ch, at.before, req.Limit()))
    case Storing(_, _, _, _, _, _) => a.Carried? && !IdUsed(t.revisions, a.newId)
    case _ => a.Carried?
  }

  predicate SmoothRun(t: Tables, req: Request, ch: seq<Post>, answers: seq<Timed>)
    decreases |answers|
  {
    answers == [] ||
    var before := answers[..|answers| - 1];
    && SmoothRun(t, req, ch, before)
    && var (t', w') := Advance(t, req, Entering, before); Smooth(t', req, ch, w', answers[|answers| - 1].answer)
  }

  /** How many posts of the stretch are wanted. */
  function WantedIn(ch: seq<Post>, req: Request, i: nat, e: nat): nat
    requires i <= e <= |ch|
  {
    if i == e then 0 else WantedIn(ch, req, i, e - 1) + (if req.Wanted(ch[e - 1]) then 1 else 0)
  }

  /** What was seen are wanted posts of the first `n`. */
  predicate SeenOf(ch: seq<Post>, n: nat, seen: SeenPosts)
    requires n <= |ch|
  {
    forall x :: x in seen ==> exists j :: 0 <= j < n && ch[j].id == x.0
  }

  /** The walk has read the channel down to its cursor and counted what it wanted. */
  predicate ReadTo(ch: seq<Post>, req: Request, at: Position) {
    && at.pages <= req.maxPages && (at.pages == 0 <==> at.before.None?)
    && OnPlan(ch, req, at.before, req.maxPages - at.pages)
    && at.revisions == WantedIn(ch, req, 0, Above(ch, at.before)) && DatedTo(ch, Above(ch, at.before))
  }

  /** The walk has read all it will read. */
  predicate ReadAll(ch: seq<Post>, req: Request, at: Position) {
    && (at.before.Some? <==> FullPlan(ch, req).partial)
    && at.revisions == WantedIn(ch, req, 0, FullPlan(ch, req).reach) && DatedTo(ch, FullPlan(ch, req).reach)
  }

  /** The walk visited the first posts of the page below its cursor. */
  predicate Visits(ch: seq<Post>, req: Request, at: Position, page: Page, seen: SeenPosts, next: nat, stored: nat,
      reached: bool) {
    var n := Above(ch, at.before);
    && 0 < at.pages <= req.maxPages && ReadTo(ch, req, at.(pages := at.pages - 1))
    && page == PageOf(ch, at.before, req.Limit()) && next <= |page.posts| && n + |page.posts| <= |ch|
    && stored == WantedIn(ch, req, n, n + next) && SeenOf(ch, n + next, seen) && DatedTo(ch, n + next)
    && (reached <==> HasOld(ch, req, n, n + next))
  }

  predicate SmoothWalk(ch: seq<Post>, req: Request, w: Walk) {
    match w
    case Entering => true
    case Resolving(at) => at == Position(None, 0, 0)
    case Fetching(at, seen) =>
      ReadTo(ch, req, at) && at.pages < req.maxPages && SeenOf(ch, Above(ch, at.before), seen)
    case Storing(at, page, seen, next, stored, reached) => Visits(ch, req, at, page, seen, next, stored, reached)
    case Withdrawing(at, page, seen, stored, reached) =>
      Visits(ch, req, at, page, seen, |page.posts|, stored, reached)
    case Saving(at, seen) =>
      if at.before.None? then ReadAll(ch, req, at) && at.pages > 0
      else ReadTo(ch, req, at) && SeenOf(ch, Above(ch, at.before), seen)
    case Closing(at) => ReadAll(ch, req, at)
    case Done(Reported(_, revisions, partial)) =>
      && partial == FullPlan(ch, req).partial && revisions == WantedIn(ch, req, 0, FullPlan(ch, req).reach)
      && DatedTo(ch, FullPlan(ch, req).reach)
    case Done(Unavailable) => !DatedTo(ch, FullPlan(ch, req).reach)
    case _ => false
  }
}

module SmoothWalks {
  import opened Schema
  import opened Provider
  import opened Revisions
  import opened Walk
  import opened Coverage
  import opened RegionSpec
  import opened Exactness
  import opened Executor
  import opened Bounds
  import opened SmoothSpec

  lemma {:induction false} WantedJoins(ch: seq<Post>, req: Request, i: nat, m: nat, e: nat)
    requires i <= m <= e <= |ch|
    ensures WantedIn(ch, req, i, e) == WantedIn(ch, req, i, m) + WantedIn(ch, req, m, e)
    decreases e
  {
    if e > m {
      WantedJoins(ch, req, i, m, e - 1);
    }
  }

  lemma {:induction false} SmoothEnters(t: Tables, req: Request, ch: seq<Post>, now: Instant)
    requires req.Lease() !in t.leases && CanonicalUsername(req.username)
    ensures SmoothWalk(ch, req, Resume(t.leases, req, now))
  {
  }

  lemma {:induction false} SmoothResolves(req: Request, ch: seq<Post>)
    requires req.maxPages > 0
    ensures SmoothWalk(ch, req, Continue(req, Position(None, 0, 0), {}))
  {
  }

  lemma {:induction false} SmoothFetches(req: Request, ch: seq<Post>, at: Position, seen: SeenPosts)
    requires Descending(ch) && req.Limit() > 0 && SmoothWalk(ch, req, Fetching(at, seen))
    ensures SmoothWalk(ch, req,
                       Storing(at.(pages := at.pages + 1), PageOf(ch, at.before, req.Limit()), seen, 0, 0, false))
  {
    var page, n, e := PageIsSlice(ch, at.before, req.Limit());
  }

  /** A wanted post of the page was not seen before: its id is below all that were. */
  lemma {:induction false} WantedIsNew(ch: seq<Post>, n: nat, seen: SeenPosts, p: Post)
    requires Descending(ch) && n < |ch| && SeenOf(ch, n, seen) && p == ch[n]
    ensures (p.id, Sha256(p.body)) !in seen
  {
    assert forall j :: 0 <= j < n ==> ch[j].id != p.id;
  }

  lemma {:induction false} OldGrows(req: Request, ch: seq<Post>, i: nat, e: nat)
    requires i <= e < |ch|
    ensures HasOld(ch, req, i, e + 1) <==> HasOld(ch, req, i, e) || req.TooOld(ch[e])
  {
  }

  lemma {:induction false} SeenOneMore(ch: seq<Post>, n: nat, seen: SeenPosts, p: Post)
    requires n < |ch| && SeenOf(ch, n, seen) && p == ch[n]
    ensures SeenOf(ch, n + 1, seen) && SeenOf(ch, n + 1, seen + {(p.id, Sha256(p.body))})
  {
    forall x | x in seen
      ensures exists j :: 0 <= j < n + 1 && ch[j].id == x.0
    {
      var j :| 0 <= j < n && ch[j].id == x.0;
    }
  }

  /** A visit that nothing disturbs: a wanted post is stored and counted, one that could be stored but has no date fails
      the walk, any other is passed over. */
  lemma {:induction false} SmoothVisit(t: Tables, req: Request, w: Walk, a: Answer)
    requires w.Storing? && w.next < |w.page.posts| && a.Carried? && !IdUsed(t.revisions, a.newId)
    requires var p := w.page.posts[w.next]; req.Wanted(p) ==> (p.id, Sha256(p.body)) !in w.seen
    ensures var p := w.page.posts[w.next];
      StorePost(t, req, w, a).1 ==
        if req.Wanted(p) then
          w.(next := w.next + 1, stored := w.stored + 1, seen := w.seen + {(p.id, Sha256(p.body))})
        else if Storable(p) && p.published.None? then Done(Unavailable)
        else w.(next := w.next + 1, reached := w.reached || req.TooOld(p))
  {
  }

  /** The next post of the page, new among those seen. */
  lemma {:induction false} NextPost(req: Request, ch: seq<Post>, at: Position, page: Page, seen: SeenPosts, next: nat,
      stored: nat, reached: bool) returns (m: nat)
    requires Descending(ch) && Visits(ch, req, at, page, seen, next, stored, reached) && next < |page.posts|
    ensures m == Above(ch, at.before) + next < |ch| && page.posts[next] == ch[m]
    ensures (ch[m].id, Sha256(ch[m].body)) !in seen
  {
    m := Above(ch, at.before) + next;
    assert page.posts[next] == ch[m];
    WantedIsNew(ch, m, seen, ch[m]);
  }

  lemma {:induction false} UndatedFails(req: Request, ch: seq<Post>, at: Position, page: Page, seen: SeenPosts,
      next: nat, stored: nat, reached: bool)
    requires Descending(ch) && req.Limit() > 0
    requires Visits(ch, req, at, page, seen, next, stored, reached) && next < |page.posts|
    requires Storable(page.posts[next]) && page.posts[next].published.None?
    ensures !DatedTo(ch, FullPlan(ch, req).reach)
  {
    var m := NextPost(req, ch, at, page, seen, next, stored, reached);
    PageFollowsPlan(req, ch, at.before, req.maxPages - (at.pages - 1));
    assert m < FullPlan(ch, req).reach;
  }

  lemma {:induction false} DatedOneMore(ch: seq<Post>, m: nat)
    requires m < |ch| && DatedTo(ch, m) && (Storable(ch[m]) ==> ch[m].published.Some?)
    ensures DatedTo(ch, m + 1)
  {
  }

  lemma {:induction false} VisitsWanted(req: Request, ch: seq<Post>, at: Position, page: Page, seen: SeenPosts,
      next: nat, stored: nat, reached: bool)
    requires Descending(ch) && Visits(ch, req, at, page, seen, next, stored, reached) && next < |page.posts|
    requires req.Wanted(page.posts[next])
    ensures var p := page.posts[next];
      Visits(ch, req, at, page, seen + {(p.id, Sha256(p.body))}, next + 1, stored + 1, reached)
  {
    var m := NextPost(req, ch, at, page, seen, next, stored, reached);
    OldGrows(req, ch, Above(ch, at.before), m);
    SeenOneMore(ch, m, seen, ch[m]);
    DatedOneMore(ch, m);
    assert WantedIn(ch, req, Above(ch, at.before), m + 1) == stored + 1 && !req.TooOld(ch[m]);
  }

  lemma {:induction false} VisitsOther(req: Request, ch: seq<Post>, at: Position, page: Page, seen: SeenPosts,
      next: nat, stored: nat, reached: bool)
    requires Descending(ch) && Visits(ch, req, at, page, seen, next, stored, reached) && next < |page.posts|
    requires var p := page.posts[next]; !req.Wanted(p) && (Storable(p) ==> p.published.Some?)
    ensures Visits(ch, req, at, page, seen, next + 1, stored, reached || req.TooOld(page.posts[next]))
  {
    var m := NextPost(req, ch, at, page, seen, next, stored, reached);
    OldGrows(req, ch, Above(ch, at.before), m);
    SeenOneMore(ch, m, seen, ch[m]);
    DatedOneMore(ch, m);
  }

  lemma {:induction false} StoresWanted(t: Tables, req: Request, ch: seq<Post>, w: Walk, a: Answer)
    requires Descending(ch) && req.Limit() > 0 && w.Storing? && w.next < |w.page.posts|
    requires a.Carried? && !IdUsed(t.revisions, a.newId) && SmoothWalk(ch, req, w)
    requires var p := w.page.posts[w.next]; req.Wanted(p)
    ensures SmoothWalk(ch, req, StorePost(t, req, w, a).1)
  {
    var m := NextPost(req, ch, w.at, w.page, w.seen, w.next, w.stored, w.reached);
    SmoothVisit(t, req, w, a);
    VisitsWanted(req, ch, w.at, w.page, w.seen, w.next, w.stored, w.reached);
  }

  lemma {:induction false} StopsUndated(t: Tables, req: Request, ch: seq<Post>, w: Walk, a: Answer)
    requires Descending(ch) && req.Limit() > 0 && w.Storing? && w.next < |w.page.posts|
    requires a.Carried? && !IdUsed(t.revisions, a.newId) && SmoothWalk(ch, req, w)
    requires var p := w.page.posts[w.next]; Storable(p) && p.published.None?
    ensures SmoothWalk(ch, req, StorePost(t, req, w, a).1)
  {
    var m := NextPost(req, ch, w.at, w.page, w.seen, w.next, w.stored, w.reached);
    SmoothVisit(t, req, w, a);
    UndatedFails(req, ch, w.at, w.page, w.seen, w.next, w.stored, w.reached);
  }

  lemma {:induction false} PassesOver(t: Tables, req: Request, ch: seq<Post>, w: Walk, a: Answer)
    requires Descending(ch) && req.Limit() > 0 && w.Storing? && w.next < |w.page.posts|
    requires a.Carried? && !IdUsed(t.revisions, a.newId) && SmoothWalk(ch, req, w)
    requires var p := w.page.posts[w.next]; !req.Wanted(p) && (Storable(p) ==> p.published.Some?)
    ensures SmoothWalk(ch, req, StorePost(t, req, w, a).1)
  {
    var m := NextPost(req, ch, w.at, w.page, w.seen, w.next, w.stored, w.reached);
    SmoothVisit(t, req, w, a);
    VisitsOther(req, ch, w.at, w.page, w.seen, w.next, w.stored, w.reached);
  }

  lemma {:induction false} SmoothStores(t: Tables, req: Request, ch: seq<Post>, w: Walk, a: Answer)
    requires Descending(ch) && req.Limit() > 0 && w.Storing? && w.next < |w.page.posts|
    requires a.Carried? && !IdUsed(t.revisions, a.newId) && SmoothWalk(ch, req, w)
    ensures SmoothWalk(ch, req, StorePost(t, req, w, a).1)
  {
    var p := w.page.posts[w.next];
    if req.Wanted(p) {
      StoresWanted(t, req, ch, w, a);
    } else if Storable(p) && p.published.None? {
      StopsUndated(t, req, ch, w, a);
    } else {
      PassesOver(t, req, ch, w, a);
    }
  }

  lemma {:induction false} LastPageEnds(req: Request, ch: seq<Post>, at: Position, page: Page, seen: SeenPosts,
      stored: nat, reached: bool)
    requires Descending(ch) && req.Limit() > 0 && (reached || page.next.None?)
    requires Visits(ch, req, at, page, seen, |page.posts|, stored, reached)
    ensures ReadAll(ch, req, Position(None, at.pages, at.revisions + stored))
  {
    var n := Above(ch, at.before);
    PageFollowsPlan(req, ch, at.before, req.maxPages - (at.pages - 1));
    WantedJoins(ch, req, 0, n, n + |page.posts|);
  }

  lemma {:induction false} FullPageEnds(req: Request, ch: seq<Post>, at: Position, page: Page, seen: SeenPosts,
      stored: nat)
    requires Descending(ch) && req.Limit() > 0 && page.next.Some?
    requires Visits(ch, req, at, page, seen, |page.posts|, stored, false)
    ensures ReadTo(ch, req, Position(page.next, at.pages, at.revisions + stored))
    ensures SeenOf(ch, Above(ch, page.next), seen)
  {
    var n, left := Above(ch, at.before), req.maxPages - at.pages;
    PageFollowsPlan(req, ch, at.before, left + 1);
    assert OnPlan(ch, req, page.next, left) && Above(ch, page.next) == n + |page.posts|;
    WantedJoins(ch, req, 0, n, n + |page.posts|);
  }

  /** After its page the walk has read all, or goes on below it. */
  lemma {:induction false} SmoothPageEnds(req: Request, ch: seq<Post>, at: Position, page: Page, seen: SeenPosts,
      stored: nat, reached: bool)
    requires Descending(ch) && req.Limit() > 0
    requires Visits(ch, req, at, page, seen, |page.posts|, stored, reached)
    ensures SmoothWalk(ch, req,
                       Saving(Position(if reached then None else page.next, at.pages, at.revisions + stored), seen))
  {
    if reached || page.next.None? {
      LastPageEnds(req, ch, at, page, seen, stored, reached);
    } else {
      FullPageEnds(req, ch, at, page, seen, stored);
    }
  }

  lemma {:induction false} SmoothSaves(req: Request, ch: seq<Post>, at: Position, seen: SeenPosts)
    requires SmoothWalk(ch, req, Saving(at, seen))
    ensures SmoothWalk(ch, req, if at.before.None? then Closing(at) else Continue(req, at, seen))
  {
  }

  lemma {:induction false} SmoothProviderStep(t: Tables, req: Request, ch: seq<Post>, w: Walk, now: Instant, a: Answer)
    requires Descending(ch) && req.Limit() > 0 && req.maxPages > 0 && CanonicalUsername(req.username)
    requires w.Entering? || w.Resolving? || w.Fetching?
    requires (w.Entering? ==> req.Lease() !in t.leases) && SmoothWalk(ch, req, w) && Smooth(t, req, ch, w, a)
    ensures SmoothWalk(ch, req, Step(t, req, w, now, a).1) && !Step(t, req, w, now, a).1.Entering?
  {
    match w
    case Entering => SmoothEnters(t, req, ch, now);
    case Resolving(at) => SmoothResolves(req, ch);
    case Fetching(at, seen) => SmoothFetches(req, ch, at, seen);
  }

  lemma {:induction false} SmoothStoringStep(t: Tables, req: Request, ch: seq<Post>, w: Walk, now: Instant, a: Answer)
    requires Descending(ch) && req.Limit() > 0 && w.Storing?
    requires SmoothWalk(ch, req, w) && Smooth(t, req, ch, w, a)
    ensures SmoothWalk(ch, req, Step(t, req, w, now, a).1) && !Step(t, req, w, now, a).1.Entering?
  {
    if w.next < |w.page.posts| {
      SmoothStores(t, req, ch, w, a);
      SmoothStays(t, req, ch, w, a);
    }
  }

  lemma {:induction false} SmoothWithdrawingStep(t: Tables, req: Request, ch: seq<Post>, w: Walk, now: Instant,
      a: Answer)
    requires Descending(ch) && req.Limit() > 0 && w.Withdrawing?
    requires SmoothWalk(ch, req, w) && Smooth(t, req, ch, w, a)
    ensures SmoothWalk(ch, req, Step(t, req, w, now, a).1) && !Step(t, req, w, now, a).1.Entering?
  {
    WithdrawsOn(t, req, w, now, a);
    SmoothPageEnds(req, ch, w.at, w.page, w.seen, w.stored, w.reached);
  }

  lemma {:induction false} WithdrawsOn(t: Tables, req: Request, w: Walk, now: Instant, a: Answer)
    requires w.Withdrawing? && a.Carried?
    ensures Step(t, req, w, now, a).1 ==
      Saving(Position(if w.reached then None else w.page.next, w.at.pages, w.at.revisions + w.stored), w.seen)
  {
  }

  lemma {:induction false} SmoothStays(t: Tables, req: Request, ch: seq<Post>, w: Walk, a: Answer)
    requires w.Storing? && w.next < |w.page.posts|
    ensures !StorePost(t, req, w, a).1.Entering?
  {
  }

  lemma {:induction false} SmoothLeaseStep(t: Tables, req: Request, ch: seq<Post>, w: Walk, now: Instant, a: Answer)
    requires (w.Saving? || w.Closing? || w.Done?) && SmoothWalk(ch, req, w) && Smooth(t, req, ch, w, a)
    ensures SmoothWalk(ch, req, Step(t, req, w, now, a).1) && !Step(t, req, w, now, a).1.Entering?
  {
    if w.Saving? {
      SmoothSaves(req, ch, w.at, w.seen);
    }
  }

  lemma {:induction false} SmoothStep(t: Tables, req: Request, ch: seq<Post>, w: Walk, now: Instant, a: Answer)
    requires Descending(ch) && req.Limit() > 0 && req.maxPages > 0
    requires CanonicalUsername(req.username) && (w.Entering? ==> req.Lease() !in t.leases)
    requires SmoothWalk(ch, req, w) && Smooth(t, req, ch, w, a)
    ensures SmoothWalk(ch, req, Step(t, req, w, now, a).1) && !Step(t, req, w, now, a).1.Entering?
  {
    if w.Storing? {
      SmoothStoringStep(t, req, ch, w, now, a);
    } else if w.Withdrawing? {
      SmoothWithdrawingStep(t, req, ch, w, now, a);
    } else if w.Entering? || w.Resolving? || w.Fetching? {
      SmoothProviderStep(t, req, ch, w, now, a);
    } else {
      SmoothLeaseStep(t, req, ch, w, now, a);
    }
  }

  lemma {:induction false} SmoothAdvance(t: Tables, req: Request, ch: seq<Post>, answers: seq<Timed>)
    requires Descending(ch) && req.Limit() > 0 && req.maxPages > 0
    requires CanonicalUsername(req.username) && req.Lease() !in t.leases && SmoothRun(t, req, ch, answers)
    ensures SmoothWalk(ch, req, Advance(t, req, Entering, answers).1)
    ensures Advance(t, req, Entering, answers).1.Entering? ==> Advance(t, req, Entering, answers).0 == t
    decreases |answers|
  {
    if answers != [] {
      var n := |answers| - 1;
      SmoothAdvance(t, req, ch, answers[..n]);
      var (t', w') := Advance(t, req, Entering, answers[..n]);
      SmoothStep(t', req, ch, w', answers[n].at, answers[n].answer);
    }
  }

  // ---------------------------------------------------------------- what it reports

  lemma {:induction false} WantedCounts(ch: seq<Post>, req: Request, i: nat, e: nat)
    requires i <= e <= |ch|
    ensures WantedIn(ch, req, i, e) == |set j | i <= j < e && req.Wanted(ch[j])|
    decreases e
  {
    var all := set j | i <= j < e && req.Wanted(ch[j]);
    if e > i {
      WantedCounts(ch, req, i, e - 1);
      var fewer := set j | i <= j < e - 1 && req.Wanted(ch[j]);
      assert all == if req.Wanted(ch[e - 1]) then fewer + {e - 1} else fewer;
    } else {
      assert all == {};
    }
  }

  /** How many posts full pages hold. */
  function PostsOf(pages: nat, limit: nat): nat {
    if pages == 0 then 0 else limit + PostsOf(pages - 1, limit)
  }

  lemma {:induction false} PostsMultiply(pages: nat, limit: nat)
    ensures PostsOf(pages, limit) == pages * limit
    decreases pages
  {
    if pages > 0 {
      PostsMultiply(pages - 1, limit);
    }
  }

  /** The page limit cuts a plan exactly when all its pages are full and none reaches below the window. */
  lemma {:induction false} PlanIsCut(ch: seq<Post>, req: Request, i: nat, left: nat)
    requires i <= |ch|
    ensures var n := i + PostsOf(left, req.Limit());
      && (PlanFrom(ch, req, i, left).partial <==> n <= |ch| && !HasOld(ch, req, i, n))
      && (PlanFrom(ch, req, i, left).partial ==> PlanFrom(ch, req, i, left).reach == n)
    decreases left
  {
    var m := i + req.Limit();
    if left > 0 && m <= |ch| {
      PlanIsCut(ch, req, m, left - 1);
      var n := i + PostsOf(left, req.Limit());
      if n <= |ch| {
        OldSplits(ch, req, i, m, n);
      }
    }
  }

  lemma {:induction false} OldSplits(ch: seq<Post>, req: Request, i: nat, m: nat, n: nat)
    requires i <= m <= n <= |ch|
    ensures HasOld(ch, req, i, n) <==> HasOld(ch, req, i, m) || HasOld(ch, req, m, n)
  {
  }

  /** A plan that is not cut reaches every wanted post. */
  lemma {:induction false} PlanReachesAll(ch: seq<Post>, req: Request, i: nat, left: nat, j: nat)
    requires TimesFall(ch) && i <= |ch| && !PlanFrom(ch, req, i, left).partial
    requires j < |ch| && req.Wanted(ch[j])
    ensures j < PlanFrom(ch, req, i, left).reach
    decreases left
  {
    var m := i + req.Limit();
    if left > 0 && m <= |ch| {
      if HasOld(ch, req, i, m) {
        var o :| i <= o < m && req.TooOld(ch[o]);
      } else {
        PlanReachesAll(ch, req, m, left - 1, j);
      }
    }
  }

  /** What the walk reads of the channel: the posts of the pages it may read, down to the one that holds a post older
      than the window, or all of them. */
  function Read(ch: seq<Post>, req: Request): (n: nat)
    ensures n <= |ch|
  {
    FullPlan(ch, req).reach
  }

  /** An attempt that nothing disturbs fails if and only if a post it reads could be stored but has no date. Otherwise
      it reports a partial result if and only if all the pages it may read are full and none of their posts is older
      than the window, and it counts every wanted post of the channel, or of those pages. */
  lemma {:induction false} UndisturbedWalkReports(t: Tables, req: Request, ch: seq<Post>, answers: seq<Timed>)
    requires ValidChannel(ch) && CanonicalUsername(req.username)
    requires req.maxPages > 0 && req.pageSize > 0 && req.Lease() !in t.leases && SmoothRun(t, req, ch, answers)
    requires Advance(t, req, Entering, answers).1.Done?
    ensures var o := Advance(t, req, Entering, answers).1.outcome;
      var n := req.maxPages * req.Limit();
      && !o.Deferred? && (o.Unavailable? <==> !DatedTo(ch, Read(ch, req)))
      && (o.Reported? ==>
           && (o.partial <==> n <= |ch| && forall j :: 0 <= j < n ==> !req.TooOld(ch[j]))
           && o.revisions == |set j | 0 <= j < (if o.partial then n else |ch|) && req.Wanted(ch[j])|)
  {
    var plan := FullPlan(ch, req);
    SmoothAdvance(t, req, ch, answers);
    PlanIsCut(ch, req, 0, req.maxPages);
    PostsMultiply(req.maxPages, req.Limit());
    WantedCounts(ch, req, 0, plan.reach);
    if !plan.partial {
      forall j | 0 <= j < |ch| && req.Wanted(ch[j])
        ensures j < plan.reach
      {
        PlanReachesAll(ch, req, 0, req.maxPages, j);
      }
      assert (set j | 0 <= j < plan.reach && req.Wanted(ch[j])) == (set j | 0 <= j < |ch| && req.Wanted(ch[j]));
    }
  }

  /** The walks of the executor read 2000 posts of a channel at most. */
  lemma {:induction false} ExecutorReads(t: Tables, p: Pending, c: Listed, ch: seq<Post>, answers: seq<Timed>)
    requires ValidChannel(ch) && DatedTo(ch, |ch|) && CanonicalUsername(c.username)
    requires LeaseKey(p.run, c.channel) !in t.leases && SmoothRun(t, RequestFor(p, c), ch, answers)
    requires Advance(t, RequestFor(p, c), Entering, answers).1.Done?
    ensures var o := Advance(t, RequestFor(p, c), Entering, answers).1.outcome;
      o.Reported? &&
      (o.partial <==>
        |ch| >= 2000
        && forall j :: 0 <= j < 2000 && Storable(ch[j]) && ch[j].published.Some? ==> ch[j].published.value >= p.start)
  {
    UndisturbedWalkReports(t, RequestFor(p, c), ch, answers);
  }

  // ---------------------------------------------------------------- after a crash

  /** Three pages of one post each, of a channel of two posts, the second older than the window. */
  function TwoPosts(): seq<Post> { [Post(2, [1], Some(5), false), Post(1, [1], Some(0), false)] }

  function ThreePages(): Request { Request(0, 0, "channel", 5, 6, 3, 1) }

  /** The attempt after one that died between its last page and its last checkpoint. */
  function SecondAttempt(now: Instant): seq<Timed> {
    var ok := Timed(now, Carried(1));
    [Timed(now, Silent), Timed(now, Resolved), Timed(now, Fetched(PageOf(TwoPosts(), None, 1))), ok, ok, ok, ok, ok]
  }

  lemma {:induction false} FirstPage()
    ensures PageOf(TwoPosts(), None, 1) == Page([TwoPosts()[0]], Some(2))
    ensures ThreePages().Limit() == 1 && ThreePages().Lease() == LeaseKey(0, 0)
    ensures CanonicalUsername(ThreePages().username)
  {
    assert TwoPosts()[0..1] == [TwoPosts()[0]];
    assert ThreePages().username == "channel";
  }

  lemma {:induction false} TwoPostsAreRead()
    ensures !FullPlan(TwoPosts(), ThreePages()).partial
  {
    FirstPage();
    PlanIsCut(TwoPosts(), ThreePages(), 0, 3);
    PostsMultiply(3, 1);
  }

  /** The newest post, stored. */
  predicate FirstStored(t: Tables) {
    RevisionKey(0, 2, Sha256([1])) in t.revisions
  }

  /** The attempt that resumes there reads the channel again from the newest post, runs out of pages and reports a
      partial result, although an undisturbed one would not. */
  lemma {:induction false} ResumedWalkMayBePartial(t: Tables, now: Instant, revisions: nat, expires: Instant)
    requires FirstStored(t) && ThreePages().Lease() in t.leases
    requires t.leases[ThreePages().Lease()] == Checkpoint(None, 2, revisions, PageCommitted, expires)
    ensures FaithfulRun(t, ThreePages(), TwoPosts(), Entering, SecondAttempt(now))
    ensures Advance(t, ThreePages(), Entering, SecondAttempt(now)).1 == Done(Reported(3, revisions + 1, true))
    ensures !FullPlan(TwoPosts(), ThreePages()).partial
  {
    var req, ch, e := ThreePages(), TwoPosts(), SecondAttempt(now);
    var at, page := Position(None, 2, revisions), PageOf(ch, None, 1);
    var ok := e[3];
    FirstPage();
    TwoPostsAreRead();
    Extend(t, req, ch, [], e[0], t, Entering);
    Extend(t, req, ch, [e[0]], e[1], t, Resolving(at));
    Extend(t, req, ch, [e[0]] + [e[1]], e[2], t, Fetching(at, {}));
    var front := [e[0]] + [e[1]] + [e[2]];
    PageIsRead(t, req, ch, now, front, at.(pages := 3), page, ok);
    assert e == front + [ok] + [ok] + [ok] + [ok] + [ok];
  }

  /** The post is there already, so visiting it only counts it. */
  lemma {:induction false} FirstPostStays(t: Tables, at: Position, now: Instant)
    requires FirstStored(t)
    ensures var post, page := TwoPosts()[0], PageOf(TwoPosts(), None, 1);
      Step(t, ThreePages(), Storing(at, page, {}, 0, 0, false), now, Carried(1)) ==
        (t, Storing(at, page, {(post.id, Sha256(post.body))}, 1, 1, false))
  {
    FirstPage();
    var post := TwoPosts()[0];
    var none: SeenPosts := {};
    assert ThreePages().Wanted(post) && ThreePages().Key(post) in t.revisions;
    assert none + {(post.id, Sha256(post.body))} == {(post.id, Sha256(post.body))};
  }

  lemma {:induction false} PageIsRead(t: Tables, req: Request, ch: seq<Post>, now: Instant, front: seq<Timed>,
      at: Position, page: Page, ok: Timed)
    requires req == ThreePages() && ch == TwoPosts() && ok == Timed(now, Carried(1)) && FirstStored(t)
    requires at.before.None? && at.pages == 3 && page == PageOf(ch, None, 1)
    requires FaithfulRun(t, req, ch, Entering, front)
    requires Advance(t, req, Entering, front) == (t, Storing(at, page, {}, 0, 0, false))
    ensures FaithfulRun(t, req, ch, Entering, front + [ok] + [ok] + [ok] + [ok] + [ok])
    ensures Advance(t, req, Entering, front + [ok] + [ok] + [ok] + [ok] + [ok]).1 ==
      Done(Reported(3, at.revisions + 1, true))
  {
    FirstPage();
    var seen := {(ch[0].id, Sha256(ch[0].body))};
    FirstPostStays(t, at, now);
    Extend(t, req, ch, front, ok, t, Storing(at, page, {}, 0, 0, false));
    Extend(t, req, ch, front + [ok], ok, t, Storing(at, page, seen, 1, 1, false));
    PageIsClosed(t, req, ch, now, front + [ok] + [ok], at, page, seen, ok);
  }

  lemma {:induction false} PageIsClosed(t: Tables, req: Request, ch: seq<Post>, now: Instant, front: seq<Timed>,
      at: Position, page: Page, seen: SeenPosts, ok: Timed)
    requires req == ThreePages() && ok == Timed(now, Carried(1))
    requires at.before.None? && at.pages == 3 && page == PageOf(TwoPosts(), None, 1)
    requires FaithfulRun(t, req, ch, Entering, front)
    requires Advance(t, req, Entering, front) == (t, Withdrawing(at, page, seen, 1, false))
    ensures FaithfulRun(t, req, ch, Entering, front + [ok] + [ok] + [ok])
    ensures Advance(t, req, Entering, front + [ok] + [ok] + [ok]).1 == Done(Reported(3, at.revisions + 1, true))
  {
    var gone := AbsenceOf(page, Proved(page, None).value);
    var t1 := WithdrawMissing(t, req.channel, gone, now);
    var read := Position(Some(2), 3, at.revisions + 1);
    var t2 := Save(t1, req, read, PageCommitted, now + LEASE_SECONDS);
    LastSteps(t, at, page, seen, now);
    Extend(t, req, ch, front, ok, t, Withdrawing(at, page, seen, 1, false));
    Extend(t, req, ch, front + [ok], ok, t1, Saving(read, seen));
    Extend(t, req, ch, front + [ok] + [ok], ok, t2, Closing(read));
  }

  lemma {:induction false} LastSteps(t: Tables, at: Position, page: Page, seen: SeenPosts, now: Instant)
    requires at.before.None? && at.pages == 3 && page == PageOf(TwoPosts(), None, 1)
    ensures Proved(page, None).Some?
    ensures var req, read := ThreePages(), Position(Some(2), 3, at.revisions + 1);
      var t1 := WithdrawMissing(t, req.channel, AbsenceOf(page, Proved(page, None).value), now);
      var t2 := Save(t1, req, read, PageCommitted, now + LEASE_SECONDS);
      && Step(t, req, Withdrawing(at, page, seen, 1, false), now, Carried(1)) == (t1, Saving(read, seen))
      && Step(t1, req, Saving(read, seen), now, Carried(1)) == (t2, Closing(read))
      && Step(t2, req, Closing(read), now, Carried(1)).1 == Done(Reported(3, at.revisions + 1, true))
  {
    FirstPage();
  }
}
