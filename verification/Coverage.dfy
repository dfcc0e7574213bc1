/** What the cursor, the lease and a half-stored page promise about the rows already stored. */
module CoverageSpec {
  import opened Schema
  import opened Provider
  import opened Walk

  type Keys = set<RevisionKey>

  /** Every storable post of the window has its row. */
  predicate Covered(keys: Keys, req: Request, ch: seq<Post>) {
    forall j :: 0 <= j < |ch| && req.Wanted(ch[j]) ==> req.Key(ch[j]) in keys
  }

  /** Every storable post of the window at or above the cursor has its row. */
  predicate StoredAbove(keys: Keys, req: Request, ch: seq<Post>, cursor: MessageId) {
    forall j :: 0 <= j < |ch| && ch[j].id >= cursor && req.Wanted(ch[j]) ==> req.Key(ch[j]) in keys
  }

  predicate SoundCursor(keys: Keys, req: Request, ch: seq<Post>, before: Option<MessageId>, pages: nat) {
    match before
    case Some(c) => pages > 0 && StoredAbove(keys, req, ch, c)
    case None => pages > 0 ==> Covered(keys, req, ch)
  }

  predicate SoundPosition(keys: Keys, req: Request, ch: seq<Post>, at: Position) {
    SoundCursor(keys, req, ch, at.before, at.pages)
  }

  /** The posts of the page already visited are stored, and the flag tells that one was too old. */
  predicate PageStored(keys: Keys, req: Request, page: Page, next: nat, reached: bool) {
    && next <= |page.posts|
    && (forall j :: 0 <= j < next && req.Wanted(page.posts[j]) ==> req.Key(page.posts[j]) in keys)
    && (reached ==> exists j :: 0 <= j < next && req.TooOld(page.posts[j]))
  }

  predicate SeenStored(keys: Keys, req: Request, seen: SeenPosts) {
    forall x :: x in seen ==> RevisionKey(req.channel, x.0, x.1) in keys
  }

  predicate SoundPage(keys: Keys, req: Request, ch: seq<Post>, at: Position, page: Page, next: nat, reached: bool) {
    && at.pages > 0
    && SoundCursor(keys, req, ch, at.before, at.pages - 1)
    && page == PageOf(ch, at.before, req.Limit())
    && PageStored(keys, req, page, next, reached)
  }

  predicate SoundWalk(keys: Keys, req: Request, ch: seq<Post>, w: Walk) {
    match w
    case Entering => true
    case Resolving(at) => SoundPosition(keys, req, ch, at)
    case Fetching(at, seen) => SoundPosition(keys, req, ch, at) && SeenStored(keys, req, seen)
    case Storing(at, page, seen, next, _, reached) =>
      SoundPage(keys, req, ch, at, page, next, reached) && SeenStored(keys, req, seen)
    case Withdrawing(at, page, seen, _, reached) =>
      SoundPage(keys, req, ch, at, page, |page.posts|, reached) && SeenStored(keys, req, seen)
    case Saving(at, seen) => at.pages > 0 && SoundPosition(keys, req, ch, at) && SeenStored(keys, req, seen)
    case Closing(at) => at.pages > 0 && SoundPosition(keys, req, ch, at)
    case Waiting(at, _) => SoundPosition(keys, req, ch, at)
    case Breaking(at) => at.pages > 0 && SoundPosition(keys, req, ch, at)
    case Done(Reported(_, _, partial)) => !partial ==> Covered(keys, req, ch)
    case Done(_) => true
  }

  /** What the lease of the walk promises to the next attempt. */
  predicate SoundLease(leases: map<LeaseKey, Checkpoint>, keys: Keys, req: Request, ch: seq<Post>) {
    req.Lease() in leases ==>
      var c := leases[req.Lease()];
      && SoundCursor(keys, req, ch, c.before, c.pages)
      && (c.mark.Completed? ==> Covered(keys, req, ch))
  }

  predicate Sound(t: Tables, req: Request, ch: seq<Post>, w: Walk) {
    SoundLease(t.leases, t.revisions.Keys, req, ch) && SoundWalk(t.revisions.Keys, req, ch, w)
  }

  /** A step kept the walk sound and removed no row. */
  predicate Kept(t: Tables, t': Tables, req: Request, ch: seq<Post>, w': Walk) {
    t.revisions.Keys <= t'.revisions.Keys && Sound(t', req, ch, w')
  }

  /** The provider answers a fetch with the page the channel holds below the cursor. */
  predicate Faithful(req: Request, ch: seq<Post>, w: Walk, a: Answer) {
    w.Fetching? && a.Fetched? ==> a.page == PageOf(ch, w.at.before, req.Limit())
  }
}

/** Walk coverage: an acquisition that reports itself complete has stored every storable post of the
    window, however many attempts crashed or were told to wait before it.

    The cursor `before` is absent both before the first page and after the last one; the page count
    tells the two apart. */
module Coverage {
  import opened Schema
  import opened Provider
  import opened Revisions
  import opened Walk
  import opened CoverageSpec

  /** Rows are never removed, so other writers keep a walk sound. */
  lemma {:induction false} SoundGrows(keys: Keys, keys': Keys, leases: map<LeaseKey, Checkpoint>, req: Request,
      ch: seq<Post>, w: Walk)
    requires keys <= keys'
    requires SoundLease(leases, keys, req, ch) && SoundWalk(keys, req, ch, w)
    ensures SoundLease(leases, keys', req, ch) && SoundWalk(keys', req, ch, w)
  {
  }

  /** A page closes the gap down to its next cursor; a short page, or one with a post older than the
      window, closes the whole window. */
  lemma {:induction false} PageClosesGap(keys: Keys, req: Request, ch: seq<Post>, at: Position, page: Page,
      reached: bool)
    requires ValidChannel(ch) && req.pageSize > 0
    requires SoundPage(keys, req, ch, at, page, |page.posts|, reached)
    ensures SoundCursor(keys, req, ch, if reached then None else page.next, at.pages)
  {
    var i := Above(ch, at.before);
    var e := i + |page.posts|;
    assert page.posts == ch[i..e];
    if at.before.Some? {
      AboveSplits(ch, at.before.value);
    }
    forall j | 0 <= j < e && req.Wanted(ch[j])
      ensures req.Key(ch[j]) in keys
    {
      if j >= i {
        assert page.posts[j - i] == ch[j];
      }
    }
    if reached {
      var o :| 0 <= o < |page.posts| && req.TooOld(page.posts[o]);
      assert ch[i + o] == page.posts[o];
      forall j | e <= j < |ch|
        ensures !req.Wanted(ch[j])
      {
      }
    } else if page.next.Some? {
      assert ch[e - 1].id == page.next.value;
    }
  }

  /** What visiting one post does: the walk gives up, passes the post over, or appends it. */
  lemma {:induction false} StorePostCases(t: Tables, req: Request, w: Walk, a: Answer)
    requires w.Storing? && w.next < |w.page.posts|
    ensures var (t', w') := StorePost(t, req, w, a);
      var p := w.page.posts[w.next];
      || (t' == t && w' == Done(Unavailable))
      || (t' == t && w' == w.(next := w.next + 1, reached := w'.reached) && (w'.reached <==> w.reached || req.TooOld(p))
          && (req.Wanted(p) ==> (p.id, Sha256(p.body)) in w.seen))
      || (req.Wanted(p) && w' == w.(next := w.next + 1, stored := w.stored + 1,
                                    seen := w.seen + {(p.id, Sha256(p.body))})
          && t' == t.(revisions := t'.revisions) && t'.revisions.Keys == t.revisions.Keys + {req.Key(p)})
  {
  }

  lemma {:induction false} SeenGrows(keys: Keys, keys': Keys, req: Request, seen: SeenPosts, p: Post)
    requires SeenStored(keys, req, seen) && keys' == keys + {req.Key(p)}
    ensures SeenStored(keys', req, seen + {(p.id, Sha256(p.body))})
  {
  }

  /** A visited post moves the walk on or ends it; a wanted one is stored now or was stored before. */
  lemma {:induction false} StorePostMoves(t: Tables, req: Request, w: Walk, a: Answer)
    requires w.Storing? && w.next < |w.page.posts| && SeenStored(t.revisions.Keys, req, w.seen)
    ensures var (t', w') := StorePost(t, req, w, a);
      var p := w.page.posts[w.next];
      && t'.leases == t.leases && t.revisions.Keys <= t'.revisions.Keys
      && (w' == Done(Unavailable)
          || (&& w'.Storing? && w'.page == w.page && w'.next == w.next + 1 && w'.at == w.at
              && (w'.reached <==> w.reached || req.TooOld(p))
              && (req.Wanted(p) ==> req.Key(p) in t'.revisions.Keys)
              && SeenStored(t'.revisions.Keys, req, w'.seen)))
  {
    var (t', w') := StorePost(t, req, w, a);
    var p := w.page.posts[w.next];
    StorePostCases(t, req, w, a);
    if t' != t {
      SeenGrows(t.revisions.Keys, t'.revisions.Keys, req, w.seen, p);
    }
  }

  lemma {:induction false} PageGrows(keys: Keys, keys': Keys, req: Request, page: Page, next: nat, reached: bool,
      reached': bool)
    requires next < |page.posts| && keys <= keys'
    requires PageStored(keys, req, page, next, reached)
    requires req.Wanted(page.posts[next]) ==> req.Key(page.posts[next]) in keys'
    requires reached' ==> reached || req.TooOld(page.posts[next])
    ensures PageStored(keys', req, page, next + 1, reached')
  {
  }

  lemma {:induction false} CursorGrows(keys: Keys, keys': Keys, req: Request, ch: seq<Post>, before: Option<MessageId>,
      pages: nat)
    requires keys <= keys' && SoundCursor(keys, req, ch, before, pages)
    ensures SoundCursor(keys', req, ch, before, pages)
  {
  }

  /** Visiting one post keeps the page sound. */
  lemma {:induction false} StorePostSound(t: Tables, req: Request, ch: seq<Post>, w: Walk, a: Answer)
    requires w.Storing? && w.next < |w.page.posts|
    requires SoundPage(t.revisions.Keys, req, ch, w.at, w.page, w.next, w.reached)
    requires SeenStored(t.revisions.Keys, req, w.seen)
    ensures var (t', w') := StorePost(t, req, w, a);
      && t'.revisions.Keys >= t.revisions.Keys && t'.leases == t.leases
      && SoundWalk(t'.revisions.Keys, req, ch, w')
  {
    var (t', w') := StorePost(t, req, w, a);
    StorePostMoves(t, req, w, a);
    if w'.Storing? {
      CursorGrows(t.revisions.Keys, t'.revisions.Keys, req, ch, w.at.before, w.at.pages - 1);
      PageGrows(t.revisions.Keys, t'.revisions.Keys, req, w.page, w.next, w.reached, w'.reached);
    }
  }

  lemma {:induction false} SavedLeaseSound(t: Tables, req: Request, ch: seq<Post>, at: Position, mark: Mark,
      expires: Instant)
    requires SoundPosition(t.revisions.Keys, req, ch, at)
    requires mark.Completed? ==> at.pages > 0 && at.before.None?
    ensures var t' := Save(t, req, at, mark, expires);
      t'.revisions == t.revisions && SoundLease(t'.leases, t'.revisions.Keys, req, ch)
  {
  }

  lemma {:induction false} ResumeSound(t: Tables, req: Request, ch: seq<Post>, now: Instant)
    requires req.maxPages > 0 && SoundLease(t.leases, t.revisions.Keys, req, ch)
    ensures SoundWalk(t.revisions.Keys, req, ch, Resume(t.leases, req, now))
  {
  }

  lemma {:induction false} ProviderStepSound(t: Tables, req: Request, ch: seq<Post>, w: Walk, now: Instant, a: Answer)
    requires req.maxPages > 0
    requires w.Entering? || w.Resolving? || w.Fetching? || w.Done?
    requires Sound(t, req, ch, w) && Faithful(req, ch, w, a)
    ensures Kept(t, Step(t, req, w, now, a).0, req, ch, Step(t, req, w, now, a).1)
  {
    if w.Entering? {
      ResumeSound(t, req, ch, now);
    }
  }

  lemma {:induction false} StoringStepSound(t: Tables, req: Request, ch: seq<Post>, w: Walk, now: Instant, a: Answer)
    requires w.Storing? && Sound(t, req, ch, w)
    ensures Kept(t, Step(t, req, w, now, a).0, req, ch, Step(t, req, w, now, a).1)
  {
    if w.next < |w.page.posts| {
      StorePostSound(t, req, ch, w, a);
      SoundGrows(t.revisions.Keys, StorePost(t, req, w, a).0.revisions.Keys, t.leases, req, ch, Entering);
    }
  }

  /** The withdrawal of a page either fails the walk or leaves it at the position after the page. */
  lemma {:induction false} WithdrawingCases(t: Tables, req: Request, w: Walk, now: Instant, a: Answer)
    requires w.Withdrawing?
    ensures var (t', w') := Step(t, req, w, now, a);
      var range := Proved(w.page, w.at.before);
      && t'.leases == t.leases && t'.revisions.Keys == t.revisions.Keys
      && (w' == Done(Unavailable)
          || w' == Saving(
               Position(if w.reached then None else w.page.next, w.at.pages, w.at.revisions + w.stored), w.seen))
      && (w'.Done? ==> t' == t)
      && (w'.Saving? && range.Some? ==> t' == WithdrawMissing(t, req.channel, AbsenceOf(w.page, range.value), now))
  {
  }

  lemma {:induction false} WithdrawingStepSound(t: Tables, req: Request, ch: seq<Post>, w: Walk, now: Instant,
      a: Answer)
    requires ValidChannel(ch) && req.pageSize > 0
    requires w.Withdrawing? && Sound(t, req, ch, w)
    ensures Kept(t, Step(t, req, w, now, a).0, req, ch, Step(t, req, w, now, a).1)
  {
    WithdrawingCases(t, req, w, now, a);
    PageClosesGap(t.revisions.Keys, req, ch, w.at, w.page, w.reached);
  }

  lemma {:induction false} LeaseStepSound(t: Tables, req: Request, ch: seq<Post>, w: Walk, now: Instant, a: Answer)
    requires w.Saving? || w.Closing? || w.Waiting? || w.Breaking?
    requires Sound(t, req, ch, w)
    ensures Kept(t, Step(t, req, w, now, a).0, req, ch, Step(t, req, w, now, a).1)
  {
    var keys := t.revisions.Keys;
    match w
    case Saving(at, seen) =>
      SavedLeaseSound(t, req, ch, at, PageCommitted, now + LEASE_SECONDS);
    case Closing(at) =>
      SavedLeaseSound(t, req, ch, at, if at.before.Some? then PageLimit else Mark.Completed, now + LEASE_SECONDS);
    case Waiting(at, s) =>
      SavedLeaseSound(t, req, ch, at, FloodWait, now + Clamp(s));
    case Breaking(at) =>
      SavedLeaseSound(t, req, ch, at, ProviderUnavailable, now + LEASE_SECONDS);
  }

  /** One step of the walk keeps it sound and removes no row. */
  lemma {:induction false} StepSound(t: Tables, req: Request, ch: seq<Post>, w: Walk, now: Instant, a: Answer)
    requires ValidChannel(ch) && req.maxPages > 0 && req.pageSize > 0
    requires Sound(t, req, ch, w) && Faithful(req, ch, w, a)
    ensures Kept(t, Step(t, req, w, now, a).0, req, ch, Step(t, req, w, now, a).1)
  {
    if w.Storing? {
      StoringStepSound(t, req, ch, w, now, a);
    } else if w.Withdrawing? {
      WithdrawingStepSound(t, req, ch, w, now, a);
    } else if w.Saving? || w.Closing? || w.Waiting? || w.Breaking? {
      LeaseStepSound(t, req, ch, w, now, a);
    } else {
      ProviderStepSound(t, req, ch, w, now, a);
    }
  }

  // ---------------------------------------------------------------- attempts

  /** Every page of one attempt is the page of the channel. */
  predicate FaithfulRun(t: Tables, req: Request, ch: seq<Post>, w: Walk, answers: seq<Timed>)
    decreases |answers|
  {
    answers == [] ||
    var before := answers[..|answers| - 1];
    && FaithfulRun(t, req, ch, w, before)
    && Faithful(req, ch, Advance(t, req, w, before).1, answers[|answers| - 1].answer)
  }

  lemma {:induction false} AdvanceSound(t: Tables, req: Request, ch: seq<Post>, w: Walk, answers: seq<Timed>)
    requires ValidChannel(ch) && req.maxPages > 0 && req.pageSize > 0
    requires Sound(t, req, ch, w) && FaithfulRun(t, req, ch, w, answers)
    ensures var (t', w') := Advance(t, req, w, answers); Sound(t', req, ch, w') && t'.revisions.Keys >= t.revisions.Keys
    decreases |answers|
  {
    if answers != [] {
      var n := |answers| - 1;
      AdvanceSound(t, req, ch, w, answers[..n]);
      var (t', w') := Advance(t, req, w, answers[..n]);
      StepSound(t', req, ch, w', answers[n].at, answers[n].answer);
    }
  }

  /** The tables after a sequence of attempts: each starts over from what the last one left. */
  function Attempts(t: Tables, req: Request, scripts: seq<seq<Timed>>): Tables
    decreases |scripts|
  {
    if scripts == [] then t else
      Advance(Attempts(t, req, scripts[..|scripts| - 1]), req, Entering, scripts[|scripts| - 1]).0
  }

  predicate FaithfulAttempts(t: Tables, req: Request, ch: seq<Post>, scripts: seq<seq<Timed>>)
    decreases |scripts|
  {
    scripts == [] ||
    var before := scripts[..|scripts| - 1];
    && FaithfulAttempts(t, req, ch, before)
    && FaithfulRun(Attempts(t, req, before), req, ch, Entering, scripts[|scripts| - 1])
  }

  lemma {:induction false} AttemptsSound(t: Tables, req: Request, ch: seq<Post>, scripts: seq<seq<Timed>>)
    requires ValidChannel(ch) && req.maxPages > 0 && req.pageSize > 0
    requires req.Lease() !in t.leases && FaithfulAttempts(t, req, ch, scripts)
    ensures Sound(Attempts(t, req, scripts), req, ch, Entering)
    ensures Attempts(t, req, scripts).revisions.Keys >= t.revisions.Keys
    decreases |scripts|
  {
    if scripts != [] {
      var n := |scripts| - 1;
      AttemptsSound(t, req, ch, scripts[..n]);
      AdvanceSound(Attempts(t, req, scripts[..n]), req, ch, Entering, scripts[n]);
    }
  }

  /** Walk coverage: after any number of attempts cut off anywhere, an attempt that reports no
      partial result leaves a row for every storable post of the window. */
  lemma {:induction false} CompleteWalkCovers(t: Tables, req: Request, ch: seq<Post>, scripts: seq<seq<Timed>>,
      last: seq<Timed>)
    requires ValidChannel(ch) && req.maxPages > 0 && req.pageSize > 0
    requires req.Lease() !in t.leases
    requires FaithfulAttempts(t, req, ch, scripts)
    requires FaithfulRun(Attempts(t, req, scripts), req, ch, Entering, last)
    requires var w := Advance(Attempts(t, req, scripts), req, Entering, last).1;
      w.Done? && w.outcome.Reported? && !w.outcome.partial
    ensures Covered(Advance(Attempts(t, req, scripts), req, Entering, last).0.revisions.Keys, req, ch)
  {
    AttemptsSound(t, req, ch, scripts);
    AdvanceSound(Attempts(t, req, scripts), req, ch, Entering, last);
  }
}
