/** What a logged run of the walk means: the log replays to exactly this state. */
module AcquisitionSpec {
  import opened Schema
  import opened Walk

  /** From `t0` the answers logged so far led to these tables and this point of the walk, which had not
      ended before. */
  ghost predicate At(t0: Tables, req: Request, log: seq<Timed>, t: Tables, w: Walk) {
    && Advance(t0, req, Entering, log) == (t, w)
    && forall n :: 0 <= n < |log| ==> !Advance(t0, req, Entering, log[..n]).1.Done?
  }
}

/** The acquisition engine: the loop over pages, the loop over posts, and the checkpoints, against a
    provider and a database that may fail at any point. */
module Acquisition {
  import opened Schema
  import opened Provider
  import opened Revisions
  import opened Walk
  import W = Walk
  import opened Databases
  import opened CoverageSpec
  import opened Coverage
  import opened AcquisitionSpec

  lemma {:induction false} Begins(t0: Tables, req: Request)
    ensures At(t0, req, [], t0, Entering)
  {
  }

  /** One more answer is one more step. */
  lemma {:induction false} Steps(t0: Tables, req: Request, log: seq<Timed>, t: Tables, w: Walk, x: Timed)
    requires At(t0, req, log, t, w) && !w.Done?
    ensures At(t0, req, log + [x], Step(t, req, w, x.at, x.answer).0, Step(t, req, w, x.at, x.answer).1)
  {
    var log' := log + [x];
    assert log'[..|log|] == log;
    forall n | 0 <= n < |log'|
      ensures !Advance(t0, req, Entering, log'[..n]).1.Done?
    {
      if n < |log| {
        assert log'[..n] == log[..n];
      }
    }
  }

  /** Behind the last post comes the withdrawal. */
  lemma {:induction false} PageVisited(t0: Tables, req: Request, log: seq<Timed>, t: Tables, at: Position, page: Page,
      seen: SeenPosts, stored: nat, reached: bool)
    requires At(t0, req, log, t, Storing(at, page, seen, |page.posts|, stored, reached))
    ensures At(t0, req, log + [Timed(0, Silent)], t, Withdrawing(at, page, seen, stored, reached))
  {
    Steps(t0, req, log, t, Storing(at, page, seen, |page.posts|, stored, reached), Timed(0, Silent));
  }

  /** What the log proves: an execution that reports no partial result, over pages of one channel, left a row
      for every storable post of the window. */
  lemma {:induction false} LoggedExecutionCovers(t0: Tables, req: Request, ch: seq<Post>, log: seq<Timed>, t: Tables,
      outcome: Outcome)
    requires ValidChannel(ch) && req.maxPages > 0 && req.pageSize > 0
    requires At(t0, req, log, t, Done(outcome)) && outcome.Reported? && !outcome.partial
    requires SoundLease(t0.leases, t0.revisions.Keys, req, ch) && FaithfulRun(t0, req, ch, Entering, log)
    ensures Covered(t.revisions.Keys, req, ch)
  {
    AdvanceSound(t0, req, ch, Entering, log);
  }

  /** What the outside decides: the clock, whether a statement reaches the database, identities, and the
      provider. */
  class Environment {
    constructor () {}

    method Now() returns (now: Instant) {
      now := *;
    }

    method Reaches() returns (up: bool) {
      up := *;
    }

    method NewId() returns (id: Uuid) {
      id := *;
    }

    method Resolve() returns (a: Answer)
      ensures a.Resolved? || a.Flood? || a.Refusal?
    {
      if * {
        a := Resolved;
      } else if * {
        var seconds: nat := *;
        a := Flood(seconds);
      } else {
        a := Refusal;
      }
    }

    method Fetch(before: Option<MessageId>, limit: nat) returns (a: Answer)
      ensures a.Fetched? || a.Flood? || a.Refusal?
    {
      if * {
        var page: Page := *;
        a := Fetched(page);
      } else if * {
        var seconds: nat := *;
        a := Flood(seconds);
      } else {
        a := Refusal;
      }
    }
  }

  class RevisionRepository {
    const db: Database

    constructor (db: Database)
      ensures this.db == db
    {
      this.db := db;
    }

    /** `append_revision`. */
    method Append(key: RevisionKey, newId: Uuid, seen: Observation) returns (ok: bool)
      modifies db`revisions
      ensures ok <==> Revisions.Append(old(db.revisions), key, newId, seen).Some?
      ensures db.revisions ==
        if ok then Revisions.Append(old(db.revisions), key, newId, seen).value else old(db.revisions)
    {
      if key in db.revisions {
        return true;
      }
      if IdUsed(db.revisions, newId) {
        return false;
      }
      db.revisions := db.revisions[key :=
        Revision(newId, Some(key.digest.of), seen.link, seen.published, seen.observed, None, None)];
      ok := true;
    }

    /** `withdraw_missing`: one statement over both tables, and what it changed. */
    method WithdrawMissing(channel: Uuid, gone: Absence, at: Instant) returns (revisions: nat, manifests: nat)
      modifies db`revisions, db`manifests
      ensures db.Snapshot() == Revisions.WithdrawMissing(old(db.Snapshot()), channel, gone, at)
      ensures revisions == |set k | k in old(db.revisions) && Hit(k, old(db.revisions)[k], channel, gone)|
      ensures manifests == |set r | r in old(db.manifests) && Touches(old(db.manifests)[r], channel, gone)|
    {
      var rows, texts := db.revisions, db.manifests;
      revisions := |set k | k in rows && Hit(k, rows[k], channel, gone)|;
      manifests := |set r | r in texts && Touches(texts[r], channel, gone)|;
      db.revisions := map k | k in rows :: if Hit(k, rows[k], channel, gone) then Withdrawn(rows[k], at) else rows[k];
      db.manifests := map r | r in texts ::
        if Touches(texts[r], channel, gone) then WithoutText(texts[r], at) else texts[r];
    }
  }

  class AcquisitionEngine {
    const revisions: RevisionRepository
    const outside: Environment

    constructor (revisions: RevisionRepository, outside: Environment)
      ensures this.revisions == revisions && this.outside == outside
    {
      this.revisions := revisions;
      this.outside := outside;
    }

    /** `checkpoint`: upserts the lease of the run and channel. */
    method SaveCheckpoint(req: Request, at: Position, mark: Mark, wait: Option<nat>) returns (now: Instant, a: Answer)
      modifies revisions.db`leases
      ensures a.Carried? || a.StorageDown?
      ensures revisions.db.Snapshot() == if a.Carried?
        then Save(old(revisions.db.Snapshot()), req, at, mark,
                  now + if wait.Some? then Clamp(wait.value) else LEASE_SECONDS)
        else old(revisions.db.Snapshot())
    {
      now := outside.Now();
      var up := outside.Reaches();
      if !up {
        return now, StorageDown;
      }
      var expires := now + if wait.Some? then Clamp(wait.value) else LEASE_SECONDS;
      var checkpoint := Checkpoint(at.before, at.pages, at.revisions, mark, expires);
      revisions.db.leases := revisions.db.leases[req.Lease() := checkpoint];
      a := Carried(0);
    }

    /** One post of the page: passed over, refused, or appended unless this walk has seen it. */
    method StorePost(req: Request, post: Post, seen0: SeenPosts, ghost w: Walk)
      returns (a: Answer, ok: bool, stored: nat, tooOld: bool, seen: SeenPosts)
      requires w.Storing? && w.next < |w.page.posts| && w.page.posts[w.next] == post && w.seen == seen0
      modifies revisions.db`revisions
      ensures revisions.db.Snapshot() == W.StorePost(old(revisions.db.Snapshot()), req, w, a).0
      ensures W.StorePost(old(revisions.db.Snapshot()), req, w, a).1 ==
        if ok then w.(next := w.next + 1, stored := w.stored + stored, reached := w.reached || tooOld, seen := seen)
        else Done(Unavailable)
    {
      a, ok, stored, tooOld, seen := Silent, true, 0, false, seen0;
      if !Storable(post) {
        return;
      }
      if post.published.None? {
        ok := false;
        return;
      }
      if post.published.value < req.start {
        tooOld := true;
        return;
      }
      if post.published.value >= req.end || (post.id, Sha256(post.body)) in seen {
        return;
      }
      var id := outside.NewId();
      var up := outside.Reaches();
      if !up {
        a, ok := StorageDown, false;
        return;
      }
      a := Carried(id);
      ok := revisions.Append(req.Key(post), id,
                             Observation(TelegramLink(req.username, post.id), post.published.value, req.end));
      if ok {
        seen, stored := seen + {(post.id, Sha256(post.body))}, 1;
      }
    }

    /** Visits post `i` of the page and logs the answer. */
    method VisitPost(req: Request, at: Position, page: Page, i: nat, seen0: SeenPosts, stored0: nat, reached0: bool,
        ghost t0: Tables, ghost log0: seq<Timed>)
      returns (ok: bool, seen: SeenPosts, stored: nat, reached: bool, ghost log: seq<Timed>)
      requires i < |page.posts|
      requires At(t0, req, log0, revisions.db.Snapshot(), Storing(at, page, seen0, i, stored0, reached0))
      modifies revisions.db`revisions
      ensures At(t0, req, log, revisions.db.Snapshot(),
                 if ok then Storing(at, page, seen, i + 1, stored, reached) else Done(Unavailable))
    {
      ghost var t, w := revisions.db.Snapshot(), Storing(at, page, seen0, i, stored0, reached0);
      var a, count, tooOld;
      a, ok, count, tooOld, seen := StorePost(req, page.posts[i], seen0, w);
      stored, reached := stored0 + count, reached0 || tooOld;
      Steps(t0, req, log0, t, w, Timed(0, a));
      log := log0 + [Timed(0, a)];
    }

    /** `store_page`: visits the posts of the page in order. */
    method StorePage(req: Request, at: Position, page: Page, seen0: SeenPosts, ghost t0: Tables, ghost log0: seq<Timed>)
      returns (ok: bool, stored: nat, reached: bool, seen: SeenPosts, ghost log: seq<Timed>)
      requires At(t0, req, log0, revisions.db.Snapshot(), Storing(at, page, seen0, 0, 0, false))
      modifies revisions.db`revisions
      ensures At(t0, req, log, revisions.db.Snapshot(),
                 if ok then Withdrawing(at, page, seen, stored, reached) else Done(Unavailable))
    {
      ok, stored, reached, seen, log := true, 0, false, seen0, log0;
      for i := 0 to |page.posts|
        invariant ok && At(t0, req, log, revisions.db.Snapshot(), Storing(at, page, seen, i, stored, reached))
      {
        ok, seen, stored, reached, log := VisitPost(req, at, page, i, seen, stored, reached, t0, log);
        if !ok {
          return;
        }
      }
      PageVisited(t0, req, log, revisions.db.Snapshot(), at, page, seen, stored, reached);
      log := log + [Timed(0, Silent)];
    }

    /** `withdraw_absent`: withdraws what the page proves gone, when it proves anything. */
    method WithdrawAbsent(req: Request, page: Page, before: Option<MessageId>) returns (x: Timed)
      modifies revisions.db`revisions, revisions.db`manifests
      ensures if Proved(page, before).None? then x.answer.Silent? else x.answer.Carried? || x.answer.StorageDown?
      ensures revisions.db.Snapshot() == if Proved(page, before).Some? && x.answer.Carried?
        then WithdrawMissing(old(revisions.db.Snapshot()), req.channel, AbsenceOf(page, Proved(page, before).value),
                             x.at)
        else old(revisions.db.Snapshot())
    {
      var now := outside.Now();
      var range := Proved(page, before);
      if range.None? {
        return Timed(now, Silent);
      }
      var up := outside.Reaches();
      if !up {
        return Timed(now, StorageDown);
      }
      var rows, texts := revisions.WithdrawMissing(req.channel, AbsenceOf(page, range.value), now);
      x := Timed(now, Carried(0));
    }

    /** A provider wait is recorded and defers the attempt. */
    method Wait(req: Request, at: Position, seconds: nat, ghost t0: Tables, ghost log0: seq<Timed>)
      returns (outcome: Outcome, ghost log: seq<Timed>)
      requires At(t0, req, log0, revisions.db.Snapshot(), Waiting(at, seconds))
      modifies revisions.db`leases
      ensures At(t0, req, log, revisions.db.Snapshot(), Done(outcome))
    {
      ghost var t := revisions.db.Snapshot();
      var now, saved := SaveCheckpoint(req, at, FloodWait, Some(seconds));
      Steps(t0, req, log0, t, Waiting(at, seconds), Timed(now, saved));
      log := log0 + [Timed(now, saved)];
      outcome := if saved.Carried? then Deferred else Unavailable;
    }

    /** `resume`: where the lease of the run and channel says to read on. */
    method ResumeFrom(req: Request) returns (x: Timed, outcome: Option<Outcome>, at: Position)
      ensures Step(revisions.db.Snapshot(), req, Entering, x.at, x.answer) ==
        (revisions.db.Snapshot(), if outcome.Some? then Done(outcome.value) else Resolving(at))
    {
      at := Position(None, 0, 0);
      var now := outside.Now();
      var up := outside.Reaches();
      if !up {
        return Timed(now, StorageDown), Some(Unavailable), at;
      }
      x := Timed(now, Silent);
      if req.Lease() in revisions.db.leases {
        var c := revisions.db.leases[req.Lease()];
        if c.mark.FloodWait? && c.expires > now {
          return x, Some(Deferred), at;
        }
        at := if c.mark.Completed? then Position(None, req.maxPages, c.revisions)
          else Position(c.before, c.pages, c.revisions);
      }
      outcome := if CanonicalUsername(req.username) then None else Some(Unavailable);
    }

    /** `resolve`: asks the provider for the channel. */
    method ResolveChannel(req: Request, at: Position, ghost t0: Tables, ghost log0: seq<Timed>)
      returns (outcome: Option<Outcome>, ghost log: seq<Timed>)
      requires At(t0, req, log0, revisions.db.Snapshot(), Resolving(at))
      modifies revisions.db`leases
      ensures At(t0, req, log, revisions.db.Snapshot(),
                 if outcome.Some? then Done(outcome.value) else Continue(req, at, {}))
    {
      outcome := None;
      var answer := outside.Resolve();
      Steps(t0, req, log0, revisions.db.Snapshot(), Resolving(at), Timed(0, answer));
      log := log0 + [Timed(0, answer)];
      if answer.Flood? {
        var ended;
        ended, log := Wait(req, at, answer.seconds, t0, log);
        outcome := Some(ended);
      } else if !answer.Resolved? {
        outcome := Some(Unavailable);
      }
    }

    /** Reads the lease and resolves the channel: where to read on, or how the attempt ends. */
    method Enter(req: Request, ghost t0: Tables) returns (outcome: Option<Outcome>, at: Position, ghost log: seq<Timed>)
      requires t0 == revisions.db.Snapshot()
      modifies revisions.db`leases
      ensures At(t0, req, log, revisions.db.Snapshot(),
                 if outcome.Some? then Done(outcome.value) else Continue(req, at, {}))
    {
      Begins(t0, req);
      var x;
      x, outcome, at := ResumeFrom(req);
      Steps(t0, req, [], t0, Entering, x);
      log := [] + [x];
      if outcome.Some? {
        return;
      }
      outcome, log := ResolveChannel(req, at, t0, log);
    }

    /** Asks for one page: the page, or how the attempt ends. */
    method FetchPage(req: Request, at: Position, seen: SeenPosts, ghost t0: Tables, ghost log0: seq<Timed>)
      returns (outcome: Option<Outcome>, page: Page, ghost log: seq<Timed>)
      requires At(t0, req, log0, revisions.db.Snapshot(), Fetching(at, seen))
      modifies revisions.db`leases
      ensures At(t0, req, log, revisions.db.Snapshot(),
                 if outcome.Some? then Done(outcome.value)
                 else Storing(at.(pages := at.pages + 1), page, seen, 0, 0, false))
    {
      ghost var t := revisions.db.Snapshot();
      page := Page([], None);
      var answer := outside.Fetch(at.before, req.Limit());
      Steps(t0, req, log0, t, Fetching(at, seen), Timed(0, answer));
      log := log0 + [Timed(0, answer)];
      if answer.Fetched? {
        outcome, page := None, answer.page;
      } else if answer.Flood? {
        var ended;
        ended, log := Wait(req, at, answer.seconds, t0, log);
        outcome := Some(ended);
      } else if at.pages == 0 {
        outcome := Some(Unavailable);
      } else {
        var now, saved := SaveCheckpoint(req, at, ProviderUnavailable, None);
        Steps(t0, req, log, t, Breaking(at), Timed(now, saved));
        log := log + [Timed(now, saved)];
        outcome := Some(if saved.Carried? then Reported(at.pages, at.revisions, true) else Unavailable);
      }
    }

    /** Withdraws what a stored page proves gone. */
    method WithdrawPage(req: Request, at: Position, page: Page, seen: SeenPosts, stored: nat, reached: bool,
        ghost t0: Tables, ghost log0: seq<Timed>)
      returns (ok: bool, next: Position, ghost log: seq<Timed>)
      requires At(t0, req, log0, revisions.db.Snapshot(), Withdrawing(at, page, seen, stored, reached))
      modifies revisions.db`revisions, revisions.db`manifests
      ensures next == Position(if reached then None else page.next, at.pages, at.revisions + stored)
      ensures At(t0, req, log, revisions.db.Snapshot(), if ok then Saving(next, seen) else Done(Unavailable))
    {
      ghost var t := revisions.db.Snapshot();
      next := Position(if reached then None else page.next, at.pages, at.revisions + stored);
      var x := WithdrawAbsent(req, page, at.before);
      Steps(t0, req, log0, t, Withdrawing(at, page, seen, stored, reached), x);
      log := log0 + [x];
      ok := !x.answer.StorageDown?;
    }

    /** The checkpoint of a committed page. */
    method SavePage(req: Request, next: Position, seen: SeenPosts, ghost t0: Tables, ghost log0: seq<Timed>)
      returns (ok: bool, ghost log: seq<Timed>)
      requires At(t0, req, log0, revisions.db.Snapshot(), Saving(next, seen))
      modifies revisions.db`leases
      ensures At(t0, req, log, revisions.db.Snapshot(),
                 if !ok then Done(Unavailable)
                 else if next.before.None? then Closing(next)
                 else Continue(req, next, seen))
    {
      ghost var t := revisions.db.Snapshot();
      var now, saved := SaveCheckpoint(req, next, PageCommitted, None);
      Steps(t0, req, log0, t, Saving(next, seen), Timed(now, saved));
      log := log0 + [Timed(now, saved)];
      ok := saved.Carried?;
    }

    /** Stores a page, withdraws what it proves gone, and commits its checkpoint. */
    method CommitPage(req: Request, at: Position, page: Page, seen0: SeenPosts, ghost t0: Tables,
        ghost log0: seq<Timed>)
      returns (ok: bool, next: Position, seen: SeenPosts, ghost log: seq<Timed>)
      requires At(t0, req, log0, revisions.db.Snapshot(), Storing(at, page, seen0, 0, 0, false))
      modifies revisions.db
      ensures ok ==> next.pages == at.pages
      ensures At(t0, req, log, revisions.db.Snapshot(),
                 if !ok then Done(Unavailable)
                 else if next.before.None? then Closing(next)
                 else Continue(req, next, seen))
    {
      next := at;
      var stored, reached;
      ok, stored, reached, seen, log := StorePage(req, at, page, seen0, t0, log0);
      if !ok {
        return;
      }
      ok, next, log := WithdrawPage(req, at, page, seen, stored, reached, t0, log);
      if !ok {
        return;
      }
      ok, log := SavePage(req, next, seen, t0, log);
    }

    /** The last checkpoint tells whether the page limit cut the walk. */
    method Close(req: Request, at: Position, ghost t0: Tables, ghost log0: seq<Timed>)
      returns (outcome: Outcome, ghost log: seq<Timed>)
      requires At(t0, req, log0, revisions.db.Snapshot(), Closing(at))
      modifies revisions.db`leases
      ensures At(t0, req, log, revisions.db.Snapshot(), Done(outcome))
    {
      ghost var t := revisions.db.Snapshot();
      var partial := at.before.Some?;
      var now, saved := SaveCheckpoint(req, at, if partial then PageLimit else Mark.Completed, None);
      Steps(t0, req, log0, t, Closing(at), Timed(now, saved));
      log := log0 + [Timed(now, saved)];
      outcome := if saved.Carried? then Reported(at.pages, at.revisions, partial) else Unavailable;
    }

    /** `execute`: reads pages until the window, the channel or the page limit ends. The log of what the
        outside answered replays, step by step, to the tables it leaves and the outcome it reports. */
    method Execute(req: Request) returns (outcome: Outcome, ghost log: seq<Timed>)
      modifies revisions.db
      ensures At(old(revisions.db.Snapshot()), req, log, revisions.db.Snapshot(), Done(outcome))
    {
      var db := revisions.db;
      ghost var t0 := db.Snapshot();
      var ended, at;
      ended, at, log := Enter(req, t0);
      if ended.Some? {
        return ended.value, log;
      }
      var seen: SeenPosts := {};
      var closing := at.pages >= req.maxPages;
      while !closing
        invariant closing || at.pages < req.maxPages
        invariant At(t0, req, log, db.Snapshot(), if closing then Closing(at) else Fetching(at, seen))
        decreases !closing, req.maxPages - at.pages
      {
        var page;
        ended, page, log := FetchPage(req, at, seen, t0, log);
        if ended.Some? {
          return ended.value, log;
        }
        var ok;
        ok, at, seen, log := CommitPage(req, at.(pages := at.pages + 1), page, seen, t0, log);
        if !ok {
          return Unavailable, log;
        }
        closing := at.before.None? || at.pages >= req.maxPages;
      }
      outcome, log := Close(req, at, t0, log);
    }
  }
}
