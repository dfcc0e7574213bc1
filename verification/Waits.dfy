/** What a checkpoint tells the next attempt, and how long a provider wait holds a run back. */
module WaitSpec {
  import opened Schema
  import opened Walk

  /** How long a flood answer makes the run wait: its seconds, at least one and at most an hour. */
  function Hold(seconds: nat): nat {
    if seconds == 0 then 1 else Min(seconds, 3_600)
  }

  /** Another channel of the run waits. */
  predicate OtherHolds(leases: map<LeaseKey, Checkpoint>, lease: LeaseKey, now: Instant) {
    exists k :: k in leases && k.run == lease.run && k != lease && leases[k].mark.FloodWait? && leases[k].expires > now
  }

  /** What the checkpoint of a page, of an end and of a break is marked as. */
  function MarkOf(w: Walk): Mark {
    match w
    case Closing(at) => if at.before.None? then Mark.Completed else PageLimit
    case Breaking(_) => ProviderUnavailable
    case _ => PageCommitted
  }

  predicate SameBut(leases: map<LeaseKey, Checkpoint>, leases': map<LeaseKey, Checkpoint>, lease: LeaseKey) {
    && (forall k :: k in leases && k != lease ==> k in leases' && leases'[k] == leases[k])
    && (forall k :: k in leases' && k != lease ==> k in leases)
  }

  /** The pages the attempt read: the answers that were pages. */
  function PagesRead(t: Tables, req: Request, answers: seq<Timed>): nat
    decreases |answers|
  {
    if answers == [] then 0 else
      var n := |answers| - 1;
      var w := Advance(t, req, Entering, answers[..n]).1;
      PagesRead(t, req, answers[..n]) + (if w.Fetching? && answers[n].answer.Fetched? then 1 else 0)
  }

  /** The pages of earlier attempts that an attempt at the instant counts. */
  function PagesBefore(leases: map<LeaseKey, Checkpoint>, req: Request): nat {
    if req.Lease() !in leases then 0
    else if leases[req.Lease()].mark.Completed? then req.maxPages
    else leases[req.Lease()].pages
  }

  /** The walk counts the pages the answers brought, on top of those before. */
  predicate PagesCounted(t: Tables, req: Request, answers: seq<Timed>, before: nat) {
    var w := Advance(t, req, Entering, answers).1;
    !w.Entering? && HasPages(w, before + PagesRead(t, req, answers))
  }

  predicate HasPages(w: Walk, pages: nat) {
    match w
    case Entering => true
    case Done(Reported(p, _, _)) => p == pages
    case Done(_) => true
    case _ => w.at.pages == pages
  }
}

/** What an attempt counts. */
module CountSpec {
  import opened Schema
  import opened Walk

  /** The wanted posts the attempt visited and went on from, each content of a message once. */
  function Visited(t: Tables, req: Request, answers: seq<Timed>): SeenPosts
    decreases |answers|
  {
    if answers == [] then {} else
      var n := |answers| - 1;
      var w := Advance(t, req, Entering, answers[..n]).1;
      var w' := Advance(t, req, Entering, answers).1;
      Visited(t, req, answers[..n])
      + (if w.Storing? && w.next < |w.page.posts| && w'.Storing? && req.Wanted(w.page.posts[w.next])
         then {(w.page.posts[w.next].id, Sha256(w.page.posts[w.next].body))} else {})
  }

  /** The revisions that earlier attempts counted. */
  function CountedBefore(leases: map<LeaseKey, Checkpoint>, req: Request): nat {
    if req.Lease() in leases then leases[req.Lease()].revisions else 0
  }

  /** The walk knows what was visited, and has counted it on top of what was counted before. */
  predicate Counted(w: Walk, before: nat, visited: SeenPosts) {
    match w
    case Entering => visited == {}
    case Resolving(at) => visited == {} && at.revisions == before
    case Fetching(at, seen) => seen == visited && at.revisions == before + |visited|
    case Storing(at, _, seen, _, stored, _) => seen == visited && at.revisions + stored == before + |visited|
    case Withdrawing(at, _, seen, stored, _) => seen == visited && at.revisions + stored == before + |visited|
    case Saving(at, seen) => seen == visited && at.revisions == before + |visited|
    case Done(Reported(_, revisions, _)) => revisions == before + |visited|
    case Done(_) => true
    case _ => w.at.revisions == before + |visited|
  }
}

module Counts {
  import opened Schema
  import opened Walk
  import opened CountSpec

  lemma {:induction false} VisitCounts(t: Tables, req: Request, w: Walk, a: Answer, before: nat, visited: SeenPosts)
    requires w.Storing? && w.next < |w.page.posts| && Counted(w, before, visited)
    ensures var w' := StorePost(t, req, w, a).1;
      var p := w.page.posts[w.next];
      if w'.Storing? && req.Wanted(p) then Counted(w', before, visited + {(p.id, Sha256(p.body))})
      else Counted(w', before, visited)
  {
    var p := w.page.posts[w.next];
    if (p.id, Sha256(p.body)) in visited {
      assert visited + {(p.id, Sha256(p.body))} == visited;
    }
  }

  lemma {:induction false} StepCounts(t: Tables, req: Request, w: Walk, now: Instant, a: Answer, before: nat,
      visited: SeenPosts)
    requires Counted(w, before, visited) && !w.Entering? && !(w.Storing? && w.next < |w.page.posts|)
    ensures Counted(Step(t, req, w, now, a).1, before, visited)
  {
  }

  lemma {:induction false} EntryCounts(t: Tables, req: Request, now: Instant, a: Answer)
    ensures Counted(Step(t, req, Entering, now, a).1, CountedBefore(t.leases, req), {})
  {
  }

  lemma {:induction false} OnceMore(t: Tables, req: Request, head: seq<Timed>, last: Timed, before: nat)
    requires Counted(Advance(t, req, Entering, head).1, before, Visited(t, req, head))
    requires head == [] ==> before == CountedBefore(t.leases, req)
    requires head != [] ==> !Advance(t, req, Entering, head).1.Entering?
    ensures Counted(Advance(t, req, Entering, head + [last]).1, before, Visited(t, req, head + [last]))
  {
    assert (head + [last])[..|head|] == head;
    var (t', w) := Advance(t, req, Entering, head);
    if head == [] {
      EntryCounts(t, req, last.at, last.answer);
    } else if w.Storing? && w.next < |w.page.posts| {
      VisitCounts(t', req, w, last.answer, before, Visited(t, req, head));
    } else {
      StepCounts(t', req, w, last.at, last.answer, before, Visited(t, req, head));
    }
  }

  lemma {:induction false} Entered(t: Tables, req: Request, answers: seq<Timed>)
    requires answers != []
    ensures !Advance(t, req, Entering, answers).1.Entering?
    decreases |answers|
  {
    var n := |answers| - 1;
    if n > 0 {
      Entered(t, req, answers[..n]);
    } else {
      assert answers[..0] == [];
    }
  }

  /** However the channel changes between its pages, an attempt counts each content of a message it wants once, on top
      of what the attempts before it counted. */
  lemma {:induction false} RevisionsAreCounted(t: Tables, req: Request, answers: seq<Timed>)
    ensures Counted(Advance(t, req, Entering, answers).1, CountedBefore(t.leases, req), Visited(t, req, answers))
    decreases |answers|
  {
    if answers != [] {
      var n := |answers| - 1;
      RevisionsAreCounted(t, req, answers[..n]);
      if n > 0 {
        Entered(t, req, answers[..n]);
      }
      OnceMore(t, req, answers[..n], answers[n], CountedBefore(t.leases, req));
      assert answers[..n] + [answers[n]] == answers;
    }
  }
}

module Waits {
  import opened Schema
  import opened Walk
  import opened Executor
  import opened WaitSpec

  /** Told to wait, when it resolves the channel or fetches a page, the walk keeps its position, is deferred, and holds
      its run back for as long as the provider asked, within bounds; other runs it does not touch. */
  lemma {:induction false} WaitHoldsRun(t: Tables, req: Request, w: Walk, seconds: nat, now: Instant, newId: Uuid,
      later: Instant)
    requires w.Resolving? || w.Fetching?
    ensures var (t1, w1) := Step(t, req, w, now, Flood(seconds));
      var (t', w') := Step(t1, req, w1, now, Carried(newId));
      && t1 == t && t' == t.(leases := t'.leases) && w' == Done(Deferred)
      && (Flooded(t'.leases, req.run, later) <==>
            later < now + Hold(seconds) || OtherHolds(t.leases, req.Lease(), later))
      && (forall r :: r != req.run ==> (Flooded(t'.leases, r, later) <==> Flooded(t.leases, r, later)))
      && Resume(t'.leases, req, later) ==
           if later < now + Hold(seconds) then Done(Deferred)
           else if CanonicalUsername(req.username) then Resolving(w.at) else Done(Unavailable)
  {
    var leases, leases' := t.leases, Step(t, req, Waiting(w.at, seconds), now, Carried(newId)).0.leases;
    assert SameBut(leases, leases', req.Lease());
    assert leases'[req.Lease()].expires == now + Hold(seconds);
  }

  /** Refused, the walk fails when it has read no page, and otherwise reports what it read as a partial result. */
  lemma {:induction false} RefusalEnds(t: Tables, req: Request, w: Walk, now: Instant, newId: Uuid)
    requires w.Resolving? || w.Fetching?
    ensures var (t1, w1) := Step(t, req, w, now, Refusal);
      var (t', w') := Step(t1, req, w1, now, Carried(newId));
      && t' == t.(leases := t'.leases)
      && w' == (if w.Fetching? && w.at.pages > 0 then Done(Reported(w.at.pages, w.at.revisions, true))
                else Done(Unavailable))
      && (w'.outcome.Unavailable? ==> t' == t)
  {
  }

  /** A statement the database does not carry out ends the walk and changes nothing. */
  lemma {:induction false} FailedStatementEnds(t: Tables, req: Request, w: Walk, now: Instant)
    requires w.Saving? || w.Closing? || w.Waiting? || w.Breaking? || w.Entering?
      || (w.Withdrawing? && Proved(w.page, w.at.before).Some?)
      || (w.Storing? && w.next < |w.page.posts| && req.Wanted(w.page.posts[w.next])
          && (w.page.posts[w.next].id, Sha256(w.page.posts[w.next].body)) !in w.seen)
    ensures Step(t, req, w, now, StorageDown) == (t, Done(Unavailable))
  {
  }

  /** Any other checkpoint of a walk says how far the walk was, keeps its position for five minutes, and releases its
      run. */
  lemma {:induction false} CheckpointReleasesRun(t: Tables, req: Request, w: Walk, now: Instant, newId: Uuid,
      later: Instant)
    requires w.Saving? || w.Closing? || w.Breaking?
    ensures var t' := Step(t, req, w, now, Carried(newId)).0;
      && (Flooded(t'.leases, req.run, later) <==> OtherHolds(t.leases, req.Lease(), later))
      && (forall r :: r != req.run ==> (Flooded(t'.leases, r, later) <==> Flooded(t.leases, r, later)))
      && var c := t'.leases[req.Lease()];
         && c.before == w.at.before && c.pages == w.at.pages && c.revisions == w.at.revisions
         && c.expires == now + 300 && c.mark == MarkOf(w)
  {
    var leases, leases' := t.leases, Step(t, req, w, now, Carried(newId)).0.leases;
    assert SameBut(leases, leases', req.Lease());
    assert !leases'[req.Lease()].mark.FloodWait?;
  }

  /** The last checkpoint of a walk says what it reported: completed exactly when the result is not partial. */
  lemma {:induction false} LastCheckpointTells(t: Tables, req: Request, w: Walk, now: Instant, a: Answer)
    requires !w.Done?
    ensures var (t', w') := Step(t, req, w, now, a);
      w'.Done? && w'.outcome.Reported? ==>
        && req.Lease() in t'.leases
        && var c := t'.leases[req.Lease()];
           && c.pages == w'.outcome.pages && c.revisions == w'.outcome.revisions
           && (c.mark.Completed? <==> !w'.outcome.partial) && (c.mark.Completed? <==> w.Closing? && c.before.None?)
           && (c.mark.PageLimit? <==> w.Closing? && c.before.Some?) && (c.mark.ProviderUnavailable? <==> w.Breaking?)
  {
  }

  /** How an attempt goes on from a checkpoint that does not hold it back: after a completed walk it reads nothing and
      reports the same again, otherwise it reads on below the cursor, or closes when its pages are used up. */
  lemma {:induction false} AttemptGoesOn(t: Tables, req: Request, now: Instant)
    requires CanonicalUsername(req.username) && req.Lease() in t.leases
    requires var c := t.leases[req.Lease()]; c.mark.FloodWait? ==> c.expires <= now
    ensures var c := t.leases[req.Lease()];
      var (t1, w1) := Step(t, req, Entering, now, Silent);
      var (t2, w2) := Step(t1, req, w1, now, Resolved);
      && t2 == t
      && w2 == if c.mark.Completed? then Closing(Position(None, req.maxPages, c.revisions))
               else if c.pages < req.maxPages then Fetching(Position(c.before, c.pages, c.revisions), {})
               else Closing(Position(c.before, c.pages, c.revisions))
  {
  }

  /** The first attempt begins at the newest post, if the name is five to thirty-two small letters, digits and
      underscores, the first a letter; under any other name it fails and touches nothing. */
  lemma {:induction false} FirstAttemptBegins(t: Tables, req: Request, now: Instant)
    requires req.Lease() !in t.leases
    ensures var name := req.username;
      var first := if name == "" then ' ' else name[0];
      Step(t, req, Entering, now, Silent) ==
        (t, if |name| < 5 || |name| > 32 || !('a' <= first <= 'z')
               || exists i :: 0 <= i < |name| && !('a' <= name[i] <= 'z' || '0' <= name[i] <= '9' || name[i] == '_')
            then Done(Unavailable) else Resolving(Position(None, 0, 0)))
  {
  }

  // ---------------------------------------------------------------- pages

  lemma {:induction false} OnePage(t: Tables, req: Request, w: Walk, now: Instant, a: Answer, pages: nat)
    requires HasPages(w, pages) && !w.Entering?
    ensures var w' := Step(t, req, w, now, a).1;
      !w'.Entering? && HasPages(w', pages + (if w.Fetching? && a.Fetched? then 1 else 0))
  {
  }

  lemma {:induction false} ResumesPages(leases: map<LeaseKey, Checkpoint>, req: Request, now: Instant)
    ensures !Resume(leases, req, now).Entering? && HasPages(Resume(leases, req, now), PagesBefore(leases, req))
  {
  }

  lemma {:induction false} PagesOn(t: Tables, req: Request, head: seq<Timed>, last: Timed, before: nat)
    requires head != [] && PagesCounted(t, req, head, before)
    ensures PagesCounted(t, req, head + [last], before)
  {
    assert (head + [last])[..|head|] == head;
    var (t', w') := Advance(t, req, Entering, head);
    OnePage(t', req, w', last.at, last.answer, before + PagesRead(t, req, head));
  }

  lemma {:induction false} FirstAnswer(t: Tables, req: Request, first: Timed)
    ensures PagesCounted(t, req, [first], PagesBefore(t.leases, req))
  {
    assert [first][..0] == [];
    ResumesPages(t.leases, req, first.at);
  }

  /** An attempt counts the pages it reads on top of those of the attempts before it. */
  lemma {:induction false} PagesAreCounted(t: Tables, req: Request, answers: seq<Timed>)
    requires answers != []
    ensures PagesCounted(t, req, answers, PagesBefore(t.leases, req))
    decreases |answers|
  {
    var n := |answers| - 1;
    assert answers[..n] + [answers[n]] == answers;
    if n == 0 {
      FirstAnswer(t, req, answers[0]);
    } else {
      PagesAreCounted(t, req, answers[..n]);
      PagesOn(t, req, answers[..n], answers[n], PagesBefore(t.leases, req));
    }
  }
}
