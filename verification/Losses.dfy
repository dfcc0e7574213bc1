/** What is stored of a post, and the only ways it is lost again. */
module LossSpec {
  import opened Schema
  import opened Provider
  import opened Machine

  /** The page that answered a request below `before` proves the message gone: it marks it deleted, or the id lies
      below the cursor, and not below the whole page unless that is the last, and the page does not hold it. */
  predicate ProvesGone(page: Page, before: Option<MessageId>, id: MessageId) {
    || (exists i :: 0 <= i < |page.posts| && page.posts[i].id == id && page.posts[i].deleted)
    || (&& (before.Some? ==> id < before.value)
        && (page.next.None? || exists i :: 0 <= i < |page.posts| && page.posts[i].id <= id)
        && (forall i :: 0 <= i < |page.posts| ==> page.posts[i].id != id))
  }

  /** The action withdraws by a page that proves the message gone. */
  predicate Withdraws(s: State, a: Action, m: Message) {
    && a.Executes? && a.event.Hears? && a.event.answer.Carried?
    && s.x.Walking? && s.x.i < |s.x.queue| && s.x.walk.Withdrawing?
    && m.channel == s.x.queue[s.x.i].channel && ProvesGone(s.x.walk.page, s.x.walk.at.before, m.id)
  }

  /** A cited message is withdrawn. */
  predicate WithdrawsOne(s: State, a: Action, m: Manifest) {
    exists x :: x in m.messages && Withdraws(s, a, x)
  }

  /** What is left of a withdrawn row. */
  predicate IsWithdrawn(row: Revision, row': Revision, now: Instant) {
    row' == Revision(row.id, None, row.link, row.published, row.observed, Some(now), row'.minimized)
    && row'.minimized == if row.minimized.None? then Some(now) else row.minimized
  }

  /** What is left of a row whose body was taken. */
  predicate IsMinimized(row: Revision, row': Revision, now: Instant) {
    row.body.Some? && row' == Revision(row.id, None, row.link, row.published, row.observed, row.deleted, Some(now))
  }

  /** What is left of a manifest whose text was taken. */
  predicate IsEmptied(m: Manifest, m': Manifest, now: Instant) {
    m.text.Some?
    && m' == Manifest(m.id, m.owner, m.sha, m.sourceCount, m.channelCount, None, Some(now), m.messages)
  }
}

module Losses {
  import opened Schema
  import opened Revisions
  import opened Provider
  import opened Coordinator
  import opened ManifestBuilder
  import opened Retention
  import opened Executor
  import opened Machine
  import opened StoredSteps
  import opened TruthSteps
  import opened LossSpec
  import W = Walk

  // ---------------------------------------------------------------- storing

  /** A visited post adds at most its own row: the body, the link and the instant of the post, observed at the end of
      the window. Rows that are there stay as they are. */
  lemma {:induction false} RowTellsPost(t: Tables, req: W.Request, w: W.Walk, a: W.Answer)
    requires w.Storing? && w.next < |w.page.posts|
    ensures var rows, rows' := t.revisions, W.StorePost(t, req, w, a).0.revisions;
      var p := w.page.posts[w.next];
      && (forall k :: k in rows ==> k in rows' && rows'[k] == rows[k])
      && (forall k :: k in rows' && k !in rows ==>
           && !p.deleted && 0 < |p.body| <= 16_384 && p.published.Some? && req.start <= p.published.value < req.end
           && k == RevisionKey(req.channel, p.id, Sha256(p.body)) && a.Carried?
           && rows'[k] == Revision(a.newId, Some(p.body), TelegramLink(req.username, p.id), p.published.value, req.end,
                                   None, None))
  {
    var t' := W.StorePost(t, req, w, a).0;
    var p := w.page.posts[w.next];
    if t' != t {
      var seen := Observation(TelegramLink(req.username, p.id), p.published.value, req.end);
      assert req.Wanted(p) && a.Carried? && t' == t.(revisions := Append(t.revisions, req.Key(p), a.newId, seen).value);
      AppendTells(t.revisions, req.Key(p), a.newId, seen);
    }
  }

  lemma {:induction false} AppendTells(rows: Rows, key: RevisionKey, newId: Uuid, seen: Observation)
    requires Append(rows, key, newId, seen).Some?
    ensures var rows' := Append(rows, key, newId, seen).value;
      && (forall k :: k in rows ==> rows'[k] == rows[k])
      && (forall k :: k in rows' && k !in rows ==>
           && k == key
           && rows'[k] == Revision(newId, Some(key.digest.of), seen.link, seen.published, seen.observed, None, None))
  {
  }

  // ---------------------------------------------------------------- what a page proves

  /** What the proved range and the two lists of a page cover is what the page proves gone, whatever it holds. */
  lemma {:induction false} GoneMeans(page: Page, before: Option<MessageId>, id: MessageId)
    ensures ProvesGone(page, before, id) <==>
      W.Proved(page, before).Some? && W.AbsenceOf(page, W.Proved(page, before).value).Covers(id)
  {
    var live, deleted := W.Ids(page.posts, false), W.Ids(page.posts, true);
    assert id in live <==> exists i :: 0 <= i < |page.posts| && page.posts[i].id == id && !page.posts[i].deleted;
    assert id in deleted <==> exists i :: 0 <= i < |page.posts| && page.posts[i].id == id && page.posts[i].deleted;
    if page.next.Some? && page.posts != [] {
      assert W.Lowest(page.posts) <= id <==> exists i :: 0 <= i < |page.posts| && page.posts[i].id <= id;
    }
  }

  lemma {:induction false} AllGoneMeans(page: Page, before: Option<MessageId>)
    ensures var range := W.Proved(page, before);
      forall x: Message ::
        ProvesGone(page, before, x.id) <==> range.Some? && W.AbsenceOf(page, range.value).Covers(x.id)
  {
    forall x: Message
      ensures var range := W.Proved(page, before);
        ProvesGone(page, before, x.id) <==> range.Some? && W.AbsenceOf(page, range.value).Covers(x.id)
    {
      GoneMeans(page, before, x.id);
    }
  }

  // ---------------------------------------------------------------- rows

  lemma {:induction false} WithdrawalLeaves(t: Tables, channel: Uuid, gone: Absence, now: Instant, k: RevisionKey)
    requires k in t.revisions
    ensures var row, row' := t.revisions[k], WithdrawMissing(t, channel, gone, now).revisions[k];
      if k.channel == channel && gone.Covers(k.message) && row.deleted.None? then IsWithdrawn(row, row', now)
      else row' == row
  {
  }

  lemma {:induction false} SweepLeaves(rows: Rows, before: Instant, limit: nat, now: Instant, k: RevisionKey)
    requires k in rows
    ensures var row' := MinimizeBodies(rows, before, limit, now)[k];
      row' == rows[k] || (rows[k].published < before && IsMinimized(rows[k], row', now))
  {
  }

  /** What a step of the executor leaves of a row. */
  lemma {:induction false} ExecLeaves(s: State, e: Event, sourceCount: nat, k: RevisionKey)
    requires k in s.t.revisions
    ensures var t' := ExecStep(s.t, s.x, s.now, e, sourceCount).0;
      && k in t'.revisions
      && var row, row' := s.t.revisions[k], t'.revisions[k];
         if Withdraws(s, Executes(e), k.Of()) && row.deleted.None? then IsWithdrawn(row, row', s.now) else row' == row
  {
    if !s.x.Walking? {
      ExecLeases(s.t, s.x, s.now, e, sourceCount);
    } else if !e.Dies? && s.x.i < |s.x.queue| && !s.x.walk.Done? && e.Hears? {
      WalkLeaves(s.t, RequestFor(s.x.p, s.x.queue[s.x.i]), s.x.walk, s.now, e.answer, k);
    }
  }

  lemma {:induction false} WalkLeaves(t: Tables, req: W.Request, w: W.Walk, now: Instant, a: W.Answer, k: RevisionKey)
    requires k in t.revisions
    ensures var t' := W.Step(t, req, w, now, a).0;
      var hit := w.Withdrawing? && a.Carried? && k.channel == req.channel
        && ProvesGone(w.page, w.at.before, k.message);
      && k in t'.revisions
      && (if hit && t.revisions[k].deleted.None? then IsWithdrawn(t.revisions[k], t'.revisions[k], now)
          else t'.revisions[k] == t.revisions[k])
  {
    if w.Storing? && w.next < |w.page.posts| {
      RowTellsPost(t, req, w, a);
    } else if !w.Withdrawing? {
      OtherStepsKeepRows(t, req, w, now, a);
    } else {
      GoneMeans(w.page, w.at.before, k.message);
      if W.Proved(w.page, w.at.before).Some? {
        WithdrawalLeaves(t, req.channel, W.AbsenceOf(w.page, W.Proved(w.page, w.at.before).value), now, k);
      }
    }
  }

  lemma {:induction false} OtherStepsKeepRows(t: Tables, req: W.Request, w: W.Walk, now: Instant, a: W.Answer)
    requires !w.Withdrawing? && !(w.Storing? && w.next < |w.page.posts|)
    ensures W.Step(t, req, w, now, a).0.revisions == t.revisions
  {
  }

  /** A stored row changes in two ways only: a page that proves its message gone withdraws it, at that instant and for
      good, and a sweep of bodies takes the body of an old one. */
  lemma {:induction false} RowsChangeBy(w: Settings, s: State, a: Action, k: RevisionKey)
    requires k in s.t.revisions
    ensures k in Next(w, s, a).t.revisions
    ensures var row, row' := s.t.revisions[k], Next(w, s, a).t.revisions[k];
      if Withdraws(s, a, k.Of()) && row.deleted.None? then IsWithdrawn(row, row', s.now)
      else row' == row || (a.SweepsBodies? && row.published < a.before && IsMinimized(row, row', s.now))
  {
    if a.Executes? {
      ExecLeaves(s, a.event, w.sourceCount, k);
    } else if a.SweepsBodies? {
      SweepLeaves(s.t.revisions, a.before, a.limit, s.now, k);
    } else {
      AroundLeases(w, s, a);
    }
  }

  // ---------------------------------------------------------------- texts

  lemma {:induction false} TextsWithdrawn(t: Tables, channel: Uuid, gone: Absence, now: Instant, r: Uuid)
    requires r in t.manifests
    ensures var m, m' := t.manifests[r], WithdrawMissing(t, channel, gone, now).manifests[r];
      if m.text.Some? && exists x :: x in m.messages && x.channel == channel && gone.Covers(x.id)
      then IsEmptied(m, m', now) else m' == m
  {
  }

  lemma {:induction false} TextsSweptBy(runs: map<Uuid, Run>, manifests: Manifests, before: Instant, limit: nat,
      now: Instant, r: Uuid)
    requires r in manifests
    ensures var m' := MinimizeTexts(runs, manifests, before, limit, now)[r];
      || m' == manifests[r]
      || (r in runs && runs[r].state.Settled() && runs[r].start < before && IsEmptied(manifests[r], m', now))
  {
  }

  lemma {:induction false} CommitKeepsManifests(t: Tables, p: Pending, sources: seq<ManifestSource>, incomplete: bool,
      e: Event, now: Instant, r: Uuid)
    requires r in t.manifests && e.Commits?
    ensures var t' := Commit(t, p, sources, incomplete, e, now).0;
      r in t'.manifests && t'.manifests[r] == t.manifests[r]
  {
    var built := Build(e.manifest, p.owner, p.run, p.start, p.end, sources, e.windowOk, _ => e.accepted);
    if sources == [] || built.Err? {
      FailTexts(t, p.run, p.owner, if sources == [] then ProviderDown else FailureClass.ManifestInvalid, now);
      CompleteEmptyTexts(t, p.run, p.owner, now);
    } else {
      NewManifestKeeps(t, built.value, p.operation, e.requestOk, now, r);
    }
  }

  lemma {:induction false} NewManifestKeeps(t: Tables, m: CanonicalManifest, operation: Uuid, requestOk: bool,
      now: Instant, r: Uuid)
    requires r in t.manifests
    ensures var t' := CommitManifest(t, m, operation, requestOk, now).0;
      r in t'.manifests && t'.manifests[r] == t.manifests[r]
  {
  }

  /** A step of the executor keeps the manifests it has. */
  lemma {:induction false} MovesKeepManifests(t: Tables, x: Exec, now: Instant, e: Event, sourceCount: nat, r: Uuid)
    requires r in t.manifests && !x.Walking?
    ensures var t' := ExecStep(t, x, now, e, sourceCount).0; r in t'.manifests && t'.manifests[r] == t.manifests[r]
  {
    if !e.Dies? {
      match x
      case Chosen(p) => BeginTexts(t, p, now);
      case Failing(p) => FailTexts(t, p.run, p.owner, ProviderDown, now);
      case Recorded(p, sources, incomplete) =>
        if e.Commits? {
          CommitKeepsManifests(t, p, sources, incomplete, e, now, r);
        }
      case _ =>
    }
  }

  /** A step of a walk that proves a message of the manifest gone takes its text. */
  predicate TakesText(req: W.Request, w: W.Walk, a: W.Answer, m: Manifest) {
    && w.Withdrawing? && a.Carried?
    && exists x :: x in m.messages && x.channel == req.channel && ProvesGone(w.page, w.at.before, x.id)
  }

  lemma {:induction false} WalkStepEmpties(t: Tables, req: W.Request, w: W.Walk, now: Instant, a: W.Answer, r: Uuid)
    requires r in t.manifests
    ensures var t' := W.Step(t, req, w, now, a).0;
      && r in t'.manifests
      && (if t.manifests[r].text.Some? && TakesText(req, w, a, t.manifests[r])
          then IsEmptied(t.manifests[r], t'.manifests[r], now) else t'.manifests[r] == t.manifests[r])
  {
    if !w.Withdrawing? {
      OtherStepsKeep(t, req, w, now, a);
    } else {
      AllGoneMeans(w.page, w.at.before);
      if W.Proved(w.page, w.at.before).Some? {
        TextsWithdrawn(t, req.channel, W.AbsenceOf(w.page, W.Proved(w.page, w.at.before).value), now, r);
      }
    }
  }

  lemma {:induction false} OtherStepsKeep(t: Tables, req: W.Request, w: W.Walk, now: Instant, a: W.Answer)
    requires !w.Withdrawing?
    ensures W.Step(t, req, w, now, a).0.manifests == t.manifests
  {
  }

  lemma {:induction false} TakesIsWithdraws(s: State, e: Event, m: Manifest)
    requires s.x.Walking? && s.x.i < |s.x.queue| && e.Hears?
    ensures TakesText(RequestFor(s.x.p, s.x.queue[s.x.i]), s.x.walk, e.answer, m) <==> WithdrawsOne(s, Executes(e), m)
  {
    if x :| x in m.messages && Withdraws(s, Executes(e), x) {
      assert x.channel == RequestFor(s.x.p, s.x.queue[s.x.i]).channel;
    }
  }

  lemma {:induction false} WalkEmpties(s: State, e: Event, sourceCount: nat, r: Uuid)
    requires r in s.t.manifests && s.x.Walking?
    ensures var t' := ExecStep(s.t, s.x, s.now, e, sourceCount).0;
      && r in t'.manifests
      && (if s.t.manifests[r].text.Some? && WithdrawsOne(s, Executes(e), s.t.manifests[r])
          then IsEmptied(s.t.manifests[r], t'.manifests[r], s.now) else t'.manifests[r] == s.t.manifests[r])
  {
    if !e.Dies? && s.x.i < |s.x.queue| && !s.x.walk.Done? && e.Hears? {
      WalkStepEmpties(s.t, RequestFor(s.x.p, s.x.queue[s.x.i]), s.x.walk, s.now, e.answer, r);
      TakesIsWithdraws(s, e, s.t.manifests[r]);
    }
  }

  lemma {:induction false} AroundKeepsManifests(w: Settings, s: State, a: Action, r: Uuid)
    requires r in s.t.manifests && !a.Executes? && !a.SweepsTexts?
    ensures r in Next(w, s, a).t.manifests && Next(w, s, a).t.manifests[r] == s.t.manifests[r]
  {
    if a.RunArrives? {
      AcceptRunTexts(s.t, a.run, s.now);
    } else if a.OccurrenceArrives? {
      OccurrenceTexts(s.t, a.occurrence, a.newIds, s.now);
    } else if a.Refuses? {
      RejectTexts(s.t, a.refusal);
    } else if a.CompletionLooksUp? || a.CompletionVerifies? || a.CompletionSettles? || a.FailureSettles? {
      HandlersKeepManifests(s, a);
    }
  }

  lemma {:induction false} HandlersKeepManifests(s: State, a: Action)
    requires a.CompletionLooksUp? || a.CompletionVerifies? || a.CompletionSettles? || a.FailureSettles?
    ensures HandlerStep(s, a).t.manifests == s.t.manifests
  {
  }

  /** A manifest changes in two ways only: a page that proves one of its messages gone takes its text, and so does a
      sweep of texts once its run is settled and old. */
  lemma {:induction false} ManifestsChangeBy(w: Settings, s: State, a: Action, r: Uuid)
    requires r in s.t.manifests
    ensures r in Next(w, s, a).t.manifests
    ensures var m, m' := s.t.manifests[r], Next(w, s, a).t.manifests[r];
      if m.text.Some? && WithdrawsOne(s, a, m) then IsEmptied(m, m', s.now)
      else
        || m' == m
        || (a.SweepsTexts? && r in s.t.runs && s.t.runs[r].state.Settled() && s.t.runs[r].start < a.before
            && IsEmptied(m, m', s.now))
  {
    if a.SweepsTexts? {
      TextsSweptBy(s.t.runs, s.t.manifests, a.before, a.limit, s.now, r);
    } else if !a.Executes? {
      AroundKeepsManifests(w, s, a, r);
    } else if s.x.Walking? {
      WalkEmpties(s, a.event, w.sourceCount, r);
    } else {
      MovesKeepManifests(s.t, s.x, s.now, a.event, w.sourceCount, r);
    }
  }
}
