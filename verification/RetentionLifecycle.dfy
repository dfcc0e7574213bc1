/** What a short sweep leaves, in every reachable state of the service. */
module RetentionSpec {
  import opened Schema
  import opened Revisions

  /** The text tells the window start of its run, and no source published before it. */
  predicate TextFollows(runs: map<Uuid, Run>, m: Manifest, r: Uuid) {
    m.text.Some? ==>
      && r in runs && m.text.value.of.start == runs[r].start
      && forall i :: 0 <= i < |m.text.value.of.sources| ==>
        m.text.value.of.sources[i].published >= m.text.value.of.start
  }

  predicate TextsFollow(runs: map<Uuid, Run>, manifests: Manifests) {
    forall r :: r in manifests ==> TextFollows(runs, manifests[r], r)
  }

  /** No body is older than the cutoff. */
  predicate BodiesSwept(rows: Rows, before: Instant) {
    forall k :: k in rows ==> !BodyKept(rows, k, before)
  }

  /** No text of a settled run cites a post older than the cutoff. */
  predicate TextsSwept(runs: map<Uuid, Run>, manifests: Manifests, before: Instant) {
    forall r :: r in manifests ==> !TextKept(runs, manifests, r, before)
  }

  predicate BodyKept(rows: Rows, k: RevisionKey, before: Instant) {
    k in rows && rows[k].published < before && rows[k].body.Some?
  }

  /** The text of a settled run cites a post older than the cutoff. */
  predicate TextKept(runs: map<Uuid, Run>, manifests: Manifests, r: Uuid, before: Instant) {
    && r in manifests && r in runs && runs[r].state.Settled() && manifests[r].text.Some?
    && var sources := manifests[r].text.value.of.sources;
       exists i :: 0 <= i < |sources| && sources[i].published < before
  }

  predicate SettledWithManifest(t: Tables, r: Uuid) {
    r in t.manifests && r in t.runs && t.runs[r].state.Settled()
  }
}

module RetentionLifecycle {
  import opened Schema
  import opened Order
  import opened Revisions
  import opened ManifestBuilder
  import opened ManifestProofs
  import opened Coordinator
  import opened Retention
  import opened Executor
  import opened Machine
  import opened EvidenceSpec
  import opened EvidenceBatches
  import opened EvidenceSteps
  import opened LifecycleSpec
  import opened Traces
  import opened Lifecycle
  import opened StoredSpec
  import opened StoredSteps
  import opened StoredLifecycle
  import opened DeadlineSpec
  import opened Deadlines
  import opened Drain
  import opened RetentionSpec

  /** Old texts stay or go, and no new one appears. */
  lemma {:induction false} TextsFollowOn(t: Tables, t': Tables)
    requires TextsFollow(t.runs, t.manifests) && Steady(t, t') && TextsStay(t.manifests, t'.manifests)
    requires t'.manifests.Keys == t.manifests.Keys
    ensures TextsFollow(t'.runs, t'.manifests)
  {
    forall r | r in t'.manifests
      ensures TextFollows(t'.runs, t'.manifests[r], r)
    {
      assert TextFollows(t.runs, t.manifests[r], r) && TextStays(t.manifests[r], t'.manifests[r]);
      assert r in t.runs ==> SteadyRun(t.runs[r], t'.runs[r]);
    }
  }

  /** A built text tells the window start it was built for, and its sources are those it was given. */
  lemma {:induction false} BuiltFollows(id: Uuid, p: Pending, sources: seq<ManifestSource>, windowOk: bool,
      accepts: ManifestValue -> bool)
    requires SourcesFit(p, sources)
    ensures var b := Build(id, p.owner, p.run, p.start, p.end, sources, windowOk, accepts);
      b.Ok? ==>
        && b.value.text.of.start == p.start && b.value.run == p.run
        && forall i :: 0 <= i < |b.value.text.of.sources| ==> b.value.text.of.sources[i].published >= p.start
  {
    var b := Build(id, p.owner, p.run, p.start, p.end, sources, windowOk, accepts);
    if b.Ok? {
      var contract := ContractAll(sources).value;
      SameMembers(SortByKey(contract), contract);
      forall i | 0 <= i < |b.value.text.of.sources|
        ensures b.value.text.of.sources[i].published >= p.start
      {
        assert b.value.text.of.sources[i] in contract;
        var j :| 0 <= j < |contract| && contract[j] == b.value.text.of.sources[i];
        assert contract[j] == ContractOf(sources[j]).value;
      }
    }
  }

  lemma {:induction false} NewTextFollows(t: Tables, m: CanonicalManifest, operation: Uuid, requestOk: bool,
      now: Instant)
    requires TextsFollow(t.runs, t.manifests)
    requires m.run in t.runs && m.text.of.start == t.runs[m.run].start
    requires forall i :: 0 <= i < |m.text.of.sources| ==> m.text.of.sources[i].published >= m.text.of.start
    ensures var t' := CommitManifest(t, m, operation, requestOk, now).0; TextsFollow(t'.runs, t'.manifests)
  {
    var t' := CommitManifest(t, m, operation, requestOk, now).0;
    if t' != t {
      assert t'.manifests == t.manifests[m.run := ManifestRow(m)];
      assert t'.runs == t.runs[m.run := t.runs[m.run].(state := WaitingRecap, updated := now)];
      assert TextFollows(t'.runs, ManifestRow(m), m.run);
      forall r | r in t'.manifests
        ensures TextFollows(t'.runs, t'.manifests[r], r)
      {
        assert r in t.manifests ==> TextFollows(t.runs, t.manifests[r], r);
      }
    }
  }

  lemma {:induction false} CommitFollows(t: Tables, p: Pending, sources: seq<ManifestSource>, incomplete: bool,
      e: Event, now: Instant)
    requires e.Commits? && SourcesFit(p, sources) && TextsFollow(t.runs, t.manifests)
    requires p.run in t.runs && t.runs[p.run].start == p.start
    ensures var t' := Commit(t, p, sources, incomplete, e, now).0;
      t'.manifests.Keys == t.manifests.Keys || TextsFollow(t'.runs, t'.manifests)
  {
    var built := Build(e.manifest, p.owner, p.run, p.start, p.end, sources, e.windowOk, _ => e.accepted);
    FailTexts(t, p.run, p.owner, if sources == [] then ProviderDown else FailureClass.ManifestInvalid, now);
    CompleteEmptyTexts(t, p.run, p.owner, now);
    if sources != [] && built.Ok? {
      BuiltFollows(e.manifest, p, sources, e.windowOk, _ => e.accepted);
      NewTextFollows(t, built.value, p.operation, e.requestOk, now);
    }
  }

  lemma {:induction false} ExecManifests(t: Tables, x: Exec, now: Instant, e: Event, sourceCount: nat)
    requires !x.Recorded?
    ensures ExecStep(t, x, now, e, sourceCount).0.manifests.Keys == t.manifests.Keys
  {
    if !e.Dies? {
      match x
      case Chosen(p) => BeginTexts(t, p, now);
      case Failing(p) => FailTexts(t, p.run, p.owner, ProviderDown, now);
      case Walking(p, queue, i, _, _, _, walk) =>
        if i < |queue| && !walk.Done? && e.Hears? {
          WalkStepTexts(t, RequestFor(p, queue[i]), walk, now, e.answer);
        }
      case _ =>
    }
  }

  /** While another actor moves no manifest appears. */
  lemma {:induction false} AroundManifests(t: Tables, t': Tables, now: Instant)
    requires Steady(t, t') && LeavesExecutor(t, t') && Ticks(t.runs, t'.runs, now)
    requires Evidence(t'.runs, t'.manifests, t'.results, t'.outbox)
    ensures t'.manifests.Keys == t.manifests.Keys
  {
    forall r | r in t'.manifests
      ensures r in t.manifests
    {
      assert EvidenceAt(t'.runs, t'.manifests, t'.results, t'.outbox, r);
    }
  }

  lemma {:induction false} NextFollows(w: Settings, issued: Issuer, s: State, a: Action)
    requires Inv(issued, s) && Plausible(issued, s, a) && ValidSettings(w)
    requires StoredInv(s.t) && ExecStored(s.t, s.x) && TextsFollow(s.t.runs, s.t.manifests)
    ensures TextsFollow(Next(w, s, a).t.runs, Next(w, s, a).t.manifests)
  {
    var s' := Next(w, s, a);
    NextKept(w, issued, s, a);
    NextKeepsStored(w, s, a);
    NextTicks(w, s, a);
    if a.Executes? {
      if s.x.Recorded? && a.event.Commits? {
        CommitFollows(s.t, s.x.p, s.x.sources, s.x.incomplete, a.event, s.now);
      } else if !s.x.Recorded? {
        ExecManifests(s.t, s.x, s.now, a.event, w.sourceCount);
      }
    } else {
      AroundManifests(s.t, s'.t, s.now);
    }
    if s'.t.manifests.Keys == s.t.manifests.Keys {
      TextsFollowOn(s.t, s'.t);
    }
  }

  lemma {:induction false} StepFollows(w: Settings, issued: Issuer, states: seq<State>, actions: seq<Action>, i: nat)
    requires Service(w, issued, states, actions) && ValidSettings(w) && i < |actions|
    requires TextsFollow(states[i].t.runs, states[i].t.manifests)
    ensures TextsFollow(states[i + 1].t.runs, states[i + 1].t.manifests)
  {
    Reachable(w, issued, states, actions, i);
    StoredReachable(w, issued, states, actions, i);
    assert StepOf(w, issued, states, actions, i);
    NextFollows(w, issued, states[i], actions[i]);
  }

  lemma {:induction false} TextsFollowRuns(w: Settings, issued: Issuer, states: seq<State>, actions: seq<Action>,
      i: nat)
    requires Service(w, issued, states, actions) && ValidSettings(w) && i < |states|
    ensures TextsFollow(states[i].t.runs, states[i].t.manifests)
    decreases i
  {
    if i > 0 {
      TextsFollowRuns(w, issued, states, actions, i - 1);
      StepFollows(w, issued, states, actions, i - 1);
    }
  }

  /** A short batch leaves no old body among the rows it saw. */
  lemma {:induction false} SweptBodies(rows: Rows, before: Instant, limit: nat, now: Instant)
    requires |First(ExpiredBodies(rows, before), limit)| < limit
    ensures BodiesSwept(MinimizeBodies(rows, before, limit, now), before)
  {
    forall k | k in rows && rows[k].published < before
      ensures MinimizeBodies(rows, before, limit, now)[k].body.None?
    {
      ShortBodies(rows, before, limit, now, k);
    }
  }

  /** A short batch leaves no text of a settled run with an old post. */
  lemma {:induction false} SweptTexts(runs: map<Uuid, Run>, manifests: Manifests, before: Instant, limit: nat,
      now: Instant)
    requires TextsFollow(runs, manifests) && |First(ExpiredTexts(runs, manifests, before), limit)| < limit
    ensures TextsSwept(runs, MinimizeTexts(runs, manifests, before, limit, now), before)
  {
    var manifests' := MinimizeTexts(runs, manifests, before, limit, now);
    forall r | r in manifests'
      ensures !TextKept(runs, manifests', r, before)
    {
      assert TextFollows(runs, manifests[r], r);
      if r in runs && runs[r].state.Settled() && runs[r].start < before {
        ShortTexts(runs, manifests, before, limit, now, r);
      }
    }
  }

  lemma {:induction false} BodyStaysGone(rows: Rows, rows': Rows, k: RevisionKey, before: Instant)
    requires RowsStay(rows, rows') && k in rows && !BodyKept(rows, k, before)
    ensures !BodyKept(rows', k, before)
  {
    assert RowStays(rows[k], rows'[k]);
  }

  lemma {:induction false} TextStaysGone(t: Tables, t': Tables, r: Uuid, before: Instant)
    requires Steady(t, t') && TextsStay(t.manifests, t'.manifests) && SettledWithManifest(t, r)
    requires !TextKept(t.runs, t.manifests, r, before)
    ensures !TextKept(t'.runs, t'.manifests, r, before)
  {
    assert TextStays(t.manifests[r], t'.manifests[r]) && SteadyRun(t.runs[r], t'.runs[r]);
  }

  lemma {:induction false} BodySweepStep(w: Settings, issued: Issuer, states: seq<State>, actions: seq<Action>, i: nat,
      before: Instant, limit: nat)
    requires Service(w, issued, states, actions) && i < |actions| && actions[i] == SweepsBodies(before, limit)
    requires |First(ExpiredBodies(states[i].t.revisions, before), limit)| < limit
    ensures states[i + 1].t.revisions.Keys == states[i].t.revisions.Keys
    ensures BodiesSwept(states[i + 1].t.revisions, before)
  {
    assert StepOf(w, issued, states, actions, i);
    SweptBodies(states[i].t.revisions, before, limit, states[i].now);
  }

  lemma {:induction false} RowsThrough(w: Settings, issued: Issuer, states: seq<State>, actions: seq<Action>, i: nat,
      j: nat)
    requires Service(w, issued, states, actions) && ValidSettings(w) && i <= j < |states|
    ensures RowsStay(states[i].t.revisions, states[j].t.revisions)
  {
    NothingComesBack(w, issued, states, actions, i, j);
  }

  lemma {:induction false} TextSweepStep(w: Settings, issued: Issuer, states: seq<State>, actions: seq<Action>, j: nat,
      before: Instant, limit: nat)
    requires Service(w, issued, states, actions) && j < |actions| && actions[j] == SweepsTexts(before, limit)
    ensures states[j + 1].t.runs == states[j].t.runs
    ensures states[j + 1].t.manifests ==
      MinimizeTexts(states[j].t.runs, states[j].t.manifests, before, limit, states[j].now)
  {
    assert StepOf(w, issued, states, actions, j);
  }

  lemma {:induction false} BodiesStayGone(rows0: Rows, rows: Rows, rows': Rows, before: Instant)
    requires BodiesSwept(rows, before) && RowsStay(rows, rows') && rows.Keys == rows0.Keys
    ensures forall k :: k in rows0 ==> !BodyKept(rows', k, before)
  {
    forall k | k in rows0
      ensures !BodyKept(rows', k, before)
    {
      BodyStaysGone(rows, rows', k, before);
    }
  }

  lemma {:induction false} TextsStayGone(t0: Tables, t: Tables, t': Tables, before: Instant)
    requires TextsSwept(t.runs, t.manifests, before) && t.manifests.Keys == t0.manifests.Keys && t.runs == t0.runs
    requires Steady(t, t') && TextsStay(t.manifests, t'.manifests)
    ensures forall r :: SettledWithManifest(t0, r) ==> !TextKept(t'.runs, t'.manifests, r, before)
  {
    forall r | SettledWithManifest(t0, r)
      ensures !TextKept(t'.runs, t'.manifests, r, before)
    {
      TextStaysGone(t, t', r, before);
    }
  }

  /** A body sweep that was short, and any later state: the rows it saw hold no old body, whatever ran since. */
  lemma {:induction false} ShortBodySweep(w: Settings, issued: Issuer, states: seq<State>, actions: seq<Action>, i: nat,
      m: nat, before: Instant, limit: nat)
    requires Service(w, issued, states, actions) && ValidSettings(w) && i < |actions| && i < m < |states|
    requires actions[i] == SweepsBodies(before, limit)
    requires |First(ExpiredBodies(states[i].t.revisions, before), limit)| < limit
    ensures forall k :: k in states[i].t.revisions ==> !BodyKept(states[m].t.revisions, k, before)
  {
    BodySweepStep(w, issued, states, actions, i, before, limit);
    RowsThrough(w, issued, states, actions, i + 1, m);
    BodiesStayGone(states[i].t.revisions, states[i + 1].t.revisions, states[m].t.revisions, before);
  }

  /** A text sweep that was short leaves no text of a settled run with an old post. */
  lemma {:induction false} ShortTextSweep(w: Settings, issued: Issuer, states: seq<State>, actions: seq<Action>, j: nat,
      before: Instant, limit: nat)
    requires Service(w, issued, states, actions) && ValidSettings(w) && j < |actions|
    requires actions[j] == SweepsTexts(before, limit)
    requires |First(ExpiredTexts(states[j].t.runs, states[j].t.manifests, before), limit)| < limit
    ensures TextsSwept(states[j + 1].t.runs, states[j + 1].t.manifests, before)
  {
    TextSweepStep(w, issued, states, actions, j, before, limit);
    TextsFollowRuns(w, issued, states, actions, j);
    SweptTexts(states[j].t.runs, states[j].t.manifests, before, limit, states[j].now);
  }

  /** And at any later state the runs settled by then still have none. */
  lemma {:induction false} SweptTextsLast(w: Settings, issued: Issuer, states: seq<State>, actions: seq<Action>, j: nat,
      m: nat, before: Instant, limit: nat)
    requires Service(w, issued, states, actions) && ValidSettings(w) && j < |actions| && j < m < |states|
    requires actions[j] == SweepsTexts(before, limit)
    requires TextsSwept(states[j + 1].t.runs, states[j + 1].t.manifests, before)
    ensures forall r :: SettledWithManifest(states[j].t, r) ==>
      !TextKept(states[m].t.runs, states[m].t.manifests, r, before)
  {
    TextSweepStep(w, issued, states, actions, j, before, limit);
    NothingComesBack(w, issued, states, actions, j + 1, m);
    ServiceIsFine(w, issued, states, actions);
    SteadyThrough(states, j + 1, m);
    TextsStayGone(states[j].t, states[j + 1].t, states[m].t, before);
  }

  /** A sweep whose two batches were short, with anything running between them and after them. Right after the
      text batch no text of a settled run cites an old post. At any later state an old body is left if and only if
      a row stored after the body batch holds it, and an old text if and only if its run settled after the text
      batch. */
  lemma {:induction false} ShortSweepLeavesNothing(w: Settings, issued: Issuer, states: seq<State>,
      actions: seq<Action>, i: nat, j: nat, m: nat, before: Instant, limit: nat)
    requires Service(w, issued, states, actions) && ValidSettings(w) && i < j < |actions| && j < m < |states|
    requires actions[i] == SweepsBodies(before, limit) && actions[j] == SweepsTexts(before, limit)
    requires |First(ExpiredBodies(states[i].t.revisions, before), limit)| < limit
    requires |First(ExpiredTexts(states[j].t.runs, states[j].t.manifests, before), limit)| < limit
    ensures TextsSwept(states[j + 1].t.runs, states[j + 1].t.manifests, before)
    ensures BodiesSwept(states[m].t.revisions, before) <==>
      forall k :: k in states[m].t.revisions && k !in states[i].t.revisions ==>
        !BodyKept(states[m].t.revisions, k, before)
    ensures TextsSwept(states[m].t.runs, states[m].t.manifests, before) <==>
      forall r :: r in states[m].t.manifests && !SettledWithManifest(states[j].t, r) ==>
        !TextKept(states[m].t.runs, states[m].t.manifests, r, before)
    ensures forall k :: k in states[i].t.revisions ==> !BodyKept(states[m].t.revisions, k, before)
    ensures forall r :: SettledWithManifest(states[j].t, r) ==>
      !TextKept(states[m].t.runs, states[m].t.manifests, r, before)
  {
    ShortBodySweep(w, issued, states, actions, i, m, before, limit);
    ShortTextSweep(w, issued, states, actions, j, before, limit);
    SweptTextsLast(w, issued, states, actions, j, m, before, limit);
  }
}
