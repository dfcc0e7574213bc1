/** How long a run can stay open. */
module DeadlineSpec {
  import opened Schema
  import opened Reaper
  import opened Machine

  /** How far the last transition of an open run may lie behind its creation: `step` a transition. */
  function Budget(state: RunState, step: nat): nat {
    match state
    case Acquiring => step
    case WaitingRecap => 2 * step
    case _ => 0
  }

  /** How many transitions can lie behind a run in this state. */
  function Stage(state: RunState): nat {
    match state
    case Accepted => 0
    case Acquiring => 1
    case WaitingRecap => 2
    case _ => 3
  }

  predicate Moved(s: State, s': State, r: Uuid) {
    r in s.t.runs && r in s'.t.runs && s'.t.runs[r].state != s.t.runs[r].state
  }

  /** The run stays, and a change of state takes it on. */
  predicate MovesOn(s: State, s': State, r: Uuid) {
    r in s.t.runs ==>
      r in s'.t.runs && (Moved(s, s', r) ==> Stage(s.t.runs[r].state) < Stage(s'.t.runs[r].state))
  }

  predicate OnwardTrace(states: seq<State>, r: Uuid) {
    forall i :: 0 <= i < |states| - 1 ==> MovesOn(states[i], states[i + 1], r)
  }

  /** How often the run changed its state in the first `i` actions. */
  function Moves(states: seq<State>, i: nat, r: Uuid): nat
    requires i < |states|
  {
    if i == 0 then 0 else Moves(states, i - 1, r) + (if Moved(states[i - 1], states[i], r) then 1 else 0)
  }

  /** Transitions follow creation and do not lie in the future. */
  predicate Clocked(runs: map<Uuid, Run>, now: Instant) {
    forall r :: r in runs && runs[r].state.Open() ==> runs[r].created <= runs[r].updated <= now
  }

  /** What the last sweep of the reaper left: no open run overdue at that moment. */
  predicate RunTimely(run: Run, lastReap: Instant, deadline: nat, gap: nat) {
    run.state.Open() ==>
      && run.updated <= run.created + Budget(run.state, deadline + gap)
      && lastReap - deadline <= run.updated
  }

  predicate Timely(runs: map<Uuid, Run>, lastReap: Instant, deadline: nat, gap: nat) {
    forall r :: r in runs ==> RunTimely(runs[r], lastReap, deadline, gap)
  }

  predicate Later(from: RunState, to: RunState) {
    (from.Accepted? && (to.Acquiring? || to.WaitingRecap?)) || (from.Acquiring? && to.WaitingRecap?)
  }

  /** An open run either keeps its state and its instant, or moves forward and takes the instant. */
  predicate TickRun(run: Run, run': Run, now: Instant) {
    run'.state.Open() ==>
      && run.state.Open() && run'.created == run.created
      && (|| (run'.state == run.state && run'.updated == run.updated)
          || (Later(run.state, run'.state) && run'.updated == now))
  }

  predicate IsNew(run: Run, now: Instant) {
    run.state.Accepted? && run.created == now && run.updated == now
  }

  predicate Ticks(runs: map<Uuid, Run>, runs': map<Uuid, Run>, now: Instant) {
    forall r :: r in runs' ==> if r in runs then TickRun(runs[r], runs'[r], now) else IsNew(runs'[r], now)
  }

  /** The same without a new run. */
  predicate TicksInPlace(runs: map<Uuid, Run>, runs': map<Uuid, Run>, now: Instant) {
    runs'.Keys == runs.Keys && Ticks(runs, runs', now)
  }

  /** The reaper runs at least every `gap` seconds, and never finds more than one batch overdue. */
  predicate Prompt(w: Settings, gap: nat, states: seq<State>, actions: seq<Action>) {
    && |states| == |actions| + 1
    && states[0].lastReap <= states[0].now
    && (forall i :: 0 <= i < |states| ==> states[i].now <= states[i].lastReap + gap)
    && (forall i :: 0 <= i < |actions| && actions[i].Reaps? ==>
         |Overdue(states[i].t.runs, states[i].now, w.deadline)| <= BATCH)
  }
}

/** Every run settles within three deadlines and reaper gaps of its creation. */
module Deadlines {
  import opened Schema
  import opened Order
  import opened Reports
  import opened Coordinator
  import opened ManifestBuilder
  import opened Intake
  import opened Schedule
  import opened Reaper
  import opened Executor
  import opened Machine
  import opened EvidenceBatches
  import opened LifecycleSpec
  import opened Lifecycle
  import opened Traces
  import opened DeadlineSpec

  lemma {:induction false} SameTicks(runs: map<Uuid, Run>, now: Instant)
    ensures TicksInPlace(runs, runs, now)
  {
  }

  lemma {:induction false} OneTicks(runs: map<Uuid, Run>, r: Uuid, run: Run, now: Instant)
    requires r in runs && TickRun(runs[r], run, now)
    ensures TicksInPlace(runs, runs[r := run], now)
  {
    forall x | x in runs
      ensures TickRun(runs[x], runs[r := run][x], now)
    {
    }
  }

  lemma {:induction false} ReportRuns(t: Tables, run: Uuid, owner: Uuid, status: OperationStatus, row: OutboxRow)
    ensures ReportRun(t, run, owner, status, row).runs == t.runs
  {
  }

  lemma {:induction false} BeginTicks(t: Tables, p: Pending, now: Instant)
    ensures TicksInPlace(t.runs, BeginAcquisition(t, p, now).0.runs, now)
  {
    SameTicks(t.runs, now);
    if p.run in t.runs && t.runs[p.run].state.Accepted? {
      ReportRuns(Move(t, p.run, Acquiring, now), p.run, p.owner, Running, PlainReport(p.owner, "acquiring"));
      OneTicks(t.runs, p.run, t.runs[p.run].(state := Acquiring, updated := now), now);
    }
  }

  lemma {:induction false} FailTicks(t: Tables, run: Uuid, owner: Uuid, failure: FailureClass, now: Instant)
    ensures TicksInPlace(t.runs, FailRun(t, run, owner, failure, now).0.runs, now)
  {
    SameTicks(t.runs, now);
    if Owns(t.runs, run, owner) && Unsettled(t.runs[run].state) {
      ReportRuns(MoveFailed(t, run, failure, now), run, owner, Failed, FailureReport(owner, failure));
      OneTicks(t.runs, run, t.runs[run].(state := RunFailed, failure := Some(failure), updated := now), now);
    }
  }

  lemma {:induction false} CompleteEmptyTicks(t: Tables, run: Uuid, owner: Uuid, now: Instant)
    ensures TicksInPlace(t.runs, CompleteEmptyRun(t, run, owner, now).0.runs, now)
  {
    SameTicks(t.runs, now);
    if Owns(t.runs, run, owner) && Unsettled(t.runs[run].state) {
      ReportRuns(Move(t, run, RunCompleted, now), run, owner, Succeeded, PlainReport(owner, "no_sources"));
      OneTicks(t.runs, run, t.runs[run].(state := RunCompleted, updated := now), now);
    }
  }

  lemma {:induction false} RecordTicks(t: Tables, run: Uuid, incomplete: bool, now: Instant)
    ensures TicksInPlace(t.runs, RecordAcquisition(t, run, incomplete).runs, now)
  {
    SameTicks(t.runs, now);
    if run in t.runs {
      OneTicks(t.runs, run, t.runs[run].(incomplete := incomplete), now);
    }
  }

  lemma {:induction false} CommitManifestTicks(t: Tables, m: CanonicalManifest, operation: Uuid, requestOk: bool,
      now: Instant)
    ensures TicksInPlace(t.runs, CommitManifest(t, m, operation, requestOk, now).0.runs, now)
  {
    SameTicks(t.runs, now);
    if m.run in t.runs && Unsettled(t.runs[m.run].state) {
      OneTicks(t.runs, m.run, t.runs[m.run].(state := WaitingRecap, updated := now), now);
    }
  }

  lemma {:induction false} CommitTicks(t: Tables, p: Pending, sources: seq<ManifestSource>, incomplete: bool, e: Event,
      now: Instant)
    requires e.Commits?
    ensures TicksInPlace(t.runs, Commit(t, p, sources, incomplete, e, now).0.runs, now)
  {
    var built := Build(e.manifest, p.owner, p.run, p.start, p.end, sources, e.windowOk, _ => e.accepted);
    FailTicks(t, p.run, p.owner, if sources == [] then ProviderDown else FailureClass.ManifestInvalid, now);
    CompleteEmptyTicks(t, p.run, p.owner, now);
    if built.Ok? {
      CommitManifestTicks(t, built.value, p.operation, e.requestOk, now);
    }
  }

  lemma {:induction false} ExecTicks(t: Tables, x: Exec, now: Instant, e: Event, sourceCount: nat)
    ensures TicksInPlace(t.runs, ExecStep(t, x, now, e, sourceCount).0.runs, now)
  {
    SameTicks(t.runs, now);
    if !e.Dies? {
      match x
      case Chosen(p) => BeginTicks(t, p, now);
      case Walking(p, queue, i, good, deferred, incomplete, walk) =>
        if i < |queue| && !walk.Done? && e.Hears? {
          WalkStepTexts(t, RequestFor(p, queue[i]), walk, now, e.answer);
        }
      case Failing(p) => FailTicks(t, p.run, p.owner, ProviderDown, now);
      case Chose(p, sources, incomplete) => RecordTicks(t, p.run, incomplete, now);
      case Recorded(p, sources, incomplete) =>
        if e.Commits? {
          CommitTicks(t, p, sources, incomplete, e, now);
        }
      case _ =>
    }
  }

  lemma {:induction false} CompletionTicks(t: Tables, f: Completion, i: bool, now: Instant)
    ensures TicksInPlace(t.runs, SettleCompletion(t, f, i, now).0.runs, now)
  {
    var t' := SettleCompletion(t, f, i, now).0;
    SameTicks(t.runs, now);
    if t' != t {
      OneTicks(t.runs, f.run, t.runs[f.run].(state := OutcomeOf(f, i), updated := now), now);
      assert t'.runs == t.runs[f.run := t.runs[f.run].(state := OutcomeOf(f, i), updated := now)];
    }
  }

  lemma {:induction false} FailureTicks(t: Tables, f: RecapFailureFact, newId: Uuid, now: Instant)
    ensures TicksInPlace(t.runs, SettleFailure(t, f, newId, now).0.runs, now)
  {
    var t' := SettleFailure(t, f, newId, now).0;
    SameTicks(t.runs, now);
    if t' != t {
      var run := t.runs[f.run].(state := RunFailed, failure := Some(RecapFailed(f.code)), updated := now);
      OneTicks(t.runs, f.run, run, now);
      assert t'.runs == t.runs[f.run := run];
    }
  }

  lemma {:induction false} HandlerTicks(s: State, a: Action)
    requires a.CompletionLooksUp? || a.CompletionVerifies? || a.CompletionSettles? || a.FailureSettles?
    ensures TicksInPlace(s.t.runs, HandlerStep(s, a).t.runs, s.now)
  {
    SameTicks(s.t.runs, s.now);
    if a.h in s.handlers {
      match (a, s.handlers[a.h])
      case (CompletionSettles(h), Verified(f, i)) => CompletionTicks(s.t, f, i, s.now);
      case (FailureSettles(h, newId), FailureChecked(f)) => FailureTicks(s.t, f, newId, s.now);
      case _ =>
    }
  }

  lemma {:induction false} AcceptRunTicks(t: Tables, c: RunRequest, now: Instant)
    ensures Ticks(t.runs, AcceptRun(t, c, now).0.runs, now)
  {
    SameTicks(t.runs, now);
    var runs' := AcceptRun(t, c, now).0.runs;
    assert runs' == t.runs || (c.run !in t.runs && runs' == t.runs[c.run := NewRun(c, now)]);
  }

  lemma {:induction false} OccurrenceTicks(t: Tables, o: Occurrence, newIds: seq<Uuid>, now: Instant)
    ensures Ticks(t.runs, AcceptOccurrence(t, o, newIds, now).0.runs, now)
  {
    SameTicks(t.runs, now);
    OccurrenceFans(t, o, newIds, now);
  }

  lemma {:induction false} OccurrenceFans(t: Tables, o: Occurrence, newIds: seq<Uuid>, now: Instant)
    ensures var runs' := AcceptOccurrence(t, o, newIds, now).0.runs;
      runs' == t.runs || FannedRuns(t.runs, runs', o, now)
  {
    if AcceptOccurrence(t, o, newIds, now).1 == Applied {
      var owners := OwnerOrder(t.subscriptions, o.due);
      FanOutAdds(t.subscriptions, t.runs, o, owners, |owners|, newIds, now);
    }
  }

  /** Only the arrivals of a run command and of an occurrence add runs. */
  lemma {:induction false} NextInPlace(w: Settings, s: State, a: Action)
    requires !a.RunArrives? && !a.OccurrenceArrives?
    ensures TicksInPlace(s.t.runs, Next(w, s, a).t.runs, s.now)
  {
    SameTicks(s.t.runs, s.now);
    if a.Executes? {
      ExecTicks(s.t, s.x, s.now, a.event, w.sourceCount);
    } else if a.Reaps? {
      ReapTicks(s.t.runs, s.now, w.deadline);
    } else if a.CompletionLooksUp? || a.CompletionVerifies? || a.CompletionSettles? || a.FailureSettles? {
      HandlerTicks(s, a);
    }
  }

  lemma {:induction false} NextTicks(w: Settings, s: State, a: Action)
    ensures Ticks(s.t.runs, Next(w, s, a).t.runs, s.now)
  {
    if a.RunArrives? {
      AcceptRunTicks(s.t, a.run, s.now);
    } else if a.OccurrenceArrives? {
      OccurrenceTicks(s.t, a.occurrence, a.newIds, s.now);
    } else {
      NextInPlace(w, s, a);
    }
  }

  lemma {:induction false} ReapTicks(runs: map<Uuid, Run>, now: Instant, deadline: nat)
    ensures TicksInPlace(runs, ReapRuns(runs, now, deadline), now)
  {
  }

  // ---------------------------------------------------------------- the bound

  /** A transition happens within the deadline and one gap of the last one. */
  lemma {:induction false} TicksAreTimely(runs: map<Uuid, Run>, runs': map<Uuid, Run>, now: Instant, lastReap: Instant,
      deadline: nat, gap: nat)
    requires Timely(runs, lastReap, deadline, gap) && Ticks(runs, runs', now)
    requires lastReap <= now <= lastReap + gap
    ensures Timely(runs', lastReap, deadline, gap)
  {
    forall r | r in runs'
      ensures RunTimely(runs'[r], lastReap, deadline, gap)
    {
      assert r in runs ==> RunTimely(runs[r], lastReap, deadline, gap) && TickRun(runs[r], runs'[r], now);
      assert r !in runs ==> IsNew(runs'[r], now);
    }
  }

  /** A sweep that finds at most one batch overdue leaves no open run overdue. */
  lemma {:induction false} ReapIsTimely(runs: map<Uuid, Run>, now: Instant, lastReap: Instant, deadline: nat, gap: nat)
    requires Timely(runs, lastReap, deadline, gap) && lastReap <= now
    requires |Overdue(runs, now, deadline)| <= BATCH
    ensures Timely(ReapRuns(runs, now, deadline), now, deadline, gap)
  {
    FirstSize(Overdue(runs, now, deadline), BATCH);
    forall r | r in runs
      ensures RunTimely(ReapRuns(runs, now, deadline)[r], now, deadline, gap)
    {
      assert RunTimely(runs[r], lastReap, deadline, gap);
      assert IsOverdue(runs[r], now, deadline) ==> Rank(runs[r].updated, r, 0, 0) in Overdue(runs, now, deadline);
    }
  }

  /** Clocks of a step: time never falls, and only the reaper marks its sweep. */
  lemma {:induction false} NextClock(w: Settings, s: State, a: Action)
    ensures Next(w, s, a).now >= s.now
    ensures Next(w, s, a).lastReap == if a.Reaps? then s.now else s.lastReap
  {
  }

  lemma {:induction false} StepIsTimely(w: Settings, s: State, a: Action, gap: nat)
    requires s.lastReap <= s.now <= s.lastReap + gap && Timely(s.t.runs, s.lastReap, w.deadline, gap)
    requires a.Reaps? ==> |Overdue(s.t.runs, s.now, w.deadline)| <= BATCH
    ensures Next(w, s, a).lastReap <= Next(w, s, a).now
    ensures Timely(Next(w, s, a).t.runs, Next(w, s, a).lastReap, w.deadline, gap)
  {
    NextClock(w, s, a);
    if a.Reaps? {
      ReapIsTimely(s.t.runs, s.now, s.lastReap, w.deadline, gap);
    } else {
      NextTicks(w, s, a);
      TicksAreTimely(s.t.runs, Next(w, s, a).t.runs, s.now, s.lastReap, w.deadline, gap);
    }
  }

  lemma {:induction false} TimelyThrough(w: Settings, issued: Issuer, states: seq<State>, actions: seq<Action>,
      gap: nat, i: nat)
    requires Service(w, issued, states, actions) && Prompt(w, gap, states, actions) && i < |states|
    ensures states[i].lastReap <= states[i].now && Timely(states[i].t.runs, states[i].lastReap, w.deadline, gap)
    decreases i
  {
    if i > 0 {
      TimelyThrough(w, issued, states, actions, gap, i - 1);
      assert StepOf(w, issued, states, actions, i - 1);
      StepIsTimely(w, states[i - 1], actions[i - 1], gap);
    }
  }

  /** Bounded lifetime: while the reaper is prompt, a run that is still open is at most three deadlines
      and gaps old. */
  lemma {:induction false} OpenRunsAreYoung(w: Settings, issued: Issuer, states: seq<State>, actions: seq<Action>,
      gap: nat, i: nat, r: Uuid)
    requires Service(w, issued, states, actions) && Prompt(w, gap, states, actions) && i < |states|
    requires r in states[i].t.runs && states[i].t.runs[r].state.Open()
    ensures states[i].now <= states[i].t.runs[r].created + 3 * (w.deadline + gap)
  {
    TimelyThrough(w, issued, states, actions, gap, i);
    assert RunTimely(states[i].t.runs[r], states[i].lastReap, w.deadline, gap);
  }

  /** Every change of state takes a run at least one stage on. */
  lemma {:induction false} MovesForward(w: Settings, issued: Issuer, states: seq<State>, actions: seq<Action>, i: nat,
      r: Uuid)
    requires Service(w, issued, states, actions) && i < |actions|
    ensures MovesOn(states[i], states[i + 1], r)
  {
    if r in states[i].t.runs {
      ServiceIsFine(w, issued, states, actions);
      RunKept(states, i, i + 1, r);
      assert StepOf(w, issued, states, actions, i);
      NextTicks(w, states[i], actions[i]);
      assert TickRun(states[i].t.runs[r], states[i + 1].t.runs[r], states[i].now);
    }
  }

  lemma {:induction false} NoMovesBefore(states: seq<State>, i: nat, r: Uuid)
    requires OnwardTrace(states, r) && i < |states| && r !in states[i].t.runs
    ensures Moves(states, i, r) == 0
    decreases i
  {
    if i > 0 {
      assert MovesOn(states[i - 1], states[i - 1 + 1], r);
      NoMovesBefore(states, i - 1, r);
    }
  }

  lemma {:induction false} MovesAreStages(states: seq<State>, i: nat, r: Uuid)
    requires OnwardTrace(states, r) && i < |states| && r in states[i].t.runs
    ensures Moves(states, i, r) <= Stage(states[i].t.runs[r].state)
    decreases i
  {
    if i > 0 {
      assert MovesOn(states[i - 1], states[i - 1 + 1], r);
      if r in states[i - 1].t.runs {
        MovesAreStages(states, i - 1, r);
      } else {
        NoMovesBefore(states, i - 1, r);
      }
    }
  }

  /** A run changes its state at most three times, and an open one has done so at most twice. */
  lemma {:induction false} MovesAreFew(w: Settings, issued: Issuer, states: seq<State>, actions: seq<Action>, i: nat,
      r: Uuid)
    requires Service(w, issued, states, actions) && i < |states| && r in states[i].t.runs
    ensures Moves(states, i, r) <= if states[i].t.runs[r].state.Open() then 2 else 3
  {
    forall j | 0 <= j < |states| - 1
      ensures MovesOn(states[j], states[j + 1], r)
    {
      MovesForward(w, issued, states, actions, j, r);
    }
    MovesAreStages(states, i, r);
  }

  lemma {:induction false} TicksAreClocked(runs: map<Uuid, Run>, runs': map<Uuid, Run>, now: Instant, now': Instant)
    requires Clocked(runs, now) && Ticks(runs, runs', now) && now <= now'
    ensures Clocked(runs', now')
  {
    forall r | r in runs' && runs'[r].state.Open()
      ensures runs'[r].created <= runs'[r].updated <= now'
    {
      assert r in runs ==> TickRun(runs[r], runs'[r], now);
      assert r !in runs ==> IsNew(runs'[r], now);
    }
  }

  lemma {:induction false} ClockedThrough(w: Settings, issued: Issuer, states: seq<State>, actions: seq<Action>, i: nat)
    requires Service(w, issued, states, actions) && i < |states|
    ensures Clocked(states[i].t.runs, states[i].now)
    decreases i
  {
    if i > 0 {
      var s, a := states[i - 1], actions[i - 1];
      ClockedThrough(w, issued, states, actions, i - 1);
      assert StepOf(w, issued, states, actions, i - 1);
      NextTicks(w, s, a);
      NextClock(w, s, a);
      TicksAreClocked(s.t.runs, Next(w, s, a).t.runs, s.now, Next(w, s, a).now);
    }
  }

  /** No run younger than the deadline is ever reaped. */
  lemma {:induction false} ReapedRunsAreOld(w: Settings, issued: Issuer, states: seq<State>, actions: seq<Action>,
      i: nat)
    requires Service(w, issued, states, actions) && i < |actions| && actions[i].Reaps?
    ensures forall r :: r in states[i].t.runs && r in states[i + 1].t.runs ==>
      || states[i + 1].t.runs[r] == states[i].t.runs[r]
      || (states[i].t.runs[r].state.Open() && states[i].now > states[i].t.runs[r].created + w.deadline)
  {
    ClockedThrough(w, issued, states, actions, i);
    assert StepOf(w, issued, states, actions, i);
  }
}
