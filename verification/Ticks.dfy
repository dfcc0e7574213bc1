/** What one tick of the executor heard, and what becomes of it. */
module TickOutcomeSpec {
  import opened ManifestBuilder
  import opened Selection
  import opened Executor
  import opened Machine
  import W = Walk

  /** The action counts a walk of the executor that has ended. */
  predicate Counts(s: State, a: Action) {
    a.Executes? && !a.event.Dies? && s.x.Walking? && s.x.i < |s.x.queue| && s.x.walk.Done?
  }

  predicate Selects(s: State, a: Action) {
    a.Executes? && !a.event.Dies? && s.x.Ready?
  }

  /** The walk read its channel to the end of the window or of the channel. */
  predicate WasRead(o: W.Outcome) { o.Reported? && !o.partial }

  datatype Ending = Any | Reports | Waits
  {
    predicate Fits(o: W.Outcome) {
      match this
      case Any => true
      case Reports => o.Reported?
      case Waits => o.Deferred?
    }
  }

  function Numbered(outcomes: seq<W.Outcome>, ending: Ending): nat {
    if outcomes == [] then 0 else
      var n := |outcomes| - 1;
      Numbered(outcomes[..n], ending) + (if ending.Fits(outcomes[n]) then 1 else 0)
  }

  /** One of the walks does not wait and left part of its channel unread. */
  predicate AnyGap(outcomes: seq<W.Outcome>) {
    exists i :: 0 <= i < |outcomes| && !WasRead(outcomes[i]) && !outcomes[i].Deferred?
  }

  /** How many walks ended like that between two states. */
  function HowMany(states: seq<State>, actions: seq<Action>, a: nat, b: nat, ending: Ending): nat
    requires a <= b < |states| && |states| == |actions| + 1
  {
    if b == a then 0 else
      HowMany(states, actions, a, b - 1, ending)
      + (if Counts(states[b - 1], actions[b - 1]) && ending.Fits(states[b - 1].x.walk.outcome) then 1 else 0)
  }

  /** A walk that ended between the two states waits for the provider. */
  predicate SomeWaits(states: seq<State>, actions: seq<Action>, a: nat, b: nat)
    requires a <= b < |states| && |states| == |actions| + 1
  {
    exists j :: a <= j < b && Counts(states[j], actions[j]) && states[j].x.walk.outcome.Deferred?
  }

  /** A walk that ended between the two states, and does not wait, left part of its channel unread. */
  predicate SomeGap(states: seq<State>, actions: seq<Action>, a: nat, b: nat)
    requires a <= b < |states| && |states| == |actions| + 1
  {
    exists j :: a <= j < b && Counts(states[j], actions[j])
      && !WasRead(states[j].x.walk.outcome) && !states[j].x.walk.outcome.Deferred?
  }

  /** Between the two states messages were selected and one that could be cited was left out. */
  predicate SomeDropped(states: seq<State>, actions: seq<Action>, a: nat, b: nat)
    requires a <= b < |states| && |states| == |actions| + 1
  {
    exists j :: a <= j < b && Selects(states[j], actions[j]) && LeavesOut(states[j], states[j + 1])
  }

  predicate LeavesOut(s: State, s': State) {
    && (s.x.Ready? && s'.x.Chose?)
    && exists m :: m in Eligible(ViewOf(s.t, s.x.p)) && m !in MessagesOf(s'.x.sources)
  }

  /** Between the two states the messages were selected, and there were some exactly when some could be cited. */
  predicate WasSelected(states: seq<State>, actions: seq<Action>, a: nat, b: nat, sources: seq<ManifestSource>)
    requires a <= b < |states| && |states| == |actions| + 1
  {
    exists j :: a <= j < b && Selects(states[j], actions[j]) && Chooses(states[j], states[j + 1], sources)
  }

  predicate Chooses(s: State, s': State, sources: seq<ManifestSource>) {
    && s.x.Ready? && s'.x.Chose? && s'.x.sources == sources
    && (sources == [] <==> Eligible(ViewOf(s.t, s.x.p)) == {})
  }

  /** One tick of the executor, from the moment it has its listing. */
  predicate Tick(states: seq<State>, a: nat, b: nat, p: Pending, queue: seq<Listed>) {
    && a <= b < |states| && states[a].x == Walking(p, queue, 0, 0, 0, false, W.Entering)
    && forall j :: a <= j <= b ==> !states[j].x.Idle?
  }

  /** What the executor knows is what the walks and the selection of its tick came to. */
  predicate TickTells(states: seq<State>, actions: seq<Action>, a: nat, b: nat, p: Pending, queue: seq<Listed>)
    requires a <= b < |states| && |states| == |actions| + 1
  {
    match states[b].x
    case Walking(p', queue', i, good, deferred, incomplete, _) =>
      && p' == p && queue' == queue && i == HowMany(states, actions, a, b, Any) <= |queue|
      && good == HowMany(states, actions, a, b, Reports)
      && deferred == HowMany(states, actions, a, b, Waits)
      && (deferred > 0 <==> SomeWaits(states, actions, a, b))
      && (incomplete <==> SomeGap(states, actions, a, b)) && !SomeDropped(states, actions, a, b)
    case Failing(p') =>
      && p' == p && queue != [] && HowMany(states, actions, a, b, Any) == |queue| && !SomeWaits(states, actions, a, b)
      && HowMany(states, actions, a, b, Reports) == 0
    case Ready(p', incomplete) =>
      && p' == p && WalksDone(states, actions, a, b, queue) && (incomplete <==> SomeGap(states, actions, a, b))
      && !SomeDropped(states, actions, a, b)
    case Chose(p', sources, incomplete) =>
      p' == p && SelectionTold(states, actions, a, b, queue, sources, incomplete)
    case Recorded(p', sources, incomplete) =>
      p' == p && SelectionTold(states, actions, a, b, queue, sources, incomplete)
    case _ => false
  }

  /** Every channel was walked, no walk waits, and one of them reported, if there was any. */
  predicate WalksDone(states: seq<State>, actions: seq<Action>, a: nat, b: nat, queue: seq<Listed>)
    requires a <= b < |states| && |states| == |actions| + 1
  {
    && HowMany(states, actions, a, b, Any) == |queue| && !SomeWaits(states, actions, a, b)
    && (queue == [] || HowMany(states, actions, a, b, Reports) > 0)
  }

  predicate SelectionTold(states: seq<State>, actions: seq<Action>, a: nat, b: nat, queue: seq<Listed>,
      sources: seq<ManifestSource>, incomplete: bool)
    requires a <= b < |states| && |states| == |actions| + 1
  {
    && WalksDone(states, actions, a, b, queue) && WasSelected(states, actions, a, b, sources)
    && (incomplete <==> SomeGap(states, actions, a, b) || SomeDropped(states, actions, a, b))
  }
}

module TickOutcomes {
  import opened Schema
  import opened ManifestBuilder
  import opened ManifestProofs
  import opened Selection
  import opened SelectionProofs
  import opened Coordinator
  import opened Executor
  import opened Machine
  import opened EvidenceSpec
  import opened LifecycleSpec
  import opened Traces
  import opened Lifecycle
  import opened StoredSpec
  import opened StoredLifecycle
  import StoredSteps
  import opened TickOutcomeSpec

  // ---------------------------------------------------------------- one more action

  lemma {:induction false} OneMoreEnd(states: seq<State>, actions: seq<Action>, a: nat, b: nat)
    requires a <= b < |actions| && |states| == |actions| + 1
    ensures SomeWaits(states, actions, a, b + 1) <==>
      SomeWaits(states, actions, a, b) || (Counts(states[b], actions[b]) && states[b].x.walk.outcome.Deferred?)
    ensures SomeGap(states, actions, a, b + 1) <==>
      SomeGap(states, actions, a, b)
      || (Counts(states[b], actions[b]) && !WasRead(states[b].x.walk.outcome) && !states[b].x.walk.outcome.Deferred?)
    ensures SomeDropped(states, actions, a, b + 1) <==>
      SomeDropped(states, actions, a, b) || (Selects(states[b], actions[b]) && LeavesOut(states[b], states[b + 1]))
  {
  }

  lemma {:induction false} WasSelectedStays(states: seq<State>, actions: seq<Action>, a: nat, b: nat,
      sources: seq<ManifestSource>)
    requires a <= b < |actions| && |states| == |actions| + 1
    requires WasSelected(states, actions, a, b, sources)
      || (Selects(states[b], actions[b]) && Chooses(states[b], states[b + 1], sources))
    ensures WasSelected(states, actions, a, b + 1, sources)
  {
  }

  /** An action of another actor leaves what is known. */
  lemma {:induction false} TellsAround(states: seq<State>, actions: seq<Action>, a: nat, b: nat, p: Pending,
      queue: seq<Listed>)
    requires a <= b < |actions| && |states| == |actions| + 1 && states[b + 1].x == states[b].x
    requires !Counts(states[b], actions[b]) && !Selects(states[b], actions[b])
    requires TickTells(states, actions, a, b, p, queue)
    ensures TickTells(states, actions, a, b + 1, p, queue)
  {
    OneMoreEnd(states, actions, a, b);
    if states[b].x.Chose? || states[b].x.Recorded? {
      WasSelectedStays(states, actions, a, b, states[b].x.sources);
    }
  }

  /** Counting a walk, or concluding from the counters. */
  lemma {:induction false} WalkingTells(w: Settings, issued: Issuer, states: seq<State>, actions: seq<Action>, a: nat,
      b: nat, p: Pending, queue: seq<Listed>)
    requires Execution(w, issued, states, actions) && b < |actions| && Tick(states, a, b, p, queue)
    requires states[b].x.Walking? && actions[b].Executes? && !states[b + 1].x.Idle?
    requires TickTells(states, actions, a, b, p, queue)
    ensures TickTells(states, actions, a, b + 1, p, queue)
  {
    assert StepOf(w, issued, states, actions, b);
    OneMoreEnd(states, actions, a, b);
  }

  /** What the selection leaves out is what the two counts differ by. */
  lemma {:induction false} SelectionTells(s: State, s': State, sourceCount: nat)
    requires UniqueIds(s.t.revisions) && sourceCount > 0 && s.x.Ready?
    requires s'.x == ExecStep(s.t, s.x, s.now, Go, sourceCount).1
    ensures s'.x.Chose? && s'.x.p == s.x.p && Chooses(s, s', s'.x.sources)
    ensures s'.x.incomplete <==> s.x.incomplete || LeavesOut(s, s')
  {
    var v := ViewOf(s.t, s.x.p);
    SelectionRefinesNewest(v, sourceCount);
    if Eligible(v) == {} {
      assert |Eligible(v)| == 0;
    }
  }

  lemma {:induction false} ReadyTells(w: Settings, issued: Issuer, states: seq<State>, actions: seq<Action>, a: nat,
      b: nat, p: Pending, queue: seq<Listed>)
    requires Execution(w, issued, states, actions) && ValidSettings(w) && b < |actions| && a <= b
    requires states[b].x.Ready? && actions[b].Executes? && !actions[b].event.Dies? && UniqueIds(states[b].t.revisions)
    requires TickTells(states, actions, a, b, p, queue)
    ensures TickTells(states, actions, a, b + 1, p, queue)
  {
    assert StepOf(w, issued, states, actions, b);
    OneMoreEnd(states, actions, a, b);
    SelectionTells(states[b], states[b + 1], w.sourceCount);
    WasSelectedStays(states, actions, a, b, states[b + 1].x.sources);
  }

  lemma {:induction false} RecordingTells(w: Settings, issued: Issuer, states: seq<State>, actions: seq<Action>, a: nat,
      b: nat, p: Pending, queue: seq<Listed>)
    requires Execution(w, issued, states, actions) && b < |actions| && a <= b
    requires states[b].x.Chose? || states[b].x.Recorded? || states[b].x.Failing?
    requires actions[b].Executes? && !states[b + 1].x.Idle?
    requires TickTells(states, actions, a, b, p, queue)
    ensures TickTells(states, actions, a, b + 1, p, queue)
  {
    assert StepOf(w, issued, states, actions, b);
    OneMoreEnd(states, actions, a, b);
    if !states[b].x.Failing? {
      WasSelectedStays(states, actions, a, b, states[b].x.sources);
    }
  }

  lemma {:induction false} StepTells(w: Settings, issued: Issuer, states: seq<State>, actions: seq<Action>, a: nat,
      b: nat, p: Pending, queue: seq<Listed>)
    requires Service(w, issued, states, actions) && ValidSettings(w) && b < |actions|
    requires Tick(states, a, b, p, queue) && !states[b + 1].x.Idle? && TickTells(states, actions, a, b, p, queue)
    ensures TickTells(states, actions, a, b + 1, p, queue)
  {
    StoredReachable(w, issued, states, actions, b);
    assert StepOf(w, issued, states, actions, b);
    if !actions[b].Executes? {
      TellsAround(states, actions, a, b, p, queue);
    } else if states[b].x.Walking? {
      WalkingTells(w, issued, states, actions, a, b, p, queue);
    } else if states[b].x.Ready? {
      ReadyTells(w, issued, states, actions, a, b, p, queue);
    } else {
      RecordingTells(w, issued, states, actions, a, b, p, queue);
    }
  }

  /** All through a tick the counters are the numbers of walks that ended, that reported and that wait; the flag says
      whether one left part of its channel unread; and from the selection on, whether that was so or a message that
      could be cited was left out. */
  lemma {:induction false} TicksTell(w: Settings, issued: Issuer, states: seq<State>, actions: seq<Action>, a: nat,
      b: nat, p: Pending, queue: seq<Listed>)
    requires Service(w, issued, states, actions) && ValidSettings(w) && Tick(states, a, b, p, queue)
    ensures TickTells(states, actions, a, b, p, queue)
    decreases b
  {
    if b > a {
      TicksTell(w, issued, states, actions, a, b - 1, p, queue);
      StepTells(w, issued, states, actions, a, b - 1, p, queue);
    }
  }

  /** Whatever the executor knows of a run it learned in a tick that began with a listing. */
  lemma {:induction false} TickHasStart(w: Settings, issued: Issuer, states: seq<State>, actions: seq<Action>, b: nat)
    returns (a: nat, p: Pending, queue: seq<Listed>)
    requires Service(w, issued, states, actions) && b < |states|
    requires !states[b].x.Idle? && !states[b].x.Chosen? && !states[b].x.Started?
    ensures Tick(states, a, b, p, queue)
    decreases b
  {
    assert StepOf(w, issued, states, actions, b - 1);
    if states[b - 1].x.Started? {
      a, p, queue := b, states[b].x.p, states[b].x.queue;
    } else {
      a, p, queue := TickHasStart(w, issued, states, actions, b - 1);
    }
  }

  /** What concludes the walks: a walk that waits ends the tick and leaves everything for the next, walks of which none
      reported fail the run, and any other go on to the selection. */
  lemma {:induction false} WalksConclude(w: Settings, issued: Issuer, states: seq<State>, actions: seq<Action>, a: nat,
      b: nat, p: Pending, queue: seq<Listed>)
    requires Service(w, issued, states, actions) && ValidSettings(w) && Tick(states, a, b, p, queue) && b < |actions|
    requires actions[b].Executes? && !actions[b].event.Dies? && states[b].x.Walking? && states[b].x.i >= |queue|
    ensures states[b + 1].t == states[b].t
    ensures states[b + 1].x ==
      if SomeWaits(states, actions, a, b) then Idle
      else if queue != [] && HowMany(states, actions, a, b, Reports) == 0 then Failing(p)
      else Ready(p, SomeGap(states, actions, a, b))
  {
    TicksTell(w, issued, states, actions, a, b, p, queue);
    assert StepOf(w, issued, states, actions, b);
  }

  /** A chosen run begins: an accepted one moves to acquiring together with its report, unless it was settled in the
      meantime; an interrupted one goes on. */
  lemma {:induction false} ChosenBegins(w: Settings, issued: Issuer, states: seq<State>, actions: seq<Action>, b: nat)
    requires Service(w, issued, states, actions) && b < |actions| && states[b].x.Chosen?
    requires actions[b].Executes? && !actions[b].event.Dies?
    ensures var p, t, t' := states[b].x.p, states[b].t, states[b + 1].t;
      && p.run in t.runs && p.run in t'.runs
      && (if !p.state.Accepted? then t' == t && states[b + 1].x == Started(p)
          else if !t.runs[p.run].state.Accepted? then t' == t && states[b + 1].x == Idle
          else
            && states[b + 1].x == Started(p)
            && t'.runs[p.run] == t.runs[p.run].(state := Acquiring, updated := states[b].now)
            && (t.runs[p.run].trigger.OnDemand? ==> ReportOf(t.runs[p.run].operation, Running) in t'.outbox))
  {
    Reachable(w, issued, states, actions, b);
    assert StepOf(w, issued, states, actions, b);
  }

  /** When no walk reported, the run fails as unavailable, unless it was settled in the meantime. */
  lemma {:induction false} TickFails(w: Settings, issued: Issuer, states: seq<State>, actions: seq<Action>, b: nat)
    requires Service(w, issued, states, actions) && b < |actions| && states[b].x.Failing?
    requires actions[b].Executes? && !actions[b].event.Dies?
    ensures var r, t, t' := states[b].x.p.run, states[b].t, states[b + 1].t;
      && r in t.runs && r in t'.runs && states[b + 1].x == Idle
      && (if t.runs[r].state.Acquiring? then t'.runs[r].state.RunFailed? && t'.runs[r].failure == Some(ProviderDown)
          else t' == t)
  {
    Reachable(w, issued, states, actions, b);
    assert StepOf(w, issued, states, actions, b);
    StoredSteps.FailTexts(states[b].t, states[b].x.p.run, states[b].x.p.owner, ProviderDown, states[b].now);
  }

  // ---------------------------------------------------------------- the commit

  /** How a tick settles or hands on its run, by what it selected and whether the window was read completely. */
  predicate Ends(t: Tables, t': Tables, p: Pending, none: bool, gap: bool, e: Event)
    requires e.Commits? && p.run in t.runs && p.run in t'.runs
  {
    var run, run' := t.runs[p.run], t'.runs[p.run];
    if !run.state.Acquiring? then t' == t
    else if none then
      && p.run !in t'.manifests
      && (if gap then run'.state.RunFailed? && run'.failure == Some(ProviderDown) else run'.state.RunCompleted?)
    else if !e.windowOk || !e.accepted then
      p.run !in t'.manifests && run'.state.RunFailed? && run'.failure == Some(FailureClass.ManifestInvalid)
    else if !e.requestOk || ManifestIdUsed(t.manifests, e.manifest) then t' == t
    else
      && run'.state.WaitingRecap? && run'.incomplete == gap
      && p.run in t'.manifests && t'.manifests[p.run].id == e.manifest
  }

  lemma {:induction false} EmptyEnds(t: Tables, p: Pending, gap: bool, e: Event, now: Instant)
    requires e.Commits? && Holds(t.runs, t.manifests, p) && Begun(t.runs[p.run].state)
    ensures var t' := Commit(t, p, [], gap, e, now).0; p.run in t'.runs && Ends(t, t', p, true, gap, e)
  {
    StoredSteps.FailTexts(t, p.run, p.owner, ProviderDown, now);
    StoredSteps.CompleteEmptyTexts(t, p.run, p.owner, now);
  }

  /** A manifest of a selection that fits has as many sources and channels as the schema allows. */
  lemma {:induction false} BuiltFits(p: Pending, sources: seq<ManifestSource>, e: Event)
    requires e.Commits? && sources != [] && SourcesFit(p, sources)
    ensures var built := Build(e.manifest, p.owner, p.run, p.start, p.end, sources, e.windowOk, _ => e.accepted);
      && (built.Ok? <==> e.windowOk && e.accepted)
      && (built.Ok? ==> FitsSchema(built.value, e.manifest, p))
  {
    var built := Build(e.manifest, p.owner, p.run, p.start, p.end, sources, e.windowOk, _ => e.accepted);
    assert sources[0] in sources && sources[0].channel in ChannelsOf(sources);
    if built.Ok? {
      SameLength(SortByKey(ContractAll(sources).value), ContractAll(sources).value);
    }
  }

  predicate FitsSchema(m: CanonicalManifest, id: Uuid, p: Pending) {
    m.id == id && m.run == p.run && m.owner == p.owner && 1 <= m.sourceCount <= 100 && 1 <= m.channelCount <= 20
  }

  lemma {:induction false} ManifestEnds(t: Tables, p: Pending, m: CanonicalManifest, gap: bool, e: Event, now: Instant)
    requires e.Commits? && e.windowOk && e.accepted && FitsSchema(m, e.manifest, p)
    requires Holds(t.runs, t.manifests, p) && Begun(t.runs[p.run].state) && RecapRequestOf(p.run) !in t.outbox
    requires t.runs[p.run].incomplete == gap
    ensures var t' := CommitManifest(t, m, p.operation, e.requestOk, now).0;
      p.run in t'.runs && Ends(t, t', p, false, gap, e)
  {
  }

  lemma {:induction false} RefusedEnds(t: Tables, p: Pending, gap: bool, e: Event, now: Instant)
    requires e.Commits? && !(e.windowOk && e.accepted)
    requires Holds(t.runs, t.manifests, p) && Begun(t.runs[p.run].state)
    ensures var t' := FailRun(t, p.run, p.owner, FailureClass.ManifestInvalid, now).0;
      p.run in t'.runs && Ends(t, t', p, false, gap, e)
  {
    StoredSteps.FailTexts(t, p.run, p.owner, FailureClass.ManifestInvalid, now);
  }

  lemma {:induction false} SelectionEnds(t: Tables, p: Pending, sources: seq<ManifestSource>, gap: bool, e: Event,
      now: Instant)
    requires e.Commits? && Holds(t.runs, t.manifests, p) && Begun(t.runs[p.run].state)
    requires RecapRequestOf(p.run) !in t.outbox
    requires sources != [] && SourcesFit(p, sources) && t.runs[p.run].incomplete == gap
    ensures var t' := Commit(t, p, sources, gap, e, now).0; p.run in t'.runs && Ends(t, t', p, false, gap, e)
  {
    var built := Build(e.manifest, p.owner, p.run, p.start, p.end, sources, e.windowOk, _ => e.accepted);
    BuiltFits(p, sources, e);
    if built.Ok? {
      ManifestEnds(t, p, built.value, gap, e, now);
    } else {
      RefusedEnds(t, p, gap, e, now);
    }
  }

  /** The commit of a tick. If the run is still acquiring, it ends completed when nothing could be cited and every
      channel was read, failed when nothing could be cited and one was not, failed when the contract refuses, and
      otherwise waits for its recap, marked as incomplete exactly when a channel was not read completely or a message
      was left out. */
  lemma {:induction false} TickCommits(w: Settings, issued: Issuer, states: seq<State>, actions: seq<Action>, a: nat,
      e: nat, p: Pending, queue: seq<Listed>)
    requires Service(w, issued, states, actions) && ValidSettings(w) && Tick(states, a, e, p, queue) && e < |actions|
    requires states[e].x.Recorded? && actions[e].Executes? && actions[e].event.Commits?
    ensures states[e].x.p == p && p.run in states[e].t.runs && p.run in states[e + 1].t.runs
    ensures p.run !in states[e].t.manifests
    ensures Ends(states[e].t, states[e + 1].t, p, states[e].x.sources == [],
                 SomeGap(states, actions, a, e) || SomeDropped(states, actions, a, e), actions[e].event)
    ensures WasSelected(states, actions, a, e, states[e].x.sources)
  {
    TicksTell(w, issued, states, actions, a, e, p, queue);
    Reachable(w, issued, states, actions, e);
    StoredReachable(w, issued, states, actions, e);
    assert StepOf(w, issued, states, actions, e);
    var s, event := states[e], actions[e].event;
    AtFact(issued, s, p.run);
    if s.x.sources == [] {
      EmptyEnds(s.t, p, s.x.incomplete, event, s.now);
    } else {
      SelectionEnds(s.t, p, s.x.sources, s.x.incomplete, event, s.now);
    }
  }

  /** The converse of truthful completion. A run whose tick committed its manifest, and whose completion is settled, is
      completed if and only if the recap omitted nothing and the tick left nothing out: every walk read its channel
      to the end and no message that could be cited was dropped. */
  lemma {:induction false} CompletesExactlyWhenRead(w: Settings, issued: Issuer, states: seq<State>,
      actions: seq<Action>, a: nat, e: nat, p: Pending, queue: seq<Listed>, i: nat, h: nat, fact: Completion)
    requires Service(w, issued, states, actions) && ValidSettings(w) && Tick(states, a, e, p, queue)
    requires states[e].x.Recorded? && e < i < |actions| && p.run in states[e + 1].t.manifests
    requires actions[e].Executes? && actions[e].event.Commits?
    requires actions[i] == CompletionSettles(h) && Settles(states[i], h, fact) && fact.run == p.run
    ensures p.run in states[i + 1].t.runs
    ensures states[i + 1].t.runs[p.run].state ==
      if fact.omitted == 0 && !SomeGap(states, actions, a, e) && !SomeDropped(states, actions, a, e)
      then RunCompleted else RunPartial
  {
    TickCommits(w, issued, states, actions, a, e, p, queue);
    FlagStays(w, issued, states, actions, e + 1, i, p.run);
    OutcomesAgree(w, issued, states, actions, i, h, fact);
  }

  /** Once a run has its manifest its flag does not change. */
  lemma {:induction false} FlagStays(w: Settings, issued: Issuer, states: seq<State>, actions: seq<Action>, i: nat,
      j: nat, r: Uuid)
    requires Service(w, issued, states, actions) && i <= j < |states|
    requires r in states[i].t.runs && r in states[i].t.manifests
    ensures r in states[j].t.runs && states[j].t.runs[r].incomplete == states[i].t.runs[r].incomplete
  {
    ServiceIsFine(w, issued, states, actions);
    SteadyThrough(states, i, j);
    assert SteadyRun(states[i].t.runs[r], states[j].t.runs[r]);
  }
}
