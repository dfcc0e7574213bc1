/** The executor tick as a local state machine: every transaction, read and provider answer is a step
    of its own, so anything else may happen in between. */
module Executor {
  import opened Schema
  import opened Order
  import opened Reports
  import opened Coordinator
  import opened ManifestBuilder
  import opened Selection
  import W = Walk

  const WALK_PAGES: nat := 20
  const WALK_PAGE_SIZE: nat := 100

  /** The run row as `select_pending` read it. */
  datatype Pending = Pending(run: Uuid, owner: Uuid, operation: Uuid, start: Instant, end: Instant, state: RunState)

  datatype Listed = Listed(channel: Uuid, username: string)

  datatype Exec =
    | Idle
    | Chosen(p: Pending)
    | Started(p: Pending)
    | Walking(p: Pending, queue: seq<Listed>, i: nat, good: nat, deferred: nat, incomplete: bool, walk: W.Walk)
    | Failing(p: Pending)
    | Ready(p: Pending, incomplete: bool)
    | Chose(p: Pending, sources: seq<ManifestSource>, incomplete: bool)
    | Recorded(p: Pending, sources: seq<ManifestSource>, incomplete: bool)

  /** What the executor meets next. `Dies` is a crash, or a storage failure that ends the tick. */
  datatype Event =
    | Go
    | Lists(queue: seq<Listed>)
    | Hears(answer: W.Answer)
    | Commits(manifest: Uuid, windowOk: bool, accepted: bool, requestOk: bool)
    | Dies

  /** A channel of the run waits for the provider. */
  predicate Flooded(leases: map<LeaseKey, Checkpoint>, run: Uuid, now: Instant) {
    exists k :: k in leases && k.run == run && leases[k].mark.FloodWait? && leases[k].expires > now
  }

  function PendingRanks(t: Tables, now: Instant): set<Rank> {
    set r | r in t.runs && Unsettled(t.runs[r].state) && !Flooded(t.leases, r, now) :: Rank(t.runs[r].created, r, 0, 0)
  }

  function PendingOf(runs: map<Uuid, Run>, r: Uuid): Pending
    requires r in runs
  {
    Pending(r, runs[r].owner, runs[r].operation, runs[r].start, runs[r].end, runs[r].state)
  }

  /** `select_pending`: the oldest open run no channel of which waits. */
  function SelectPending(t: Tables, now: Instant): Exec {
    var ranks := PendingRanks(t, now);
    if ranks == {} then Idle else
      var r := Least(ranks).b;
      assert r in t.runs;
      Chosen(PendingOf(t.runs, r))
  }

  predicate IsPending(t: Tables, r: Uuid, now: Instant) {
    r in t.runs && Unsettled(t.runs[r].state) && !Flooded(t.leases, r, now)
  }

  /** The chosen run waits for acquisition, no provider wait holds it back, and no other such run is older;
      nothing is chosen exactly when there is none. */
  lemma {:induction false} OldestPendingIsChosen(t: Tables, now: Instant)
    ensures SelectPending(t, now).Idle? <==> forall r :: r in t.runs ==> !IsPending(t, r, now)
    ensures SelectPending(t, now).Chosen? ==>
      var p := SelectPending(t, now).p;
      && IsPending(t, p.run, now) && p == PendingOf(t.runs, p.run)
      && forall r :: r in t.runs && IsPending(t, r, now) && r != p.run ==>
           t.runs[p.run].created < t.runs[r].created || (t.runs[p.run].created == t.runs[r].created && p.run < r)
  {
    var ranks := PendingRanks(t, now);
    forall r | r in t.runs && IsPending(t, r, now)
      ensures Rank(t.runs[r].created, r, 0, 0) in ranks
    {
    }
  }

  /** `begin_acquisition`. */
  function BeginAcquisition(t: Tables, p: Pending, now: Instant): (Tables, bool) {
    if p.run !in t.runs || !t.runs[p.run].state.Accepted? then (t, false)
    else (ReportRun(Move(t, p.run, Acquiring, now), p.run, p.owner, Running, PlainReport(p.owner, "acquiring")), true)
  }

  function Watched(subscriptions: map<SubscriptionKey, Subscription>, owner: Uuid): set<Uuid> {
    set k | k in subscriptions && k.owner == owner && subscriptions[k].enabled :: k.channel
  }

  /** `subscribed_channels`: at most twenty of the owner's active channels with their usernames. */
  predicate IsListing(t: Tables, owner: Uuid, queue: seq<Listed>) {
    var watched := Watched(t.subscriptions, owner);
    && |queue| == Min(20, |watched|)
    && (forall i :: 0 <= i < |queue| ==>
         && queue[i].channel in watched && queue[i].channel in t.channels
         && queue[i].username == t.channels[queue[i].channel].username)
    && (forall i, j :: 0 <= i < j < |queue| ==> queue[i].channel != queue[j].channel)
  }

  function RequestFor(p: Pending, c: Listed): W.Request {
    W.Request(p.run, c.channel, c.username, p.start, p.end, WALK_PAGES, WALK_PAGE_SIZE)
  }

  /** Counts one channel and moves to the next. */
  function Count(x: Exec): Exec
    requires x.Walking? && x.walk.Done?
  {
    match x.walk.outcome
    case Reported(_, _, partial) =>
      x.(i := x.i + 1, good := x.good + 1, incomplete := x.incomplete || partial, walk := W.Entering)
    case Deferred => x.(i := x.i + 1, deferred := x.deferred + 1, walk := W.Entering)
    case Unavailable => x.(i := x.i + 1, incomplete := true, walk := W.Entering)
  }

  /** What the finished acquisition means for the tick. */
  function Conclude(x: Exec): Exec
    requires x.Walking?
  {
    if x.deferred > 0 then Idle
    else if x.queue != [] && x.good == 0 then Failing(x.p)
    else Ready(x.p, x.incomplete)
  }

  function ViewOf(t: Tables, p: Pending): View {
    View(t.revisions, t.channels, Watched(t.subscriptions, p.owner), p.start, p.end)
  }

  function RecordAcquisition(t: Tables, run: Uuid, incomplete: bool): Tables {
    if run in t.runs then t.(runs := t.runs[run := t.runs[run].(incomplete := incomplete)]) else t
  }

  /** `commit`: without sources the run ends at once; otherwise it waits for a recap of the manifest built from them. */
  function Commit(t: Tables, p: Pending, sources: seq<ManifestSource>, incomplete: bool, e: Event,
      now: Instant): (Tables, Reply)
    requires e.Commits?
  {
    if sources == [] then
      if incomplete then FailRun(t, p.run, p.owner, ProviderDown, now) else CompleteEmptyRun(t, p.run, p.owner, now)
    else
      var built := Build(e.manifest, p.owner, p.run, p.start, p.end, sources, e.windowOk, _ => e.accepted);
      if built.Err? then FailRun(t, p.run, p.owner, FailureClass.ManifestInvalid, now)
      else CommitManifest(t, built.value, p.operation, e.requestOk, now)
  }

  /** One step of the executor; an event that does not fit leaves everything as it is. */
  ghost function ExecStep(t: Tables, x: Exec, now: Instant, e: Event, sourceCount: nat): (Tables, Exec) {
    if e.Dies? then (t, Idle) else
    match x
    case Idle => (t, SelectPending(t, now))
    case Chosen(p) =>
      if !p.state.Accepted? then (t, Started(p))
      else var (t', began) := BeginAcquisition(t, p, now); (t', if began then Started(p) else Idle)
    case Started(p) =>
      (t, if e.Lists? && IsListing(t, p.owner, e.queue) then Walking(p, e.queue, 0, 0, 0, false, W.Entering) else x)
    case Walking(p, queue, i, good, deferred, incomplete, walk) =>
      if i >= |queue| then (t, Conclude(x))
      else if walk.Done? then (t, Count(x))
      else if !e.Hears? then (t, x)
      else var (t', walk') := W.Step(t, RequestFor(p, queue[i]), walk, now, e.answer); (t', x.(walk := walk'))
    case Failing(p) => (FailRun(t, p.run, p.owner, ProviderDown, now).0, Idle)
    case Ready(p, incomplete) =>
      var s := SelectSources(ViewOf(t, p), sourceCount);
      (t, Chose(p, s.sources, incomplete || s.eligible > |s.sources|))
    case Chose(p, sources, incomplete) => (RecordAcquisition(t, p.run, incomplete), Recorded(p, sources, incomplete))
    case Recorded(p, sources, incomplete) =>
      if e.Commits? then (Commit(t, p, sources, incomplete, e, now).0, Idle) else (t, x)
  }
}

/** The whole service: intake, one executor, Knowledge facts in flight, the reaper and the sweeps,
    interleaved one transaction or read at a time. */
module Machine {
  import opened Schema
  import opened Coordinator
  import opened Intake
  import opened Schedule
  import opened Retention
  import opened Reaper
  import opened Executor

  /** A Knowledge fact between its reads and its transaction, with what it has read. */
  datatype Handling =
    | FlagRead(fact: Completion, incomplete: bool)
    | LookedUp(fact: Completion, incomplete: bool)
    | Verified(fact: Completion, incomplete: bool)
    | FailureChecked(failure: RecapFailureFact)

  datatype State = State(
    t: Tables,
    x: Exec,
    handlers: map<nat, Handling>,
    refusals: set<Rejection>,
    now: Instant,
    lastReap: Instant)

  /** Settings: the source cap and the run deadline. */
  datatype Settings = Settings(sourceCount: nat, deadline: nat)

  predicate ValidSettings(w: Settings) { 1 <= w.sourceCount <= 100 }

  datatype Action =
    | Executes(event: Event)
    | RunArrives(run: RunRequest)
    | SubscriptionArrives(subscription: SubscriptionRequest, newSubscription: Uuid, newChannel: Uuid)
    | OccurrenceArrives(occurrence: Occurrence, newIds: seq<Uuid>)
    | UnreadableArrives(rejection: Rejection)
    | Refuses(refusal: Rejection)
    | RefusalDies(refusal: Rejection)
    | CompletionArrives(h: nat, fact: Completion)
    | CompletionLooksUp(h: nat)
    | CompletionVerifies(h: nat)
    | CompletionSettles(h: nat)
    | FailureArrives(h: nat, failure: RecapFailureFact)
    | FailureSettles(h: nat, newId: Uuid)
    | HandlerDies(h: nat)
    | Reaps
    | SweepsBodies(before: Instant, limit: nat)
    | SweepsTexts(before: Instant, limit: nat)
    | TimePasses(seconds: nat)

  function Without(handlers: map<nat, Handling>, h: nat): map<nat, Handling> {
    handlers - {h}
  }

  /** A first intake transaction, and the refusal it may leave to record. */
  function Received(s: State, t: Tables, step: IntakeStep): State {
    s.(t := t, refusals := if step.ToRefuse? then s.refusals + {step.rejection} else s.refusals)
  }

  ghost function HandlerStep(s: State, a: Action): State
    requires a.CompletionLooksUp? || a.CompletionVerifies? || a.CompletionSettles? || a.FailureSettles?
  {
    if a.h !in s.handlers then s else
    match (a, s.handlers[a.h])
    case (CompletionLooksUp(h), FlagRead(f, i)) =>
      s.(handlers := if LookUpResult(s.t, f, i).Some? then Without(s.handlers, h) else s.handlers[h := LookedUp(f, i)])
    case (CompletionVerifies(h), LookedUp(f, i)) =>
      s.(handlers := if VerifiesCompletion(s.t, f) then s.handlers[h := Verified(f, i)] else Without(s.handlers, h))
    case (CompletionSettles(h), Verified(f, i)) =>
      s.(t := SettleCompletion(s.t, f, i, s.now).0, handlers := Without(s.handlers, h))
    case (FailureSettles(h, newId), FailureChecked(f)) =>
      s.(t := SettleFailure(s.t, f, newId, s.now).0, handlers := Without(s.handlers, h))
    case _ => s
  }

  ghost function Next(w: Settings, s: State, a: Action): State {
    match a
    case Executes(e) =>
      var (t', x') := ExecStep(s.t, s.x, s.now, e, w.sourceCount); s.(t := t', x := x')
    case RunArrives(c) =>
      var (t', step) := AcceptRun(s.t, c, s.now); Received(s, t', step)
    case SubscriptionArrives(c, newSubscription, newChannel) =>
      var (t', step) := AcceptSubscription(s.t, c, newSubscription, newChannel, s.now); Received(s, t', step)
    case OccurrenceArrives(o, newIds) => s.(t := AcceptOccurrence(s.t, o, newIds, s.now).0)
    case UnreadableArrives(r) => s.(refusals := s.refusals + {r})
    case Refuses(r) => if r in s.refusals then s.(t := Reject(s.t, r).0, refusals := s.refusals - {r}) else s
    case RefusalDies(r) => s.(refusals := s.refusals - {r})
    case CompletionArrives(h, f) =>
      if h in s.handlers then s
      else s.(handlers := s.handlers[h := FlagRead(f, ReadIncomplete(s.t, f.run, f.owner))])
    case FailureArrives(h, f) =>
      if h in s.handlers || CheckFailure(s.t, f).Some? then s else s.(handlers := s.handlers[h := FailureChecked(f)])
    case HandlerDies(h) => s.(handlers := Without(s.handlers, h))
    case Reaps => s.(t := ReapOnce(s.t, s.now, w.deadline), lastReap := s.now)
    case SweepsBodies(before, limit) =>
      s.(t := s.t.(revisions := MinimizeBodies(s.t.revisions, before, limit, s.now)))
    case SweepsTexts(before, limit) =>
      s.(t := s.t.(manifests := MinimizeTexts(s.t.runs, s.t.manifests, before, limit, s.now)))
    case TimePasses(d) => s.(now := s.now + d)
    case _ => HandlerStep(s, a)
  }

  /** Which decision an operation belongs to: a command names an operation of its own. */
  type Issuer = Uuid -> Decision

  /** What the rest of the platform promises. An operation belongs to one command, however often that
      command is delivered, and Knowledge answers only requests that were committed. */
  predicate Plausible(issued: Issuer, s: State, a: Action) {
    match a
    case RunArrives(c) => issued(c.operation) == RunDecision(c)
    case SubscriptionArrives(c, _, _) => issued(c.operation) == SubscriptionDecision(c)
    case OccurrenceArrives(o, _) => issued(o.operation) == OccurrenceDecision(o)
    case UnreadableArrives(r) => issued(r.operation) == r.decision && r.decision.key == InvalidCommand(r.message)
    case CompletionArrives(_, f) => RecapRequestOf(f.run) in s.t.outbox
    case _ => true
  }

  /** Action `i` is plausible and leads to the next state. */
  ghost predicate StepOf(w: Settings, issued: Issuer, states: seq<State>, actions: seq<Action>, i: nat)
    requires |states| == |actions| + 1 && i < |actions|
  {
    Plausible(issued, states[i], actions[i]) && states[i + 1] == Next(w, states[i], actions[i])
  }

  /** A run of the service: every state follows from the one before by a plausible action. */
  ghost predicate Execution(w: Settings, issued: Issuer, states: seq<State>, actions: seq<Action>) {
    && |states| == |actions| + 1
    && forall i :: 0 <= i < |actions| ==> StepOf(w, issued, states, actions, i)
  }
}
