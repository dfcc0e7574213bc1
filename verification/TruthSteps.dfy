/** A completed run read its whole window: the end-to-end promise over every execution. */
module TruthSteps {
  import opened Schema
  import opened Revisions
  import opened ManifestBuilder
  import opened Reports
  import opened Coordinator
  import opened Intake
  import opened Executor
  import opened Machine
  import opened EvidenceSpec
  import opened EvidenceTransactions
  import opened EvidenceBatches
  import opened EvidenceSteps
  import opened StoredSpec
  import opened StoredSteps
  import opened StoredLifecycle
  import opened DeadlineSpec
  import opened Deadlines
  import opened TruthSpec
  import opened Citing
  import opened Truth
  import W = Walk

  // ---------------------------------------------------------------- leases

  lemma {:induction false} CommitLeases(t: Tables, p: Pending, sources: seq<ManifestSource>, incomplete: bool, e: Event,
      now: Instant)
    requires e.Commits?
    ensures var t' := Commit(t, p, sources, incomplete, e, now).0; t'.leases == t.leases && t'.revisions == t.revisions
  {
    FailTexts(t, p.run, p.owner, if sources == [] then ProviderDown else FailureClass.ManifestInvalid, now);
    CompleteEmptyTexts(t, p.run, p.owner, now);
  }

  /** Only a walk writes leases. */
  lemma {:induction false} ExecLeases(t: Tables, x: Exec, now: Instant, e: Event, sourceCount: nat)
    requires !x.Walking?
    ensures var t' := ExecStep(t, x, now, e, sourceCount).0; t'.leases == t.leases && t'.revisions == t.revisions
  {
    if e.Dies? {
      assert ExecStep(t, x, now, e, sourceCount).0 == t;
    } else if x.Chosen? {
      BeginTexts(t, x.p, now);
    } else if x.Failing? {
      FailTexts(t, x.p.run, x.p.owner, ProviderDown, now);
    } else if x.Recorded? && e.Commits? {
      CommitLeases(t, x.p, x.sources, x.incomplete, e, now);
    }
  }

  lemma {:induction false} SettlementLeases(t: Tables, f: Completion, i: bool, now: Instant)
    ensures var t' := SettleCompletion(t, f, i, now).0; t'.leases == t.leases && t'.revisions == t.revisions
  {
    if SettleCompletion(t, f, i, now).0 != t {
      var settled := Move(t, f.run, OutcomeOf(f, i), now).(
        results := t.results[f.run := CompletedResult(t, f, i)],
        inbox := t.inbox[CompletionDecision(f) := InboxRow(f.message, Handled, None)]);
      ReportTexts(settled, f.run, f.owner, CompletionStatus(f, i), CompletionReport(f.owner, f, i));
    }
  }

  lemma {:induction false} FailureLeases(t: Tables, f: RecapFailureFact, newId: Uuid, now: Instant)
    ensures var t' := SettleFailure(t, f, newId, now).0; t'.leases == t.leases && t'.revisions == t.revisions
  {
    if SettleFailure(t, f, newId, now).0 != t {
      var settled := MoveFailed(t, f.run, RecapFailed(f.code), now).(
        results := t.results[f.run :=
          Result(newId, t.manifests[f.run].id, f.owner, RunFailed, None, None, 0, Some(RecapFailed(f.code)))],
        inbox := t.inbox[FailureDecision(f) := InboxRow(f.message, Handled, None)]);
      ReportTexts(settled, f.run, f.owner, Failed,
                  ErrorReport(f.owner, "recap", RecapFailed(f.code), Retryable(f.code)));
    }
  }

  lemma {:induction false} HandlerLeases(s: State, a: Action)
    requires a.CompletionLooksUp? || a.CompletionVerifies? || a.CompletionSettles? || a.FailureSettles?
    ensures HandlerStep(s, a).t.leases == s.t.leases && HandlerStep(s, a).t.revisions == s.t.revisions
  {
    if a.h in s.handlers {
      match (a, s.handlers[a.h])
      case (CompletionSettles(h), Verified(f, i)) => SettlementLeases(s.t, f, i, s.now);
      case (FailureSettles(h, newId), FailureChecked(f)) => FailureLeases(s.t, f, newId, s.now);
      case _ =>
    }
  }

  /** Leases and rows are as they were. */
  predicate RowsAside(t: Tables, t': Tables) {
    t'.leases == t.leases && t'.revisions == t.revisions
  }

  lemma {:induction false} ArrivalLeases(w: Settings, s: State, a: Action)
    requires a.RunArrives? || a.SubscriptionArrives? || a.OccurrenceArrives? || a.Refuses?
    ensures RowsAside(s.t, Next(w, s, a).t)
  {
    if a.RunArrives? {
      AcceptRunTexts(s.t, a.run, s.now);
    } else if a.OccurrenceArrives? {
      OccurrenceTexts(s.t, a.occurrence, a.newIds, s.now);
    } else if a.Refuses? {
      RejectTexts(s.t, a.refusal);
    } else {
      SubscriptionLeases(s.t, a.subscription, a.newSubscription, a.newChannel, s.now);
    }
  }

  lemma {:induction false} SubscriptionLeases(t: Tables, c: SubscriptionRequest, newSubscription: Uuid,
      newChannel: Uuid, now: Instant)
    ensures RowsAside(t, AcceptSubscription(t, c, newSubscription, newChannel, now).0)
  {
    if c.valid && !Decided(t, c.message, SubscriptionDecision(c)) {
      var change := SetSubscription(t.channels, t.subscriptions, newSubscription, newChannel, c.owner, c.username,
                                    c.active, now);
    }
  }

  lemma {:induction false} FactLeases(w: Settings, s: State, a: Action)
    requires a.CompletionLooksUp? || a.CompletionVerifies? || a.CompletionSettles? || a.FailureSettles?
    ensures RowsAside(s.t, Next(w, s, a).t)
  {
    HandlerLeases(s, a);
  }

  /** No other actor touches a lease, and only the body sweep touches a row. */
  lemma {:induction false} AroundLeases(w: Settings, s: State, a: Action)
    requires !a.Executes?
    ensures Next(w, s, a).t.leases == s.t.leases
    ensures !a.SweepsBodies? ==> Next(w, s, a).t.revisions == s.t.revisions
  {
    if a.RunArrives? || a.SubscriptionArrives? || a.OccurrenceArrives? || a.Refuses? {
      ArrivalLeases(w, s, a);
    } else if a.CompletionLooksUp? || a.CompletionVerifies? || a.CompletionSettles? || a.FailureSettles? {
      FactLeases(w, s, a);
    }
  }

  // ---------------------------------------------------------------- what other steps leave

  /** The run, whether it has a manifest, and the messages of it are as they were, or it has just failed
      without a manifest, or it is new. */
  predicate RunAside(t: Tables, t': Tables, r: Uuid) {
    && (r in t'.runs && r !in t.runs ==> r !in t'.manifests && t'.runs[r].state.Accepted?)
    && (r in t'.runs && r in t.runs ==>
         && (r in t.manifests ==> r in t'.manifests && t'.manifests[r].messages == t.manifests[r].messages
                                  && t'.runs[r].incomplete == t.runs[r].incomplete)
         && (r !in t.manifests ==>
              r !in t'.manifests && (t'.runs[r].state == t.runs[r].state || t'.runs[r].state.RunFailed?)))
  }

  lemma {:induction false} AsideTruth(g: Target, t: Tables, t': Tables)
    requires TruthTables(g, t) && RunAside(t, t', g.run)
    ensures TruthTables(g, t')
  {
  }

  /** While another actor moves. */
  lemma {:induction false} AroundAside(t: Tables, t': Tables, now: Instant, r: Uuid)
    requires Steady(t, t') && LeavesExecutor(t, t') && Ticks(t.runs, t'.runs, now)
    requires Evidence(t'.runs, t'.manifests, t'.results, t'.outbox)
    ensures RunAside(t, t', r)
  {
    assert EvidenceAt(t'.runs, t'.manifests, t'.results, t'.outbox, r);
    if r in t'.runs && r in t.runs && r in t.manifests {
      assert SameManifest(t.manifests[r], t'.manifests[r]);
    }
  }

  /** While the executor moves another run, or nothing but texts. */
  lemma {:induction false} OtherRunAside(t: Tables, t': Tables, run: Uuid, r: Uuid)
    requires RunStep(t, t', run) && r != run
    ensures RunAside(t, t', r)
  {
  }

  lemma {:induction false} TextsAside(t: Tables, t': Tables, r: Uuid)
    requires TextOnly(t, t')
    ensures RunAside(t, t', r)
  {
    assert r in t.manifests ==> SameManifest(t.manifests[r], t'.manifests[r]);
  }

  /** A step of the executor that leaves the run open, or fails it, without a manifest. */
  lemma {:induction false} OpenTruth(g: Target, t': Tables)
    requires g.run in t'.runs ==> g.run !in t'.manifests && !t'.runs[g.run].state.RunCompleted?
    ensures TruthTables(g, t')
  {
  }

  // ---------------------------------------------------------------- the executor

  /** What the lemmas about one step of the executor may use. */
  ghost predicate Ground(g: Target, w: Settings, issued: Issuer, s: State, a: Action) {
    && ValidSettings(w) && AllValid(g)
    && Inv(issued, s) && StoredInv(s.t) && ExecStored(s.t, s.x)
    && Describes(g, s) && Fixed(g, s, a) && TruthInv(g, s)
  }

  lemma {:induction false} HearingTruth(g: Target, w: Settings, issued: Issuer, s: State, a: Action)
    requires Ground(g, w, issued, s, a) && a.Executes? && a.event.Hears?
    requires s.x.Walking? && s.x.i < |s.x.queue| && !s.x.walk.Done?
    ensures TruthInv(g, Next(w, s, a))
  {
    var x := s.x;
    var req := RequestFor(x.p, x.queue[x.i]);
    var t' := W.Step(s.t, req, x.walk, s.now, a.event.answer).0;
    WalkStepTexts(s.t, req, x.walk, s.now, a.event.answer);
    TextsAside(s.t, t', g.run);
    AsideTruth(g, s.t, t');
    if x.p.run == g.run {
      WalkingTruth(g, s.t, x, s.now, a.event.answer);
    } else {
      WalkStored(s.t, req, x.walk, s.now, a.event.answer);
      OtherWalk(g, s.t, req, x.walk, s.now, a.event.answer);
    }
  }

  lemma {:induction false} WalkingStepTruth(g: Target, w: Settings, issued: Issuer, s: State, a: Action)
    requires Ground(g, w, issued, s, a) && a.Executes? && s.x.Walking?
    ensures TruthInv(g, Next(w, s, a))
  {
    var x := s.x;
    if a.event.Dies? {
    } else if x.i >= |x.queue| {
      ConcludeTruth(g, s.t.revisions.Keys, x);
    } else if x.walk.Done? {
      CountTruth(g, s.t.revisions.Keys, x);
    } else if a.event.Hears? {
      HearingTruth(g, w, issued, s, a);
    }
  }

  lemma {:induction false} StartedStepTruth(g: Target, w: Settings, issued: Issuer, s: State, a: Action)
    requires Ground(g, w, issued, s, a) && a.Executes? && (s.x.Started? || s.x.Ready? || s.x.Idle?)
    ensures TruthInv(g, Next(w, s, a))
  {
    var x := s.x;
    if !a.event.Dies? {
      if x.Ready? {
        ReadyTruth(g, s.t, x.p, x.incomplete, w.sourceCount);
      } else if x.Started? && a.event.Lists? && IsListing(s.t, x.p.owner, a.event.queue) {
        assert |ActiveOf(s.t.subscriptions, x.p.owner)| <= ACTIVE_LIMIT;
        ListingIsComplete(s.t, x.p.owner, a.event.queue);
      }
    }
  }

  /** The steps that move the run: beginning, failing, recording, committing. */
  lemma {:induction false} MovingStepTruth(g: Target, w: Settings, issued: Issuer, s: State, a: Action)
    requires Ground(g, w, issued, s, a) && a.Executes?
    requires s.x.Chosen? || s.x.Failing? || s.x.Chose? || s.x.Recorded?
    ensures TruthTables(g, Next(w, s, a).t)
  {
    var x := s.x;
    var t' := Next(w, s, a).t;
    AtRun(issued, s.t, x.p.run);
    if a.event.Dies? || (x.Recorded? && !a.event.Commits?) || (x.Chosen? && !x.p.state.Accepted?) {
      assert t' == s.t;
    } else {
      match x {
        case Chosen(p) => BeginStep(s.t, p, s.now);
        case Failing(p) => FailStep(s.t, p.run, p.owner, ProviderDown, s.now);
        case Chose(p, _, incomplete) => RecordStep(s.t, p.run, incomplete);
        case Recorded(p, sources, incomplete) => CommitStep(s.t, p, sources, incomplete, a.event, s.now);
      }
      if x.p.run != g.run {
        OtherRunAside(s.t, t', x.p.run, g.run);
        AsideTruth(g, s.t, t');
      } else {
        OwnMoveTruth(g, w, issued, s, a);
      }
    }
  }

  lemma {:induction false} OwnMoveTruth(g: Target, w: Settings, issued: Issuer, s: State, a: Action)
    requires Ground(g, w, issued, s, a) && a.Executes? && !a.event.Dies?
    requires s.x.Chosen? || s.x.Failing? || s.x.Chose? || s.x.Recorded?
    requires s.x.p.run == g.run
    ensures TruthTables(g, Next(w, s, a).t)
  {
    match s.x {
      case Chosen(p) => BeginKeepsOpen(g, s.t, p, s.now);
      case Failing(p) => FailedTruth(g, s.t, p.owner, ProviderDown, s.now);
      case Chose(p, _, incomplete) => OpenTruth(g, RecordAcquisition(s.t, p.run, incomplete));
      case Recorded(p, sources, incomplete) =>
        if a.event.Commits? {
          CommitTruth(g, s.t, p, sources, incomplete, a.event, s.now);
        }
    }
  }

  lemma {:induction false} BeginKeepsOpen(g: Target, t: Tables, p: Pending, now: Instant)
    requires p.run == g.run && p.run in t.runs && p.run !in t.manifests && !t.runs[p.run].state.RunCompleted?
    ensures TruthTables(g, BeginAcquisition(t, p, now).0)
  {
    if t.runs[p.run].state.Accepted? {
      ReportTexts(Move(t, p.run, Acquiring, now), p.run, p.owner, Running, PlainReport(p.owner, "acquiring"));
    }
  }

  lemma {:induction false} ExecTruth(g: Target, w: Settings, issued: Issuer, s: State, a: Action)
    requires Ground(g, w, issued, s, a) && a.Executes?
    ensures TruthInv(g, Next(w, s, a))
  {
    if s.x.Walking? {
      WalkingStepTruth(g, w, issued, s, a);
    } else if s.x.Started? || s.x.Ready? || s.x.Idle? {
      StartedStepTruth(g, w, issued, s, a);
    } else {
      MovingStepTruth(g, w, issued, s, a);
      ExecLeases(s.t, s.x, s.now, a.event, w.sourceCount);
    }
  }

  /** Whatever another actor did, the promise to the run stands. */
  lemma {:induction false} StandsAround(g: Target, s: State, s': State)
    requires TruthInv(g, s) && s'.x == s.x && s'.t.leases == s.t.leases
    requires s.t.revisions.Keys <= s'.t.revisions.Keys && RunAside(s.t, s'.t, g.run)
    requires CitableExec(g, s.t.revisions, s.x) ==> CitableExec(g, s'.t.revisions, s.x)
    ensures TruthInv(g, s')
  {
    AsideTruth(g, s.t, s'.t);
    LeasesGrow(g, s.t.leases, s.t.revisions.Keys, s'.t.revisions.Keys);
    TruthExecGrows(g, s.t.revisions.Keys, s'.t.revisions.Keys, s.x);
  }

  lemma {:induction false} RowsGrow(rows: Rows, rows': Rows)
    requires RowsStay(rows, rows')
    ensures rows.Keys <= rows'.Keys
  {
  }

  lemma {:induction false} AroundRun(w: Settings, issued: Issuer, s: State, a: Action, r: Uuid)
    requires Inv(issued, s) && Plausible(issued, s, a) && !a.Executes?
    ensures RunAside(s.t, Next(w, s, a).t, r)
  {
    NextKept(w, issued, s, a);
    NextTicks(w, s, a);
    AroundAside(s.t, Next(w, s, a).t, s.now, r);
  }

  lemma {:induction false} AroundRows(w: Settings, s: State, a: Action)
    requires ValidSettings(w) && StoredInv(s.t) && ExecStored(s.t, s.x) && !a.Executes?
    ensures Next(w, s, a).t.leases == s.t.leases && s.t.revisions.Keys <= Next(w, s, a).t.revisions.Keys
  {
    AroundLeases(w, s, a);
    NextKeepsStored(w, s, a);
    RowsGrow(s.t.revisions, Next(w, s, a).t.revisions);
  }

  lemma {:induction false} AroundCites(g: Target, w: Settings, s: State, a: Action)
    requires !a.Executes? && Fixed(g, s, a) && CitableExec(g, s.t.revisions, s.x)
    ensures CitableExec(g, Next(w, s, a).t.revisions, s.x)
  {
    if a.SweepsBodies? {
      if (s.x.Walking? || s.x.Ready?) && s.x.p.run == g.run {
        SweepCites(g, s.t.revisions, a.before, a.limit, s.now);
      }
    } else {
      AroundLeases(w, s, a);
    }
  }

  lemma {:induction false} AroundTruth(g: Target, w: Settings, issued: Issuer, s: State, a: Action)
    requires Ground(g, w, issued, s, a) && !a.Executes? && Plausible(issued, s, a)
    ensures TruthInv(g, Next(w, s, a))
  {
    AroundRun(w, issued, s, a, g.run);
    AroundRows(w, s, a);
    AroundCites(g, w, s, a);
    StandsAround(g, s, Next(w, s, a));
  }
}

module TruthfulCompletion {
  import opened Schema
  import opened Machine
  import opened EvidenceSpec
  import opened LifecycleSpec
  import opened Traces
  import opened Lifecycle
  import opened StoredLifecycle
  import opened TruthSpec
  import opened TruthSteps

  ghost predicate FixedThroughout(g: Target, states: seq<State>, actions: seq<Action>) {
    |states| == |actions| + 1 && forall i :: 0 <= i < |actions| ==> Fixed(g, states[i], actions[i])
  }

  /** The target has the window the run has at state `i`, which it had from the start. */
  lemma {:induction false} DescribesBefore(g: Target, issued: Issuer, states: seq<State>, i: nat, j: nat)
    requires FineTrace(issued, states) && SteadyTrace(states) && j <= i < |states|
    requires g.run in states[i].t.runs && states[i].t.runs[g.run].start == g.start
    requires states[i].t.runs[g.run].end == g.end
    ensures Describes(g, states[j])
  {
    if g.run in states[j].t.runs {
      RunKept(states, j, i, g.run);
    }
    assert Inv(issued, states[j]);
  }

  lemma {:induction false} BlankTruth(g: Target, s: State)
    requires Blank(s)
    ensures TruthInv(g, s)
  {
  }

  lemma {:induction false} TruthThrough(g: Target, w: Settings, issued: Issuer, states: seq<State>,
      actions: seq<Action>, i: nat, j: nat)
    requires Service(w, issued, states, actions) && ValidSettings(w) && j <= i < |states|
    requires FineTrace(issued, states) && SteadyTrace(states)
    requires AllValid(g) && FixedThroughout(g, states, actions)
    requires g.run in states[i].t.runs && states[i].t.runs[g.run].start == g.start
    requires states[i].t.runs[g.run].end == g.end
    ensures TruthInv(g, states[j])
    decreases j
  {
    if j == 0 {
      BlankTruth(g, states[0]);
    } else {
      var s, a := states[j - 1], actions[j - 1];
      TruthThrough(g, w, issued, states, actions, i, j - 1);
      DescribesBefore(g, issued, states, i, j - 1);
      StoredReachable(w, issued, states, actions, j - 1);
      assert Inv(issued, s);
      assert StepOf(w, issued, states, actions, j - 1);
      if a.Executes? {
        ExecTruth(g, w, issued, s, a);
      } else {
        AroundTruth(g, w, issued, s, a);
      }
    }
  }

  /** Truthful completion, end to end: however often attempts crashed, waited or resumed, and whatever else
      ran in between, a run that ends completed has every storable post of its window, in every channel its
      owner watched, as a message of its manifest, or there is no such post if it completed without one. */
  lemma {:induction false} CompletedRunsAreTruthful(g: Target, w: Settings, issued: Issuer, states: seq<State>,
      actions: seq<Action>, i: nat)
    requires Service(w, issued, states, actions) && ValidSettings(w) && i < |states|
    requires AllValid(g) && FixedThroughout(g, states, actions)
    requires g.run in states[i].t.runs && states[i].t.runs[g.run].start == g.start
    requires states[i].t.runs[g.run].end == g.end
    requires states[i].t.runs[g.run].state.RunCompleted?
    ensures g.run in states[i].t.manifests ==>
      forall c, j: nat :: g.Owes(c, j) ==> Message(c, g.feed(c)[j].id) in states[i].t.manifests[g.run].messages
    ensures g.run !in states[i].t.manifests ==> forall c, j: nat :: !g.Owes(c, j)
  {
    ServiceIsFine(w, issued, states, actions);
    TruthThrough(g, w, issued, states, actions, i, i);
    assert EvidenceAt(states[i].t.runs, states[i].t.manifests, states[i].t.results, states[i].t.outbox, g.run) by {
      assert Inv(issued, states[i]);
    }
  }
}
