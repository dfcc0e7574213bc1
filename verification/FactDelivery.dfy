/** Events delivered at least once: which action answers a delivery, and what an answer leaves behind. */
module FactDeliverySpec {
  import opened Schema
  import opened Coordinator
  import opened Machine
  import opened RedeliverySpec

  /** The answer of the delivery an action is a part of, when that action ends it. */
  ghost function FactAnswerOf(s: State, a: Action): Option<Reply> {
    match a
    case FailureArrives(h, f) => if h in s.handlers then None else CheckFailure(s.t, f)
    case CompletionLooksUp(h) =>
      if h in s.handlers && s.handlers[h].FlagRead?
      then LookUpResult(s.t, s.handlers[h].fact, s.handlers[h].incomplete) else None
    case CompletionVerifies(h) =>
      if h in s.handlers && s.handlers[h].LookedUp? && !VerifiesCompletion(s.t, s.handlers[h].fact)
      then Some(InvalidReply) else None
    case CompletionSettles(h) =>
      if h in s.handlers && s.handlers[h].Verified?
      then Some(SettleCompletion(s.t, s.handlers[h].fact, s.handlers[h].incomplete, s.now).1) else None
    case FailureSettles(h, newId) =>
      if h in s.handlers && s.handlers[h].FailureChecked?
      then Some(SettleFailure(s.t, s.handlers[h].failure, newId, s.now).1) else None
    case _ => None
  }

  /** The action moves the handler. */
  predicate Concerns(a: Action, h: nat) {
    match a
    case CompletionArrives(k, _) => k == h
    case CompletionLooksUp(k) => k == h
    case CompletionVerifies(k) => k == h
    case CompletionSettles(k) => k == h
    case FailureArrives(k, _) => k == h
    case FailureSettles(k, _) => k == h
    case HandlerDies(k) => k == h
    case _ => false
  }

  /** Handler `h` takes the completion through its steps at the moments of the delivery, and nothing else moves it. */
  predicate Attends(states: seq<State>, actions: seq<Action>, h: nat, fact: Completion, d: Moments) {
    && |states| == |actions| + 1 && d.read < d.lookup < d.verify < d.settle < |actions|
    && h !in states[d.read].handlers && actions[d.read] == CompletionArrives(h, fact)
    && actions[d.lookup] == CompletionLooksUp(h) && actions[d.verify] == CompletionVerifies(h)
    && actions[d.settle] == CompletionSettles(h)
    && forall j :: d.read < j < d.settle && j != d.lookup && j != d.verify ==> !Concerns(actions[j], h)
  }

  predicate InHand(s: State, h: nat, g: Option<Handling>) {
    if g.None? then h !in s.handlers else h in s.handlers && s.handlers[h] == g.value
  }

  function FirstOf(a: Option<Reply>, b: Option<Reply>, c: Option<Reply>): Option<Reply> {
    if a.Some? then a else if b.Some? then b else c
  }

  /** The decision that goes with a stored result. */
  function ResultDecision(r: Uuid, result: Result): Decision {
    if result.recap.Some? then Decision(RecapCompletedEvent, OfResult(result.id))
    else Decision(RecapFailedEvent, OfRun(r))
  }

  /** Every result has its decision, and a failure is decided only with its result. */
  ghost predicate ResultsDecided(t: Tables) {
    && (forall r :: r in t.results ==> ResultDecision(r, t.results[r]) in t.inbox)
    && (forall r :: r in t.results ==> (t.results[r].recap.None? <==> t.results[r].outcome.RunFailed?))
    && (forall r: Uuid :: Decision(RecapFailedEvent, OfRun(r)) in t.inbox ==>
         r in t.results && t.results[r].recap.None?)
  }

  /** No refusal speaks for a run. */
  predicate RefusalsNamed(s: State) {
    forall r :: r in s.refusals ==> !r.decision.key.OfRun?
  }

  /** What a delivery of a failure answers: its check may end it, or its transaction does. */
  ghost function FailureAnswer(states: seq<State>, f: RecapFailureFact, check: nat, settle: nat, newId: Uuid): Reply
    requires check <= settle < |states|
  {
    var checked := CheckFailure(states[check].t, f);
    if checked.Some? then checked.value else SettleFailure(states[settle].t, f, newId, states[settle].now).1
  }

  /** A failure is settled: its run failed, its result and its decision are there. */
  predicate FailureSettled(t: Tables, f: RecapFailureFact) {
    && f.run in t.manifests && t.manifests[f.run].owner == f.owner && t.manifests[f.run].sha == f.manifestSha
    && f.run in t.runs && t.runs[f.run].owner == f.owner && t.runs[f.run].state.RunFailed?
    && f.run in t.results && FailureDecision(f) in t.inbox
  }
}

module FactDelivery {
  import opened Schema
  import opened Coordinator
  import opened ManifestBuilder
  import opened Executor
  import opened Machine
  import opened EvidenceSpec
  import opened EvidenceBatches
  import opened LifecycleSpec
  import opened Traces
  import opened Lifecycle
  import opened StoredSpec
  import opened StoredSteps
  import opened DeliverySpec
  import opened Delivery
  import opened RedeliverySpec
  import opened StoredLifecycle
  import opened FactDeliverySpec

  // ---------------------------------------------------------------- the answer of a delivery

  lemma {:induction false} NotConcerned(w: Settings, s: State, a: Action, h: nat, g: Option<Handling>)
    requires InHand(s, h, g) && !Concerns(a, h)
    ensures InHand(Next(w, s, a), h, g)
  {
  }

  /** A handler that nothing moves stays as it is. */
  lemma {:induction false} HandStays(w: Settings, issued: Issuer, states: seq<State>, actions: seq<Action>, i: nat,
      j: nat, h: nat, g: Option<Handling>)
    requires Execution(w, issued, states, actions) && i <= j < |states| && InHand(states[i], h, g)
    requires forall k :: i <= k < j ==> !Concerns(actions[k], h)
    ensures InHand(states[j], h, g)
    decreases j - i
  {
    if i < j {
      HandStays(w, issued, states, actions, i, j - 1, h, g);
      assert StepOf(w, issued, states, actions, j - 1);
      NotConcerned(w, states[j - 1], actions[j - 1], h, g);
    }
  }

  lemma {:induction false} LookUpMoves(w: Settings, s: State, h: nat, fact: Completion, flag: bool)
    requires InHand(s, h, Some(FlagRead(fact, flag)))
    ensures FactAnswerOf(s, CompletionLooksUp(h)) == LookUpResult(s.t, fact, flag)
    ensures InHand(Next(w, s, CompletionLooksUp(h)), h,
                   if LookUpResult(s.t, fact, flag).Some? then None else Some(LookedUp(fact, flag)))
  {
  }

  lemma {:induction false} VerificationMoves(w: Settings, s: State, h: nat, g: Option<Handling>)
    requires InHand(s, h, g) && (g.Some? ==> g.value.LookedUp?)
    ensures FactAnswerOf(s, CompletionVerifies(h)) ==
      if g.Some? && !VerifiesCompletion(s.t, g.value.fact) then Some(InvalidReply) else None
    ensures InHand(Next(w, s, CompletionVerifies(h)), h,
                   if g.Some? && VerifiesCompletion(s.t, g.value.fact)
                   then Some(Verified(g.value.fact, g.value.incomplete)) else None)
  {
  }

  lemma {:induction false} TransactionAnswers(s: State, h: nat, g: Option<Handling>)
    requires InHand(s, h, g) && (g.Some? ==> g.value.Verified?)
    ensures FactAnswerOf(s, CompletionSettles(h)) ==
      if g.Some? then Some(SettleCompletion(s.t, g.value.fact, g.value.incomplete, s.now).1) else None
  {
  }

  lemma {:induction false} ArrivalReads(w: Settings, issued: Issuer, states: seq<State>, actions: seq<Action>, i: nat,
      h: nat, fact: Completion)
    requires Execution(w, issued, states, actions) && i < |actions| && h !in states[i].handlers
    requires actions[i] == CompletionArrives(h, fact)
    ensures InHand(states[i + 1], h, Some(FlagRead(fact, ReadIncomplete(states[i].t, fact.run, fact.owner))))
  {
    assert StepOf(w, issued, states, actions, i);
  }

  /** The handler at its lookup, at its verification and at its transaction. */
  lemma {:induction false} HandsOf(w: Settings, issued: Issuer, states: seq<State>, actions: seq<Action>, h: nat,
      fact: Completion, d: Moments)
    requires Execution(w, issued, states, actions) && Attends(states, actions, h, fact, d)
    ensures var flag := ReadIncomplete(states[d.read].t, fact.run, fact.owner);
      var found := LookUpResult(states[d.lookup].t, fact, flag);
      var verifies := VerifiesCompletion(states[d.verify].t, fact);
      && InHand(states[d.lookup], h, Some(FlagRead(fact, flag)))
      && InHand(states[d.verify], h, if found.Some? then None else Some(LookedUp(fact, flag)))
      && InHand(states[d.settle], h, if found.None? && verifies then Some(Verified(fact, flag)) else None)
  {
    var flag := ReadIncomplete(states[d.read].t, fact.run, fact.owner);
    ArrivalReads(w, issued, states, actions, d.read, h, fact);
    HandStays(w, issued, states, actions, d.read + 1, d.lookup, h, Some(FlagRead(fact, flag)));
    var looked := if LookUpResult(states[d.lookup].t, fact, flag).Some? then None else Some(LookedUp(fact, flag));
    LookUpMoves(w, states[d.lookup], h, fact, flag);
    assert StepOf(w, issued, states, actions, d.lookup);
    HandStays(w, issued, states, actions, d.lookup + 1, d.verify, h, looked);
    VerificationMoves(w, states[d.verify], h, looked);
    assert StepOf(w, issued, states, actions, d.verify);
    var verifies := VerifiesCompletion(states[d.verify].t, fact);
    var verified := if looked.Some? && verifies then Some(Verified(fact, flag)) else None;
    HandStays(w, issued, states, actions, d.verify + 1, d.settle, h, verified);
  }

  /** The answer to a delivery is the first answer its handler gives, at the lookup, the verification or the
      transaction. */
  lemma {:induction false} HandlerAnswers(w: Settings, issued: Issuer, states: seq<State>, actions: seq<Action>, h: nat,
      fact: Completion, d: Moments)
    requires Execution(w, issued, states, actions) && Attends(states, actions, h, fact, d)
    ensures Some(AnswerTo(states, fact, d)) ==
      FirstOf(FactAnswerOf(states[d.lookup], actions[d.lookup]), FactAnswerOf(states[d.verify], actions[d.verify]),
              FactAnswerOf(states[d.settle], actions[d.settle]))
  {
    HandsOf(w, issued, states, actions, h, fact, d);
    var flag := ReadIncomplete(states[d.read].t, fact.run, fact.owner);
    var looked := if LookUpResult(states[d.lookup].t, fact, flag).Some? then None else Some(LookedUp(fact, flag));
    LookUpMoves(w, states[d.lookup], h, fact, flag);
    VerificationMoves(w, states[d.verify], h, looked);
    var verifies := VerifiesCompletion(states[d.verify].t, fact);
    TransactionAnswers(states[d.settle], h, if looked.Some? && verifies then Some(Verified(fact, flag)) else None);
  }

  // ---------------------------------------------------------------- failures delivered again

  lemma {:induction false} FailureSettlesFact(s: State, f: RecapFailureFact, newId: Uuid)
    requires HandlerOk(s.t.runs, s.t.manifests, FailureChecked(f)) && SettleFailure(s.t, f, newId, s.now).1 == Applied
    ensures FailureSettled(SettleFailure(s.t, f, newId, s.now).0, f)
  {
  }

  lemma {:induction false} FailureStays(t: Tables, t': Tables, f: RecapFailureFact)
    requires Steady(t, t') && FailureSettled(t, f)
    ensures FailureSettled(t', f)
  {
    assert SameManifest(t.manifests[f.run], t'.manifests[f.run]);
    assert SteadyRun(t.runs[f.run], t'.runs[f.run]);
  }

  lemma {:induction false} SettledFailure(w: Settings, issued: Issuer, states: seq<State>, actions: seq<Action>, i: nat,
      j: nat, h: nat, f: RecapFailureFact, newId: Uuid)
    requires Service(w, issued, states, actions) && i < |actions| && i < j < |states|
    requires actions[i] == FailureSettles(h, newId) && InHand(states[i], h, Some(FailureChecked(f)))
    requires FactAnswerOf(states[i], actions[i]) == Some(Applied)
    ensures FailureSettled(states[j].t, f)
  {
    FailureStep(w, issued, states, actions, i, h, f, newId);
    ServiceIsFine(w, issued, states, actions);
    FailureThrough(states, i + 1, j, f);
  }

  lemma {:induction false} FailureStep(w: Settings, issued: Issuer, states: seq<State>, actions: seq<Action>, i: nat,
      h: nat, f: RecapFailureFact, newId: Uuid)
    requires Service(w, issued, states, actions) && i < |actions|
    requires actions[i] == FailureSettles(h, newId) && InHand(states[i], h, Some(FailureChecked(f)))
    requires FactAnswerOf(states[i], actions[i]) == Some(Applied)
    ensures FailureSettled(states[i + 1].t, f)
  {
    Reachable(w, issued, states, actions, i);
    assert HandlerOk(states[i].t.runs, states[i].t.manifests, states[i].handlers[h]);
    assert StepOf(w, issued, states, actions, i);
    FailureSettlesFact(states[i], f, newId);
  }

  lemma {:induction false} FailureThrough(states: seq<State>, i: nat, j: nat, f: RecapFailureFact)
    requires SteadyTrace(states) && i <= j < |states| && FailureSettled(states[i].t, f)
    ensures FailureSettled(states[j].t, f)
  {
    SteadyThrough(states, i, j);
    FailureStays(states[i].t, states[j].t, f);
  }

  /** Before the settlement the run waits from its manifest on, so the check lets the fact through. */
  lemma {:induction false} ChecksBefore(issued: Issuer, states: seq<State>, f: RecapFailureFact, j: nat, i: nat)
    requires FineTrace(issued, states) && SteadyTrace(states) && j <= i < |states| && f.run in states[j].t.manifests
    requires HandlerOk(states[i].t.runs, states[i].t.manifests, FailureChecked(f))
    requires states[i].t.runs[f.run].state.WaitingRecap?
    ensures CheckFailure(states[j].t, f) == None
  {
    SteadyThrough(states, j, i);
    var t, t' := states[j].t, states[i].t;
    assert EvidenceAt(t.runs, t.manifests, t.results, t.outbox, f.run) by { assert Inv(issued, states[j]); }
    assert SteadyRun(t.runs[f.run], t'.runs[f.run]) && SameManifest(t.manifests[f.run], t'.manifests[f.run]);
  }

  lemma {:induction false} WaitedAt(s: State, f: RecapFailureFact, newId: Uuid)
    requires SettleFailure(s.t, f, newId, s.now).1 == Applied
    ensures f.run in s.t.runs && s.t.runs[f.run].state.WaitingRecap?
  {
  }

  /** The exact answer to a failure delivered again: with action `i` settling it, a delivery whose transaction comes
      later answers Replayed if and only if the run has its manifest at the check, and Invalid otherwise. */
  lemma {:induction false} FailureRedeliveryAnswers(w: Settings, issued: Issuer, states: seq<State>,
      actions: seq<Action>, i: nat, h: nat, f: RecapFailureFact, newId: Uuid, check: nat, settle: nat, newId2: Uuid)
    requires Service(w, issued, states, actions) && i < |actions| && check <= settle < |states| && i < settle
    requires actions[i] == FailureSettles(h, newId) && InHand(states[i], h, Some(FailureChecked(f)))
    requires FactAnswerOf(states[i], actions[i]) == Some(Applied)
    ensures FailureAnswer(states, f, check, settle, newId2) ==
      if f.run in states[check].t.manifests then Replayed else InvalidReply
  {
    ServiceIsFine(w, issued, states, actions);
    if i < check {
      SettledFailure(w, issued, states, actions, i, check, h, f, newId);
    } else {
      SettledFailure(w, issued, states, actions, i, settle, h, f, newId);
      if f.run in states[check].t.manifests {
        assert HandlerOk(states[i].t.runs, states[i].t.manifests, states[i].handlers[h]) by {
          assert Inv(issued, states[i]);
        }
        WaitedAt(states[i], f, newId);
        ChecksBefore(issued, states, f, check, i);
      }
    }
  }

  // ---------------------------------------------------------------- results and decisions

  lemma {:induction false} CommitResults(t: Tables, p: Pending, sources: seq<ManifestSource>, incomplete: bool,
      e: Event, now: Instant)
    requires e.Commits?
    ensures Commit(t, p, sources, incomplete, e, now).0.results == t.results
  {
    FailTexts(t, p.run, p.owner, if sources == [] then ProviderDown else FailureClass.ManifestInvalid, now);
    CompleteEmptyTexts(t, p.run, p.owner, now);
  }

  lemma {:induction false} WalkingResults(t: Tables, x: Exec, now: Instant, e: Event, sourceCount: nat)
    requires x.Walking?
    ensures ExecStep(t, x, now, e, sourceCount).0.results == t.results
  {
    if !e.Dies? && x.i < |x.queue| && !x.walk.Done? && e.Hears? {
      WalkStepTexts(t, RequestFor(x.p, x.queue[x.i]), x.walk, now, e.answer);
    }
  }

  lemma {:induction false} ExecResults(t: Tables, x: Exec, now: Instant, e: Event, sourceCount: nat)
    ensures ExecStep(t, x, now, e, sourceCount).0.results == t.results
  {
    if x.Walking? {
      WalkingResults(t, x, now, e, sourceCount);
    } else if e.Dies? {
      assert ExecStep(t, x, now, e, sourceCount).0 == t;
    } else if x.Chosen? {
      BeginTexts(t, x.p, now);
    } else if x.Failing? {
      FailTexts(t, x.p.run, x.p.owner, ProviderDown, now);
    } else if x.Recorded? && e.Commits? {
      CommitResults(t, x.p, x.sources, x.incomplete, e, now);
    }
  }

  lemma {:induction false} ArrivalResults(w: Settings, s: State, a: Action)
    requires a.RunArrives? || a.SubscriptionArrives? || a.OccurrenceArrives? || a.Refuses?
    ensures Next(w, s, a).t.results == s.t.results
  {
    if a.RunArrives? {
      AcceptRunTexts(s.t, a.run, s.now);
    } else if a.OccurrenceArrives? {
      OccurrenceTexts(s.t, a.occurrence, a.newIds, s.now);
    } else if a.Refuses? {
      RejectTexts(s.t, a.refusal);
    }
  }

  /** Only the two settling transactions write results. */
  lemma {:induction false} OtherResults(w: Settings, s: State, a: Action)
    requires !a.CompletionSettles? && !a.FailureSettles?
    ensures Next(w, s, a).t.results == s.t.results
  {
    if a.Executes? {
      ExecResults(s.t, s.x, s.now, a.event, w.sourceCount);
    } else if a.RunArrives? || a.SubscriptionArrives? || a.OccurrenceArrives? || a.Refuses? {
      ArrivalResults(w, s, a);
    } else if a.Reaps? {
      ReapTexts(s.t, s.now, w.deadline);
    }
  }

  lemma {:induction false} SettlingDecides(t: Tables, f: Completion, flag: bool, now: Instant)
    requires ResultsDecided(t)
    ensures ResultsDecided(SettleCompletion(t, f, flag, now).0)
  {
    var t' := SettleCompletion(t, f, flag, now).0;
    if t' != t {
      assert t'.results == t.results[f.run := CompletedResult(t, f, flag)];
      assert t'.inbox == t.inbox[CompletionDecision(f) := InboxRow(f.message, Handled, None)];
    }
  }

  lemma {:induction false} FailingDecides(t: Tables, f: RecapFailureFact, newId: Uuid, now: Instant)
    requires ResultsDecided(t)
    ensures ResultsDecided(SettleFailure(t, f, newId, now).0)
  {
    var t' := SettleFailure(t, f, newId, now).0;
    if t' != t {
      assert f.run in t'.results && t'.results[f.run].recap.None?;
      assert t'.results == t.results[f.run := t'.results[f.run]];
      assert t'.inbox == t.inbox[FailureDecision(f) := InboxRow(f.message, Handled, None)];
    }
  }

  lemma {:induction false} GainsNoFailure(t: Tables, t': Tables, d: Option<Decision>)
    requires ResultsDecided(t) && t'.results == t.results && InboxGains(t.inbox, t'.inbox, d)
    requires d.Some? ==> !d.value.key.OfRun?
    ensures ResultsDecided(t')
  {
  }

  lemma {:induction false} HandlerDecides(w: Settings, s: State, a: Action)
    requires ResultsDecided(s.t) && (a.CompletionSettles? || a.FailureSettles?)
    ensures ResultsDecided(Next(w, s, a).t)
  {
    if a.h in s.handlers {
      match (a, s.handlers[a.h])
      case (CompletionSettles(h), Verified(f, i)) => SettlingDecides(s.t, f, i, s.now);
      case (FailureSettles(h, newId), FailureChecked(f)) => FailingDecides(s.t, f, newId, s.now);
      case _ =>
    }
  }

  lemma {:induction false} NextDecides(w: Settings, s: State, a: Action)
    requires ResultsDecided(s.t) && RefusalsNamed(s)
    ensures ResultsDecided(Next(w, s, a).t)
  {
    if a.CompletionSettles? || a.FailureSettles? {
      HandlerDecides(w, s, a);
    } else {
      OtherResults(w, s, a);
      NextInbox(w, s, a);
      if a.Refuses? && a.refusal !in s.refusals {
        assert Next(w, s, a).t == s.t;
      } else {
        GainsNoFailure(s.t, Next(w, s, a).t, DecisionOf(s, a));
      }
    }
  }

  lemma {:induction false} NextNames(w: Settings, issued: Issuer, s: State, a: Action)
    requires RefusalsNamed(s) && Plausible(issued, s, a)
    ensures RefusalsNamed(Next(w, s, a))
  {
  }

  /** In every reachable state each result has its decision, and a failure is decided only with its result. */
  lemma {:induction false} ResultsAreDecided(w: Settings, issued: Issuer, states: seq<State>, actions: seq<Action>,
      i: nat)
    requires Service(w, issued, states, actions) && i < |states|
    ensures ResultsDecided(states[i].t) && RefusalsNamed(states[i])
    decreases i
  {
    if i > 0 {
      ResultsAreDecided(w, issued, states, actions, i - 1);
      assert StepOf(w, issued, states, actions, i - 1);
      NextDecides(w, states[i - 1], actions[i - 1]);
      NextNames(w, issued, states[i - 1], actions[i - 1]);
    }
  }

  // ---------------------------------------------------------------- what an acknowledged event leaves

  lemma {:induction false} LookUpDecides(s: State, f: Completion, flag: bool)
    requires ResultsDecided(s.t) && UniqueResults(s.t.results) && LookUpResult(s.t, f, flag) == Some(Replayed)
    ensures CompletionDecision(f) in s.t.inbox
  {
    var r :| r in s.t.results && s.t.results[r].id == f.result;
    assert ResultDecision(r, s.t.results[r]) in s.t.inbox;
  }

  lemma {:induction false} TransactionDecides(t: Tables, f: Completion, flag: bool, now: Instant)
    requires DispositionOf(SettleCompletion(t, f, flag, now).1) == Ack
    ensures Decided(SettleCompletion(t, f, flag, now).0, f.message, CompletionDecision(f))
  {
  }

  lemma {:induction false} FailureTransactionDecides(t: Tables, f: RecapFailureFact, newId: Uuid, now: Instant)
    requires DispositionOf(SettleFailure(t, f, newId, now).1) == Ack
    ensures Decided(SettleFailure(t, f, newId, now).0, f.message, FailureDecision(f))
  {
  }

  lemma {:induction false} DecidedThrough(states: seq<State>, i: nat, j: nat, message: Uuid, decision: Decision)
    requires SteadyTrace(states) && i <= j < |states| && Decided(states[i].t, message, decision)
    ensures Decided(states[j].t, message, decision)
  {
    SteadyThrough(states, i, j);
    DecidedStays(states[i].t, states[j].t, message, decision);
  }

  lemma {:induction false} LookedUpIsDecided(w: Settings, issued: Issuer, states: seq<State>, actions: seq<Action>,
      i: nat, fact: Completion, flag: bool)
    requires Service(w, issued, states, actions) && ValidSettings(w) && i < |states|
    requires LookUpResult(states[i].t, fact, flag) == Some(Replayed)
    ensures Decided(states[i].t, fact.message, CompletionDecision(fact))
  {
    ResultsAreDecided(w, issued, states, actions, i);
    StoredReachable(w, issued, states, actions, i);
    LookUpDecides(states[i], fact, flag);
  }

  lemma {:induction false} AckDecidesFact(w: Settings, s: State, a: Action, fact: Completion)
    requires a.CompletionVerifies? || a.CompletionSettles?
    requires a.h in s.handlers && !s.handlers[a.h].FailureChecked? && s.handlers[a.h].fact == fact
    requires FactAnswerOf(s, a).Some? && DispositionOf(FactAnswerOf(s, a).value) == Ack
    ensures Decided(Next(w, s, a).t, fact.message, CompletionDecision(fact))
  {
    TransactionDecides(s.t, fact, s.handlers[a.h].incomplete, s.now);
  }

  lemma {:induction false} LookUpAcks(s: State, h: nat, fact: Completion)
    requires h in s.handlers && !s.handlers[h].FailureChecked? && s.handlers[h].fact == fact
    requires FactAnswerOf(s, CompletionLooksUp(h)).Some?
    requires DispositionOf(FactAnswerOf(s, CompletionLooksUp(h)).value) == Ack
    ensures LookUpResult(s.t, fact, s.handlers[h].incomplete) == Some(Replayed)
  {
  }

  /** An acknowledged completion has a decision under its message identity or its result, then and ever after. */
  lemma {:induction false} AckedCompletionIsDecided(w: Settings, issued: Issuer, states: seq<State>,
      actions: seq<Action>, i: nat, j: nat, h: nat, fact: Completion)
    requires Service(w, issued, states, actions) && ValidSettings(w) && i < |actions| && i < j < |states|
    requires actions[i] in {CompletionLooksUp(h), CompletionVerifies(h), CompletionSettles(h)}
    requires h in states[i].handlers && !states[i].handlers[h].FailureChecked? && states[i].handlers[h].fact == fact
    requires var answer := FactAnswerOf(states[i], actions[i]); answer.Some? && DispositionOf(answer.value) == Ack
    ensures Decided(states[j].t, fact.message, CompletionDecision(fact))
  {
    ServiceIsFine(w, issued, states, actions);
    if actions[i].CompletionLooksUp? {
      LookUpAcks(states[i], h, fact);
      LookedUpIsDecided(w, issued, states, actions, i, fact, states[i].handlers[h].incomplete);
      DecidedThrough(states, i, j, fact.message, CompletionDecision(fact));
    } else {
      assert StepOf(w, issued, states, actions, i);
      AckDecidesFact(w, states[i], actions[i], fact);
      DecidedThrough(states, i + 1, j, fact.message, CompletionDecision(fact));
    }
  }

  /** The same of a failure its transaction answered. */
  lemma {:induction false} AckedFailureIsDecided(w: Settings, issued: Issuer, states: seq<State>, actions: seq<Action>,
      i: nat, j: nat, h: nat, f: RecapFailureFact, newId: Uuid)
    requires Service(w, issued, states, actions) && i < |actions| && i < j < |states|
    requires actions[i] == FailureSettles(h, newId) && InHand(states[i], h, Some(FailureChecked(f)))
    requires DispositionOf(FactAnswerOf(states[i], actions[i]).value) == Ack
    ensures Decided(states[j].t, f.message, FailureDecision(f))
  {
    assert StepOf(w, issued, states, actions, i);
    FailureTransactionDecides(states[i].t, f, newId, states[i].now);
    ServiceIsFine(w, issued, states, actions);
    DecidedThrough(states, i + 1, j, f.message, FailureDecision(f));
  }

  lemma {:induction false} FailedKeepsResult(states: seq<State>, i: nat, j: nat, r: Uuid)
    requires SteadyTrace(states) && i <= j < |states| && r in states[i].t.runs && states[i].t.runs[r].state.Settled()
    ensures r in states[j].t.results <==> r in states[i].t.results
    ensures r in states[i].t.results ==> states[j].t.results[r] == states[i].t.results[r]
  {
    SteadyThrough(states, i, j);
  }

  lemma {:induction false} FailureResult(s: State, f: RecapFailureFact)
    requires ResultsDecided(s.t)
    requires EvidenceAt(s.t.runs, s.t.manifests, s.t.results, s.t.outbox, f.run)
    requires f.run in s.t.runs && s.t.runs[f.run].state.RunFailed?
    ensures FailureDecision(f) in s.t.inbox <==> f.run in s.t.results
  {
  }

  /** The exact condition for a failure its check acknowledges: it is decided, then and ever after, if and only if the
      run has a result. A run that the deadline failed has none, so its late failure is acknowledged undecided. */
  lemma {:induction false} CheckedFailureIsDecidedExactlyWhen(w: Settings, issued: Issuer, states: seq<State>,
      actions: seq<Action>, i: nat, j: nat, h: nat, f: RecapFailureFact)
    requires Service(w, issued, states, actions) && i < |actions| && i < j < |states|
    requires actions[i] == FailureArrives(h, f) && FactAnswerOf(states[i], actions[i]) == Some(Replayed)
    ensures FailureDecision(f) in states[j].t.inbox <==> f.run in states[i].t.results
  {
    ServiceIsFine(w, issued, states, actions);
    ResultsAreDecided(w, issued, states, actions, j);
    RunKept(states, i, j, f.run);
    FailedKeepsResult(states, i, j, f.run);
    assert EvidenceAt(states[j].t.runs, states[j].t.manifests, states[j].t.results, states[j].t.outbox, f.run) by {
      assert Inv(issued, states[j]);
    }
    FailureResult(states[j], f);
  }
}
