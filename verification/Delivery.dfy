/** At-least-once delivery: what the transport is told, and what a redelivery can still do. */
module DeliverySpec {
  import opened Schema
  import opened Coordinator
  import opened Intake
  import opened Schedule
  import opened Machine

  datatype Disposition = Ack | Term | Nak

  /** How the bus maps an answer to a disposition of the delivery. */
  function DispositionOf(reply: Reply): Disposition {
    match reply
    case Applied => Ack
    case Replayed => Ack
    case InvalidReply => Term
    case StorageReply => Nak
  }

  /** The decision an action is about, when it is about one. */
  function DecisionOf(s: State, a: Action): Option<Decision> {
    match a
    case RunArrives(c) => Some(RunDecision(c))
    case SubscriptionArrives(c, _, _) => Some(SubscriptionDecision(c))
    case OccurrenceArrives(o, _) => Some(OccurrenceDecision(o))
    case Refuses(r) => Some(r.decision)
    case CompletionSettles(h) =>
      if h in s.handlers && s.handlers[h].Verified? then Some(CompletionDecision(s.handlers[h].fact)) else None
    case FailureSettles(h, _) =>
      if h in s.handlers && s.handlers[h].FailureChecked? then Some(FailureDecision(s.handlers[h].failure)) else None
    case _ => None
  }

  /** The delivery of a command answered at once, and how; a refusal is answered by its own transaction. */
  ghost function AnswerOf(s: State, a: Action): Option<Reply> {
    match a
    case RunArrives(c) => AnsweredWith(AcceptRun(s.t, c, s.now).1)
    case SubscriptionArrives(c, ns, nc) => AnsweredWith(AcceptSubscription(s.t, c, ns, nc, s.now).1)
    case OccurrenceArrives(o, ids) => Some(AcceptOccurrence(s.t, o, ids, s.now).1)
    case Refuses(r) => if r in s.refusals then Some(Reject(s.t, r).1) else None
    case _ => None
  }

  function AnsweredWith(step: IntakeStep): Option<Reply> {
    if step.Answered? then Some(step.reply) else None
  }

  function MessageOf(a: Action): Uuid
    requires a.RunArrives? || a.SubscriptionArrives? || a.OccurrenceArrives? || a.Refuses?
  {
    match a
    case RunArrives(c) => c.message
    case SubscriptionArrives(c, _, _) => c.message
    case OccurrenceArrives(o, _) => o.message
    case Refuses(r) => r.message
  }

  predicate InboxSettled(inbox: map<Decision, InboxRow>) {
    forall d :: d in inbox ==> !inbox[d].state.Processing?
  }

  predicate OneDecisionEach(inbox: map<Decision, InboxRow>) {
    forall a, b :: a in inbox && b in inbox && inbox[a].message == inbox[b].message ==> a == b
  }

  /** The inbox gained at most the one settled decision. */
  predicate InboxGains(inbox: map<Decision, InboxRow>, inbox': map<Decision, InboxRow>, d: Option<Decision>) {
    || inbox' == inbox
    || (&& d.Some? && d.value !in inbox && d.value in inbox' && !inbox'[d.value].state.Processing?
        && (forall x :: x in inbox ==> inbox[x].message != inbox'[d.value].message)
        && inbox' == inbox[d.value := inbox'[d.value]])
  }
}

module Delivery {
  import opened Schema
  import opened Reports
  import opened Coordinator
  import opened Intake
  import opened Schedule
  import opened Executor
  import opened Machine
  import opened EvidenceSpec
  import opened LifecycleSpec
  import opened Traces
  import opened Lifecycle
  import opened StoredSteps
  import opened DeliverySpec
  import EvidenceBatches

  /** A decided command changes nothing. */
  lemma {:induction false} DecidedIsReplayed(w: Settings, s: State, a: Action)
    requires DecisionOf(s, a).Some? && DecisionOf(s, a).value in s.t.inbox
    ensures Next(w, s, a).t == s.t
  {
  }

  /** A change of the tables by a command or a fact records its decision. */
  lemma {:induction false} EffectIsDecided(w: Settings, s: State, a: Action)
    requires DecisionOf(s, a).Some? && Next(w, s, a).t != s.t
    ensures DecisionOf(s, a).value in Next(w, s, a).t.inbox
  {
    if a.CompletionSettles? {
      SettlementDecides(s.t, s.handlers[a.h].fact, s.handlers[a.h].incomplete, s.now);
    } else if a.FailureSettles? {
      FailureDecides(s.t, s.handlers[a.h].failure, a.newId, s.now);
    }
  }

  lemma {:induction false} SettlementDecides(t: Tables, f: Completion, i: bool, now: Instant)
    ensures InboxGains(t.inbox, SettleCompletion(t, f, i, now).0.inbox, Some(CompletionDecision(f)))
    ensures SettleCompletion(t, f, i, now).0 != t ==> CompletionDecision(f) in SettleCompletion(t, f, i, now).0.inbox
  {
    var t' := SettleCompletion(t, f, i, now).0;
    if t' != t {
      var settled := Move(t, f.run, OutcomeOf(f, i), now).(
        results := t.results[f.run := CompletedResult(t, f, i)],
        inbox := t.inbox[CompletionDecision(f) := InboxRow(f.message, Handled, None)]);
      ReportTexts(settled, f.run, f.owner, CompletionStatus(f, i), CompletionReport(f.owner, f, i));
    }
  }

  lemma {:induction false} FailureDecides(t: Tables, f: RecapFailureFact, newId: Uuid, now: Instant)
    ensures InboxGains(t.inbox, SettleFailure(t, f, newId, now).0.inbox, Some(FailureDecision(f)))
    ensures SettleFailure(t, f, newId, now).0 != t ==> FailureDecision(f) in SettleFailure(t, f, newId, now).0.inbox
  {
    var t' := SettleFailure(t, f, newId, now).0;
    if t' != t {
      var settled := MoveFailed(t, f.run, RecapFailed(f.code), now).(
        results := t.results[f.run :=
          Result(newId, t.manifests[f.run].id, f.owner, RunFailed, None, None, 0, Some(RecapFailed(f.code)))],
        inbox := t.inbox[FailureDecision(f) := InboxRow(f.message, Handled, None)]);
      ReportTexts(settled, f.run, f.owner, Failed,
                  ErrorReport(f.owner, "recap", RecapFailed(f.code), Retryable(f.code)));
    }
  }

  lemma {:induction false} EffectLeavesDecision(w: Settings, issued: Issuer, states: seq<State>, actions: seq<Action>,
      i: nat)
    requires Service(w, issued, states, actions) && i < |actions|
    requires DecisionOf(states[i], actions[i]).Some? && states[i + 1].t != states[i].t
    ensures DecisionOf(states[i], actions[i]).value in states[i + 1].t.inbox
  {
    assert StepOf(w, issued, states, actions, i);
    EffectIsDecided(w, states[i], actions[i]);
  }

  lemma {:induction false} DecisionStopsEffects(w: Settings, issued: Issuer, states: seq<State>, actions: seq<Action>,
      j: nat)
    requires Service(w, issued, states, actions) && j < |actions|
    requires DecisionOf(states[j], actions[j]).Some? && DecisionOf(states[j], actions[j]).value in states[j].t.inbox
    ensures states[j + 1].t == states[j].t
  {
    assert StepOf(w, issued, states, actions, j);
    DecidedIsReplayed(w, states[j], actions[j]);
  }

  lemma {:induction false} InboxKept(states: seq<State>, i: nat, j: nat, decision: Decision)
    requires SteadyTrace(states) && i <= j < |states| && decision in states[i].t.inbox
    ensures decision in states[j].t.inbox
  {
    SteadyThrough(states, i, j);
  }

  /** Exactly once: of all the transactions about one decision in an execution, whatever the redeliveries and
      crashes, at most one changes anything. */
  lemma {:induction false} AtMostOneEffect(w: Settings, issued: Issuer, states: seq<State>, actions: seq<Action>,
      i: nat, j: nat)
    requires Service(w, issued, states, actions) && i < j < |actions|
    requires DecisionOf(states[i], actions[i]).Some?
    requires DecisionOf(states[j], actions[j]) == DecisionOf(states[i], actions[i])
    requires states[i + 1].t != states[i].t
    ensures states[j + 1].t == states[j].t
  {
    EffectLeavesDecision(w, issued, states, actions, i);
    ServiceIsFine(w, issued, states, actions);
    InboxKept(states, i + 1, j, DecisionOf(states[i], actions[i]).value);
    DecisionStopsEffects(w, issued, states, actions, j);
  }

  lemma {:induction false} DecidedStays(t: Tables, t': Tables, message: Uuid, decision: Decision)
    requires Steady(t, t') && Decided(t, message, decision)
    ensures Decided(t', message, decision)
  {
    if decision !in t.inbox {
      var d :| d in t.inbox && t.inbox[d].message == message;
      assert d in t'.inbox && t'.inbox[d] == t.inbox[d];
    }
  }

  /** A delivery is terminated exactly when it is an occurrence under a key that is none; of the others those that are
      decided are acknowledged and the rest are asked for again. What is not acknowledged changed nothing. */
  lemma {:induction false} DispositionTells(w: Settings, s: State, a: Action)
    requires AnswerOf(s, a).Some?
    ensures var disposition := DispositionOf(AnswerOf(s, a).value);
      && (disposition == Term <==> a.OccurrenceArrives? && !("schedule-occurrence:" <= a.occurrence.key))
      && (disposition == Ack <==>
           disposition != Term && Decided(Next(w, s, a).t, MessageOf(a), DecisionOf(s, a).value))
      && (disposition != Ack ==> Next(w, s, a).t == s.t)
  {
  }

  /** An acknowledged command has a decision under its message identity or its key, then and ever after. */
  lemma {:induction false} AckedIsDecided(w: Settings, issued: Issuer, states: seq<State>, actions: seq<Action>, i: nat,
      j: nat)
    requires Service(w, issued, states, actions) && i < |actions| && i < j < |states|
    requires AnswerOf(states[i], actions[i]).Some? && DispositionOf(AnswerOf(states[i], actions[i]).value) == Ack
    ensures Decided(states[j].t, MessageOf(actions[i]), DecisionOf(states[i], actions[i]).value)
  {
    ServiceIsFine(w, issued, states, actions);
    assert StepOf(w, issued, states, actions, i);
    DispositionTells(w, states[i], actions[i]);
    SteadyThrough(states, i + 1, j);
    DecidedStays(states[i + 1].t, states[j].t, MessageOf(actions[i]), DecisionOf(states[i], actions[i]).value);
  }

  /** A command that cannot be accepted rolls back completely and leaves its refusal, under the same message
      and decision, to a second transaction; the limit of active subscriptions is one such reason. */
  lemma {:induction false} RefusalRollsBack(w: Settings, s: State, a: Action)
    requires a.RunArrives? || a.SubscriptionArrives?
    requires AnswerOf(s, a).None?
    ensures Next(w, s, a).t == s.t
    ensures exists r :: r in Next(w, s, a).refusals && r.message == MessageOf(a) && Some(r.decision) == DecisionOf(s, a)
  {
    if a.RunArrives? {
      assert AcceptRun(s.t, a.run, s.now).1.rejection in Next(w, s, a).refusals;
    } else {
      var step := AcceptSubscription(s.t, a.subscription, a.newSubscription, a.newChannel, s.now).1;
      assert step.rejection in Next(w, s, a).refusals;
    }
  }

  /** What leaves the refusal to be recorded. */
  ghost predicate Leaves(s: State, a: Action, r: Rejection) {
    match a
    case RunArrives(c) => AcceptRun(s.t, c, s.now).1 == ToRefuse(r)
    case SubscriptionArrives(c, ns, nc) => AcceptSubscription(s.t, c, ns, nc, s.now).1 == ToRefuse(r)
    case UnreadableArrives(x) => x == r
    case _ => false
  }

  /** A refusal, of a command that could not be accepted or not be read, changes nothing by itself; its own transaction
      records it with its reason and reports the operation as failed, unless the command was decided meanwhile. */
  lemma {:induction false} RefusalIsRecorded(w: Settings, s: State, a: Action, r: Rejection)
    requires Leaves(s, a, r)
    ensures var s1 := Next(w, s, a);
      var s2 := Next(w, s1, Refuses(r));
      && s1.t == s.t && r !in s2.refusals
      && (Decided(s.t, r.message, r.decision) ==> s2.t == s.t)
      && (!Decided(s.t, r.message, r.decision) ==>
           && s2.t.inbox == s.t.inbox[r.decision := InboxRow(r.message, Refused, Some(r.reason))]
           && ReportOf(r.operation, Failed) in s2.t.outbox)
  {
    assert r in Next(w, s, a).refusals;
  }

  // ---------------------------------------------------------------- the inbox

  lemma {:induction false} RunInbox(t: Tables, c: RunRequest, now: Instant)
    ensures InboxGains(t.inbox, AcceptRun(t, c, now).0.inbox, Some(RunDecision(c)))
  {
  }

  lemma {:induction false} SubscriptionInbox(t: Tables, c: SubscriptionRequest, ns: Uuid, nc: Uuid, now: Instant)
    ensures InboxGains(t.inbox, AcceptSubscription(t, c, ns, nc, now).0.inbox, Some(SubscriptionDecision(c)))
  {
  }

  lemma {:induction false} OccurrenceInbox(t: Tables, o: Occurrence, ids: seq<Uuid>, now: Instant)
    ensures InboxGains(t.inbox, AcceptOccurrence(t, o, ids, now).0.inbox, Some(OccurrenceDecision(o)))
  {
  }

  lemma {:induction false} RejectInbox(t: Tables, r: Rejection)
    ensures InboxGains(t.inbox, Reject(t, r).0.inbox, Some(r.decision))
  {
  }

  lemma {:induction false} ArrivalInbox(w: Settings, s: State, a: Action)
    requires a.RunArrives? || a.SubscriptionArrives? || a.OccurrenceArrives? || a.Refuses?
    ensures InboxGains(s.t.inbox, Next(w, s, a).t.inbox, DecisionOf(s, a))
  {
    match a
    case RunArrives(c) => RunInbox(s.t, c, s.now);
    case SubscriptionArrives(c, ns, nc) => SubscriptionInbox(s.t, c, ns, nc, s.now);
    case OccurrenceArrives(o, ids) => OccurrenceInbox(s.t, o, ids, s.now);
    case Refuses(r) => RejectInbox(s.t, r);
  }

  lemma {:induction false} CommitInbox(t: Tables, p: Pending, sources: seq<ManifestBuilder.ManifestSource>,
      incomplete: bool, e: Event, now: Instant)
    requires e.Commits?
    ensures Commit(t, p, sources, incomplete, e, now).0.inbox == t.inbox
  {
    FailInbox(t, p.run, p.owner, if sources == [] then ProviderDown else FailureClass.ManifestInvalid, now);
    CompleteEmptyInbox(t, p.run, p.owner, now);
  }

  lemma {:induction false} FailInbox(t: Tables, run: Uuid, owner: Uuid, failure: FailureClass, now: Instant)
    ensures FailRun(t, run, owner, failure, now).0.inbox == t.inbox
  {
    if Owns(t.runs, run, owner) && Unsettled(t.runs[run].state) {
      ReportTexts(MoveFailed(t, run, failure, now), run, owner, Failed, FailureReport(owner, failure));
    }
  }

  lemma {:induction false} CompleteEmptyInbox(t: Tables, run: Uuid, owner: Uuid, now: Instant)
    ensures CompleteEmptyRun(t, run, owner, now).0.inbox == t.inbox
  {
    if Owns(t.runs, run, owner) && Unsettled(t.runs[run].state) {
      ReportTexts(Move(t, run, RunCompleted, now), run, owner, Succeeded, PlainReport(owner, "no_sources"));
    }
  }

  lemma {:induction false} BeginInbox(t: Tables, p: Pending, now: Instant)
    ensures BeginAcquisition(t, p, now).0.inbox == t.inbox
  {
    if p.run in t.runs && t.runs[p.run].state.Accepted? {
      ReportTexts(Move(t, p.run, Acquiring, now), p.run, p.owner, Running, PlainReport(p.owner, "acquiring"));
    }
  }

  lemma {:induction false} WalkInbox(t: Tables, x: Exec, now: Instant, e: Event, sourceCount: nat)
    requires x.Walking?
    ensures ExecStep(t, x, now, e, sourceCount).0.inbox == t.inbox
  {
    if !e.Dies? && x.i < |x.queue| && !x.walk.Done? && e.Hears? {
      EvidenceBatches.WalkStepTexts(t, RequestFor(x.p, x.queue[x.i]), x.walk, now, e.answer);
    }
  }

  lemma {:induction false} ExecInbox(t: Tables, x: Exec, now: Instant, e: Event, sourceCount: nat)
    ensures ExecStep(t, x, now, e, sourceCount).0.inbox == t.inbox
  {
    if !e.Dies? {
      match x
      case Chosen(p) => BeginInbox(t, p, now);
      case Failing(p) => FailInbox(t, p.run, p.owner, ProviderDown, now);
      case Walking(_, _, _, _, _, _, _) => WalkInbox(t, x, now, e, sourceCount);
      case Recorded(p, sources, incomplete) =>
        if e.Commits? {
          CommitInbox(t, p, sources, incomplete, e, now);
        }
      case _ =>
    }
  }

  lemma {:induction false} NextInbox(w: Settings, s: State, a: Action)
    ensures InboxGains(s.t.inbox, Next(w, s, a).t.inbox, DecisionOf(s, a))
  {
    if a.Executes? {
      ExecInbox(s.t, s.x, s.now, a.event, w.sourceCount);
    } else if a.RunArrives? || a.SubscriptionArrives? || a.OccurrenceArrives? || a.Refuses? {
      ArrivalInbox(w, s, a);
    } else if a.CompletionSettles? && DecisionOf(s, a).Some? {
      SettlementDecides(s.t, s.handlers[a.h].fact, s.handlers[a.h].incomplete, s.now);
    } else if a.FailureSettles? && DecisionOf(s, a).Some? {
      FailureDecides(s.t, s.handlers[a.h].failure, a.newId, s.now);
    }
  }

  /** No committed inbox row is still processing, no message decided twice, and each decision is recorded once and never
      changes. */
  lemma {:induction false} CommittedRowsAreSettled(w: Settings, issued: Issuer, states: seq<State>,
      actions: seq<Action>, i: nat)
    requires Service(w, issued, states, actions) && i < |states|
    ensures InboxSettled(states[i].t.inbox) && OneDecisionEach(states[i].t.inbox)
    ensures i > 0 ==> InboxGains(states[i - 1].t.inbox, states[i].t.inbox, DecisionOf(states[i - 1], actions[i - 1]))
    decreases i
  {
    if i > 0 {
      CommittedRowsAreSettled(w, issued, states, actions, i - 1);
      assert StepOf(w, issued, states, actions, i - 1);
      NextInbox(w, states[i - 1], actions[i - 1]);
    }
  }
}
