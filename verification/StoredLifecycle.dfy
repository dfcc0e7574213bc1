/** Stored texts, subscriptions and redelivered facts over whole executions. */
module StoredTraces {
  import opened Schema
  import opened Machine
  import opened StoredSpec

  predicate StaysTrace(states: seq<State>) {
    forall i :: 0 <= i < |states| - 1 ==> StoredStays(states[i].t, states[i + 1].t)
  }

  lemma {:induction false} StaysTransitive(a: Tables, b: Tables, c: Tables)
    requires StoredStays(a, b) && StoredStays(b, c)
    ensures StoredStays(a, c)
  {
    forall k | k in a.revisions
      ensures k in c.revisions && RowStays(a.revisions[k], c.revisions[k])
    {
      assert RowStays(a.revisions[k], b.revisions[k]) && RowStays(b.revisions[k], c.revisions[k]);
    }
    forall r | r in a.manifests
      ensures r in c.manifests && TextStays(a.manifests[r], c.manifests[r])
    {
      assert TextStays(a.manifests[r], b.manifests[r]) && TextStays(b.manifests[r], c.manifests[r]);
    }
    forall k | k in a.subscriptions
      ensures k in c.subscriptions && ActivationStays(a.subscriptions[k], c.subscriptions[k])
    {
      assert ActivationStays(a.subscriptions[k], b.subscriptions[k]);
      assert ActivationStays(b.subscriptions[k], c.subscriptions[k]);
    }
  }

  lemma {:induction false} StaysReflexive(t: Tables)
    ensures StoredStays(t, t)
  {
  }

  lemma {:induction false} StaysThrough(states: seq<State>, i: nat, j: nat)
    requires StaysTrace(states) && i <= j < |states|
    ensures StoredStays(states[i].t, states[j].t)
    decreases j - i
  {
    if i == j {
      StaysReflexive(states[i].t);
    } else {
      StaysThrough(states, i, j - 1);
      assert StoredStays(states[j - 1].t, states[j - 1 + 1].t);
      StaysTransitive(states[i].t, states[j - 1].t, states[j].t);
    }
  }
}

/** A completion delivered again. */
module RedeliverySpec {
  import opened Schema
  import opened Coordinator
  import opened Machine
  import opened EvidenceSpec
  import opened LifecycleSpec
  import opened StoredSpec

  /** A completion is settled: its result is stored, its run settled, its decision recorded. */
  predicate FactSettled(t: Tables, fact: Completion, incomplete: bool) {
    && fact.run in t.results && t.results[fact.run].id == fact.result && SameResult(t, fact.run, fact, incomplete)
    && fact.run in t.manifests && FactFits(t.manifests[fact.run], fact) && fact.run in t.runs
    && t.runs[fact.run].owner == fact.owner && t.runs[fact.run].state.Settled()
    && t.runs[fact.run].incomplete == incomplete
    && CompletionDecision(fact) in t.inbox
  }

  /** When a delivery reads the flag, looks up its result, verifies, and runs its transaction. */
  datatype Moments = Moments(read: nat, lookup: nat, verify: nat, settle: nat)

  predicate InOrder(states: seq<State>, d: Moments) {
    d.read <= d.lookup <= d.verify <= d.settle < |states|
  }

  /** What a delivery answers: each read may end it. */
  ghost function AnswerTo(states: seq<State>, fact: Completion, d: Moments): Reply
    requires InOrder(states, d)
  {
    var flag := ReadIncomplete(states[d.read].t, fact.run, fact.owner);
    var found := LookUpResult(states[d.lookup].t, fact, flag);
    if found.Some? then found.value
    else if !VerifiesCompletion(states[d.verify].t, fact) then InvalidReply
    else SettleCompletion(states[d.settle].t, fact, flag, states[d.settle].now).1
  }

  /** A trace in which action `i` settles the completion. */
  ghost predicate SettledTrace(issued: Issuer, states: seq<State>, fact: Completion, incomplete: bool, i: nat) {
    && FineTrace(issued, states) && SteadyTrace(states) && i < |states| - 1
    && SettlementAt(states[i].t, states[i + 1].t, fact, incomplete, states[i].now)
    && forall j :: i < j < |states| ==> SettledState(states[j], fact, incomplete)
  }

  predicate SettledState(s: State, fact: Completion, incomplete: bool) {
    FactSettled(s.t, fact, incomplete) && UniqueResults(s.t.results)
  }
}

/** Stored texts, subscriptions and redeliveries in every execution. */
module StoredLifecycle {
  import opened Schema
  import opened Coordinator
  import opened ManifestBuilder
  import opened Intake
  import opened Executor
  import opened Machine
  import opened EvidenceSpec
  import opened LifecycleSpec
  import opened Traces
  import opened Lifecycle
  import opened StoredSpec
  import opened StoredWrites
  import opened StoredSteps
  import opened StoredTraces
  import opened RedeliverySpec

  lemma {:induction false} BlankStored(s: State)
    requires Blank(s)
    ensures StoredInv(s.t) && ExecStored(s.t, s.x)
  {
    forall owner: Uuid
      ensures ActiveOf(s.t.subscriptions, owner) == {}
    {
    }
  }

  lemma {:induction false} StoredReachable(w: Settings, issued: Issuer, states: seq<State>, actions: seq<Action>,
      i: nat)
    requires Service(w, issued, states, actions) && ValidSettings(w) && i < |states|
    ensures StoredInv(states[i].t) && ExecStored(states[i].t, states[i].x)
    decreases i
  {
    if i == 0 {
      BlankStored(states[0]);
    } else {
      StoredReachable(w, issued, states, actions, i - 1);
      assert StepOf(w, issued, states, actions, i - 1);
      NextKeepsStored(w, states[i - 1], actions[i - 1]);
    }
  }

  lemma {:induction false} ServiceStays(w: Settings, issued: Issuer, states: seq<State>, actions: seq<Action>)
    requires Service(w, issued, states, actions) && ValidSettings(w)
    ensures StaysTrace(states)
  {
    forall i | 0 <= i < |states| - 1
      ensures StoredStays(states[i].t, states[i + 1].t)
    {
      StoredReachable(w, issued, states, actions, i);
      assert StepOf(w, issued, states, actions, i);
      NextKeepsStored(w, states[i], actions[i]);
    }
  }

  // ---------------------------------------------------------------- texts

  /** Withdrawal reaches the manifests: every message of a manifest that still has its text has a
      revision that is not withdrawn, and text and minimization exclude each other. */
  lemma {:induction false} CitedMessagesAreLive(w: Settings, issued: Issuer, states: seq<State>, actions: seq<Action>,
      i: nat, r: Uuid)
    requires Service(w, issued, states, actions) && ValidSettings(w) && i < |states| && r in states[i].t.manifests
    ensures var m := states[i].t.manifests[r];
      && (m.text.Some? <==> m.minimized.None?)
      && (m.text.Some? ==> forall x :: x in m.messages ==> HasLive(states[i].t.revisions, x))
  {
    StoredReachable(w, issued, states, actions, i);
    assert ManifestOk(states[i].t.revisions, states[i].t.manifests[r]);
  }

  /** Nothing comes back: no row or text regains its content, a withdrawn row has no body, and a withdrawal
      or minimization instant is written at most once. */
  lemma {:induction false} NothingComesBack(w: Settings, issued: Issuer, states: seq<State>, actions: seq<Action>,
      i: nat, j: nat)
    requires Service(w, issued, states, actions) && ValidSettings(w) && i <= j < |states|
    ensures RowsStay(states[i].t.revisions, states[j].t.revisions)
    ensures TextsStay(states[i].t.manifests, states[j].t.manifests)
    ensures var rows := states[j].t.revisions; forall k :: k in rows && rows[k].deleted.Some? ==> rows[k].body.None?
  {
    ServiceStays(w, issued, states, actions);
    StaysThrough(states, i, j);
    StoredReachable(w, issued, states, actions, j);
    var rows := states[j].t.revisions;
    forall k | k in rows
      ensures RowOk(states[j].t.channels, k, rows[k])
    {
    }
  }

  // ---------------------------------------------------------------- subscriptions

  /** An owner never has more than twenty active subscriptions, a listing therefore drops no channel, and
      the first activation never changes. */
  lemma {:induction false} SubscriptionsAreBounded(w: Settings, issued: Issuer, states: seq<State>,
      actions: seq<Action>, i: nat, j: nat, owner: Uuid)
    requires Service(w, issued, states, actions) && ValidSettings(w) && i <= j < |states|
    ensures |ActiveOf(states[i].t.subscriptions, owner)| <= 20
    ensures forall queue :: IsListing(states[i].t, owner, queue) ==> ListsAll(states[i].t, owner, queue)
    ensures ActivationsStay(states[i].t.subscriptions, states[j].t.subscriptions)
  {
    StoredReachable(w, issued, states, actions, i);
    ServiceStays(w, issued, states, actions);
    StaysThrough(states, i, j);
    assert |ActiveOf(states[i].t.subscriptions, owner)| <= ACTIVE_LIMIT;
    forall queue | IsListing(states[i].t, owner, queue)
      ensures ListsAll(states[i].t, owner, queue)
    {
      ListingIsComplete(states[i].t, owner, queue);
    }
  }

  predicate ListsAll(t: Tables, owner: Uuid, queue: seq<Listed>) {
    forall c :: c in Watched(t.subscriptions, owner) ==> exists i :: 0 <= i < |queue| && queue[i].channel == c
  }

  lemma {:induction false} QueueSize(queue: seq<Listed>)
    requires forall i, j :: 0 <= i < j < |queue| ==> queue[i].channel != queue[j].channel
    ensures |set x | x in queue :: x.channel| == |queue|
    decreases |queue|
  {
    if queue != [] {
      var n := |queue| - 1;
      QueueSize(queue[..n]);
      assert queue == queue[..n] + [queue[n]];
      assert (set x | x in queue :: x.channel) == (set x | x in queue[..n] :: x.channel) + {queue[n].channel};
      assert queue[n].channel !in (set x | x in queue[..n] :: x.channel);
    }
  }

  /** A listing of at most twenty channels names every channel an owner watches. */
  lemma {:induction false} ListingIsComplete(t: Tables, owner: Uuid, queue: seq<Listed>)
    requires |ActiveOf(t.subscriptions, owner)| <= ACTIVE_LIMIT && IsListing(t, owner, queue)
    ensures ListsAll(t, owner, queue)
  {
    var watched := Watched(t.subscriptions, owner);
    var named := set x | x in queue :: x.channel;
    WatchedSize(t.subscriptions, owner);
    QueueSize(queue);
    assert named <= watched;
    assert |watched - named| == |watched| - |named|;
    forall c | c in watched
      ensures exists i :: 0 <= i < |queue| && queue[i].channel == c
    {
      assert c in named;
    }
  }

  /** The builder's own checks of limits, links and digests never refuse what the executor selected: only
      the contract can. */
  lemma {:induction false} BuilderNeverRefuses(w: Settings, issued: Issuer, states: seq<State>, actions: seq<Action>,
      i: nat, id: Uuid, accepts: ManifestValue -> bool)
    requires Service(w, issued, states, actions) && ValidSettings(w) && i < |states| && states[i].x.Recorded?
    ensures ContractAll(states[i].x.sources).Ok?
    ensures var x := states[i].x;
      var built := Build(id, x.p.owner, x.p.run, x.p.start, x.p.end, x.sources, true, accepts);
      built.Ok? <==>
        accepts(ManifestValue(id, x.p.owner, x.p.run, x.p.start, x.p.end, SortByKey(ContractAll(x.sources).value)))
  {
    StoredReachable(w, issued, states, actions, i);
  }

  // ---------------------------------------------------------------- redelivery

  lemma {:induction false} LookUpReplays(t: Tables, fact: Completion, incomplete: bool)
    requires UniqueResults(t.results)
    requires fact.run in t.results && t.results[fact.run].id == fact.result && SameResult(t, fact.run, fact, incomplete)
    ensures LookUpResult(t, fact, incomplete) == Some(Replayed)
  {
  }

  lemma {:induction false} SettlementLeaves(t: Tables, t': Tables, fact: Completion, incomplete: bool, now: Instant)
    requires SettlementAt(t, t', fact, incomplete, now)
    ensures FactSettled(t', fact, incomplete)
  {
    assert t'.results == t.results[fact.run := CompletedResult(t, fact, incomplete)];
    assert t'.runs == t.runs[fact.run := t.runs[fact.run].(state := OutcomeOf(fact, incomplete), updated := now)];
    assert t'.manifests == t.manifests;
    assert CompletionDecision(fact) in t'.inbox;
  }

  lemma {:induction false} FactStays(t: Tables, t': Tables, fact: Completion, incomplete: bool)
    requires Steady(t, t') && FactSettled(t, fact, incomplete)
    ensures FactSettled(t', fact, incomplete)
  {
    assert SameManifest(t.manifests[fact.run], t'.manifests[fact.run]);
    assert SteadyRun(t.runs[fact.run], t'.runs[fact.run]);
  }

  lemma {:induction false} SettledFact(w: Settings, issued: Issuer, states: seq<State>, actions: seq<Action>, i: nat,
      h: nat, fact: Completion, j: nat)
    requires Service(w, issued, states, actions) && i < |actions| && i < j < |states|
    requires actions[i] == CompletionSettles(h) && Settles(states[i], h, fact)
    ensures FactSettled(states[j].t, fact, states[i].handlers[h].incomplete)
  {
    var incomplete := states[i].handlers[h].incomplete;
    SettlementHappens(w, issued, states, actions, i, h, fact);
    SettlementLeaves(states[i].t, states[i + 1].t, fact, incomplete, states[i].now);
    ServiceIsFine(w, issued, states, actions);
    SteadyThrough(states, i + 1, j);
    FactStays(states[i + 1].t, states[j].t, fact, incomplete);
  }

  /** The flag a delivery reads is the one of the settlement, read before or after it: the run has its
      manifest when the fact arrives. */
  lemma {:induction false} FlagIsFrozen(states: seq<State>, fact: Completion, incomplete: bool, read: nat, j: nat)
    requires SteadyTrace(states) && read <= j < |states| && FactSettled(states[j].t, fact, incomplete)
    requires fact.run in states[read].t.runs && fact.run in states[read].t.manifests
    ensures ReadIncomplete(states[read].t, fact.run, fact.owner) == incomplete
  {
    SteadyThrough(states, read, j);
    assert SteadyRun(states[read].t.runs[fact.run], states[j].t.runs[fact.run]);
  }

  /** Before a settlement its result is not there. */
  lemma {:induction false} NotFoundBefore(states: seq<State>, fact: Completion, incomplete: bool, j: nat, i: nat)
    requires SteadyTrace(states) && j <= i < |states| - 1
    requires SettlementAt(states[i].t, states[i + 1].t, fact, incomplete, states[i].now)
    ensures LookUpResult(states[j].t, fact, incomplete) == None
  {
    SteadyThrough(states, j, i);
    assert forall r :: r in states[j].t.results ==> states[i].t.results[r] == states[j].t.results[r];
  }

  /** Before a settlement its run waits, so the fact verifies. */
  lemma {:induction false} VerifiesBefore(issued: Issuer, states: seq<State>, fact: Completion, incomplete: bool,
      j: nat, i: nat)
    requires FineTrace(issued, states) && SteadyTrace(states) && j <= i < |states| - 1
    requires fact.run in states[j].t.runs && fact.run in states[j].t.manifests
    requires SettlementAt(states[i].t, states[i + 1].t, fact, incomplete, states[i].now)
    ensures VerifiesCompletion(states[j].t, fact)
  {
    SteadyThrough(states, j, i);
    var t, t' := states[j].t, states[i].t;
    assert SteadyRun(t.runs[fact.run], t'.runs[fact.run]);
    assert SameManifest(t.manifests[fact.run], t'.manifests[fact.run]);
    assert EvidenceAt(t.runs, t.manifests, t.results, t.outbox, fact.run) by { assert Inv(issued, states[j]); }
  }

  lemma {:induction false} HasManifest(issued: Issuer, states: seq<State>, run: Uuid, j: nat, k: nat)
    requires FineTrace(issued, states) && SteadyTrace(states) && j <= k < |states|
    requires RecapRequestOf(run) in states[j].t.outbox
    ensures run in states[k].t.runs && run in states[k].t.manifests
  {
    assert EvidenceAt(states[j].t.runs, states[j].t.manifests, states[j].t.results, states[j].t.outbox, run) by {
      assert Inv(issued, states[j]);
    }
    SteadyThrough(states, j, k);
  }

  lemma {:induction false} ServiceSettles(w: Settings, issued: Issuer, states: seq<State>, actions: seq<Action>, i: nat,
      h: nat, fact: Completion)
    requires Service(w, issued, states, actions) && ValidSettings(w) && i < |actions|
    requires actions[i] == CompletionSettles(h) && Settles(states[i], h, fact)
    ensures SettledTrace(issued, states, fact, states[i].handlers[h].incomplete, i)
  {
    var incomplete := states[i].handlers[h].incomplete;
    SettlementHappens(w, issued, states, actions, i, h, fact);
    ServiceIsFine(w, issued, states, actions);
    forall j | i < j < |states|
      ensures SettledState(states[j], fact, incomplete)
    {
      SettledFact(w, issued, states, actions, i, h, fact, j);
      StoredReachable(w, issued, states, actions, j);
    }
  }

  /** Looked up after the settlement: the lookup answers. */
  lemma {:induction false} LateLookUp(issued: Issuer, states: seq<State>, fact: Completion, incomplete: bool, i: nat,
      d: Moments)
    requires SettledTrace(issued, states, fact, incomplete, i) && InOrder(states, d) && i < d.lookup
    requires ReadIncomplete(states[d.read].t, fact.run, fact.owner) == incomplete
    ensures AnswerTo(states, fact, d) == Replayed
  {
    assert SettledState(states[d.lookup], fact, incomplete);
    LookUpReplays(states[d.lookup].t, fact, incomplete);
  }

  /** Looked up before it: the lookup finds nothing, and the verification decides. */
  lemma {:induction false} EarlyLookUp(issued: Issuer, states: seq<State>, fact: Completion, incomplete: bool, i: nat,
      d: Moments)
    requires SettledTrace(issued, states, fact, incomplete, i) && InOrder(states, d) && d.lookup <= i < d.settle
    requires ReadIncomplete(states[d.read].t, fact.run, fact.owner) == incomplete
    requires fact.run in states[d.verify].t.runs && fact.run in states[d.verify].t.manifests
    ensures AnswerTo(states, fact, d) == if d.verify <= i then Replayed else InvalidReply
  {
    NotFoundBefore(states, fact, incomplete, d.lookup, i);
    if d.verify <= i {
      VerifiesBefore(issued, states, fact, incomplete, d.verify, i);
      assert SettledState(states[d.settle], fact, incomplete);
      SettledReplays(states[d.settle].t, fact, incomplete, states[d.settle].now);
    } else {
      assert SettledState(states[d.verify], fact, incomplete);
      SettledReplays(states[d.verify].t, fact, incomplete, states[d.verify].now);
    }
  }

  lemma {:induction false} TraceAnswers(issued: Issuer, states: seq<State>, fact: Completion, incomplete: bool, i: nat,
      d: Moments)
    requires SettledTrace(issued, states, fact, incomplete, i) && InOrder(states, d) && i < d.settle
    requires RecapRequestOf(fact.run) in states[d.read].t.outbox
    ensures AnswerTo(states, fact, d) == if i < d.lookup || d.verify <= i then Replayed else InvalidReply
  {
    HasManifest(issued, states, fact.run, d.read, d.read);
    HasManifest(issued, states, fact.run, d.read, d.verify);
    assert SettledState(states[d.settle], fact, incomplete);
    FlagIsFrozen(states, fact, incomplete, d.read, d.settle);
    if i < d.lookup {
      LateLookUp(issued, states, fact, incomplete, i, d);
    } else {
      EarlyLookUp(issued, states, fact, incomplete, i, d);
    }
  }

  /** The exact answer to a redelivery. The completion is settled by action `i`; another delivery of it, whose
      flag and reads lie before or after the settlement in any way, answers Replayed if and only if its lookup
      comes after the settlement or its verification before it, and Invalid otherwise. */
  lemma {:induction false} RedeliveryAnswers(w: Settings, issued: Issuer, states: seq<State>, actions: seq<Action>,
      i: nat, h: nat, fact: Completion, h2: nat, d: Moments)
    requires Service(w, issued, states, actions) && ValidSettings(w) && i < |actions|
    requires actions[i] == CompletionSettles(h) && Settles(states[i], h, fact)
    requires InOrder(states, d) && d.read < |actions| && actions[d.read] == CompletionArrives(h2, fact)
    requires i < d.settle
    ensures AnswerTo(states, fact, d) == if i < d.lookup || d.verify <= i then Replayed else InvalidReply
  {
    ServiceSettles(w, issued, states, actions, i, h, fact);
    ArrivesRequested(w, issued, states, actions, d.read, h2, fact);
    TraceAnswers(issued, states, fact, states[i].handlers[h].incomplete, i, d);
  }

  /** After the settlement no delivery of the completion changes anything. */
  lemma {:induction false} RedeliveryChangesNothing(w: Settings, issued: Issuer, states: seq<State>,
      actions: seq<Action>, i: nat, h: nat, fact: Completion, j: nat, flag: bool)
    requires Service(w, issued, states, actions) && ValidSettings(w) && i < |actions| && i < j < |states|
    requires actions[i] == CompletionSettles(h) && Settles(states[i], h, fact)
    ensures SettleCompletion(states[j].t, fact, flag, states[j].now) == (states[j].t, Replayed)
  {
    SettledFact(w, issued, states, actions, i, h, fact, j);
    SettledReplays(states[j].t, fact, states[i].handlers[h].incomplete, states[j].now);
  }

  lemma {:induction false} ArrivesRequested(w: Settings, issued: Issuer, states: seq<State>, actions: seq<Action>,
      j: nat, h: nat, fact: Completion)
    requires Service(w, issued, states, actions) && j < |actions| && actions[j] == CompletionArrives(h, fact)
    ensures RecapRequestOf(fact.run) in states[j].t.outbox
  {
    assert StepOf(w, issued, states, actions, j);
  }

  /** After a settlement the transaction of the same completion changes nothing, whatever flag it was read
      with, and the fact no longer verifies. */
  lemma {:induction false} SettledReplays(t: Tables, fact: Completion, incomplete: bool, now: Instant)
    requires FactSettled(t, fact, incomplete)
    ensures forall flag: bool :: SettleCompletion(t, fact, flag, now) == (t, Replayed)
    ensures !VerifiesCompletion(t, fact)
  {
  }
}
