/** What every stored manifest cites, and what its recap request says. */
module CitationSpec {
  import opened Schema
  import opened Revisions
  import opened ManifestBuilder
  import opened ManifestSpec
  import opened Executor

  /** The source of the text tells a stored row: its content is the body of the digest the row is stored under. */
  predicate CitesRow(rows: Rows, c: ContractSource) {
    var k := RevisionKey(c.channel, c.message, c.digest);
    && k in rows && rows[k].id == c.revision && rows[k].published == c.published && rows[k].link == c.link
    && c.digest == Sha256(c.content)
  }

  /** The text is of this manifest, run and window, and cites stored rows published inside the window. */
  predicate TextTells(rows: Rows, m: Manifest, r: Uuid, run: Run)
    requires m.text.Some?
  {
    var v := m.text.value.of;
    && v == ManifestValue(m.id, m.owner, r, run.start, run.end, v.sources)
    && m.sha == Sha256Hex(m.text.value) && m.sourceCount == |v.sources|
    && m.channelCount == |set c | c in v.sources :: c.channel|
    && m.messages == (set c | c in v.sources :: Message(c.channel, c.message))
    && Ascends(v.sources)
    && forall i :: 0 <= i < |v.sources| ==>
         CitesRow(rows, v.sources[i]) && run.start <= v.sources[i].published < run.end
  }

  /** The request is for the manifest, on behalf of the run. */
  predicate RequestTells(t: Tables, r: Uuid)
    requires r in t.manifests && r in t.runs
  {
    var m := t.manifests[r];
    var k := RecapRequestOf(r);
    k in t.outbox
    && t.outbox[k] ==
         RecapRequest(t.runs[r].owner, t.runs[r].operation, m.id, m.sha, m.sourceCount, m.channelCount)
  }

  predicate ManifestTells(t: Tables, r: Uuid)
    requires r in t.manifests
  {
    && r in t.runs && t.manifests[r].owner == t.runs[r].owner && RequestTells(t, r)
    && (t.manifests[r].text.Some? ==> TextTells(t.revisions, t.manifests[r], r, t.runs[r]))
  }

  predicate ManifestsTell(t: Tables) {
    forall r :: r in t.manifests ==> ManifestTells(t, r)
  }

  /** The source tells a stored row published inside the window. */
  predicate IsStored(rows: Rows, p: Pending, s: ManifestSource) {
    var k := RevisionKey(s.channel, s.message, s.digest);
    && k in rows && rows[k].id == s.revision && rows[k].published == s.published && rows[k].link == s.link
    && p.start <= s.published < p.end
  }

  predicate AllStored(rows: Rows, p: Pending, sources: seq<ManifestSource>) {
    forall i :: 0 <= i < |sources| ==> IsStored(rows, p, sources[i])
  }

  /** What the executor selected is stored. */
  predicate ExecCites(rows: Rows, x: Exec) {
    x.Chose? || x.Recorded? ==> AllStored(rows, x.p, x.sources)
  }
}

module Citations {
  import opened Schema
  import opened Revisions
  import opened Coordinator
  import opened ManifestBuilder
  import opened ManifestProofs
  import opened TextSpec
  import opened TextProofs
  import opened Selection
  import opened Executor
  import opened Machine
  import opened EvidenceSpec
  import opened EvidenceSteps
  import opened LifecycleSpec
  import opened Lifecycle
  import opened StoredSpec
  import opened StoredSteps
  import opened StoredLifecycle
  import opened Deadlines
  import opened RetentionLifecycle
  import opened CitationSpec

  lemma {:induction false} RowStaysCited(rows: Rows, rows': Rows, c: ContractSource)
    requires RowsStay(rows, rows') && CitesRow(rows, c)
    ensures CitesRow(rows', c)
  {
    var k := RevisionKey(c.channel, c.message, c.digest);
    assert RowStays(rows[k], rows'[k]);
  }

  lemma {:induction false} AllStayStored(rows: Rows, rows': Rows, p: Pending, sources: seq<ManifestSource>)
    requires RowsStay(rows, rows') && AllStored(rows, p, sources)
    ensures AllStored(rows', p, sources)
  {
    forall i | 0 <= i < |sources|
      ensures IsStored(rows', p, sources[i])
    {
      assert IsStored(rows, p, sources[i]);
      var k := RevisionKey(sources[i].channel, sources[i].message, sources[i].digest);
      assert RowStays(rows[k], rows'[k]);
    }
  }

  lemma {:induction false} TextStaysTold(rows: Rows, rows': Rows, m: Manifest, r: Uuid, run: Run)
    requires RowsStay(rows, rows') && m.text.Some? && TextTells(rows, m, r, run)
    ensures TextTells(rows', m, r, run)
  {
    var v := m.text.value.of;
    forall i | 0 <= i < |v.sources|
      ensures CitesRow(rows', v.sources[i])
    {
      RowStaysCited(rows, rows', v.sources[i]);
    }
  }

  /** A manifest that was there is told as before. */
  lemma {:induction false} ManifestStaysTold(t: Tables, t': Tables, r: Uuid)
    requires Steady(t, t') && TextsStay(t.manifests, t'.manifests) && RowsStay(t.revisions, t'.revisions)
    requires r in t.manifests && ManifestTells(t, r)
    ensures r in t'.manifests && ManifestTells(t', r)
  {
    var m, m' := t.manifests[r], t'.manifests[r];
    assert SameManifest(m, m') && TextStays(m, m') && SteadyRun(t.runs[r], t'.runs[r]);
    assert RequestTells(t', r);
    if m'.text.Some? {
      TextStaysTold(t.revisions, t'.revisions, m, r, t.runs[r]);
    }
  }

  /** A selection is stored. */
  lemma {:induction false} SelectionStored(t: Tables, p: Pending, limit: nat)
    ensures AllStored(t.revisions, p, SelectSources(ViewOf(t, p), limit).sources)
  {
  }

  /** A built manifest of stored sources tells them. */
  lemma {:induction false} BuiltTells(rows: Rows, id: Uuid, p: Pending, sources: seq<ManifestSource>, windowOk: bool,
      accepts: ManifestValue -> bool, run: Run)
    requires AllStored(rows, p, sources) && run.start == p.start && run.end == p.end
    requires Build(id, p.owner, p.run, p.start, p.end, sources, windowOk, accepts).Ok?
    ensures var m := Build(id, p.owner, p.run, p.start, p.end, sources, windowOk, accepts).value;
      m.run == p.run && m.owner == p.owner && TextTells(rows, ManifestRow(m), p.run, run)
  {
    var m := Build(id, p.owner, p.run, p.start, p.end, sources, windowOk, accepts).value;
    var order := TextCitesSources(id, p.owner, p.run, p.start, p.end, sources, windowOk, accepts);
    MessagesAreOfText(id, p.owner, p.run, p.start, p.end, sources, windowOk, accepts);
    BuildAnswers(id, p.owner, p.run, p.start, p.end, sources, windowOk, accepts);
    var text := m.text.of.sources;
    forall i | 0 <= i < |text|
      ensures CitesRow(rows, text[i]) && p.start <= text[i].published < p.end
    {
      assert Cites(text[i], sources[order[i]]) && IsStored(rows, p, sources[order[i]]);
      assert !Faulty(sources[order[i]]);
    }
  }

  lemma {:induction false} NewManifestTells(t: Tables, m: CanonicalManifest, operation: Uuid, requestOk: bool,
      now: Instant)
    requires m.run in t.runs && t.runs[m.run].operation == operation
    requires TextTells(t.revisions, ManifestRow(m), m.run, t.runs[m.run])
    ensures var t' := CommitManifest(t, m, operation, requestOk, now).0;
      t' == t || (m.run in t'.manifests && ManifestTells(t', m.run) && t'.manifests.Keys == t.manifests.Keys + {m.run})
  {
    var t' := CommitManifest(t, m, operation, requestOk, now).0;
    if t' != t {
      assert t'.manifests[m.run] == ManifestRow(m) && t'.revisions == t.revisions;
      assert t'.runs[m.run] == t.runs[m.run].(state := WaitingRecap, updated := now);
      assert RequestTells(t', m.run);
    }
  }

  /** A commit adds at most the manifest of its run, and that is told. */
  lemma {:induction false} CommitTells(t: Tables, p: Pending, sources: seq<ManifestSource>, incomplete: bool, e: Event,
      now: Instant)
    requires e.Commits? && AllStored(t.revisions, p, sources) && Holds(t.runs, t.manifests, p)
    ensures var t' := Commit(t, p, sources, incomplete, e, now).0;
      forall r :: r in t'.manifests ==> r in t.manifests || ManifestTells(t', r)
  {
    var built := Build(e.manifest, p.owner, p.run, p.start, p.end, sources, e.windowOk, _ => e.accepted);
    FailTexts(t, p.run, p.owner, if sources == [] then ProviderDown else FailureClass.ManifestInvalid, now);
    CompleteEmptyTexts(t, p.run, p.owner, now);
    if sources != [] && built.Ok? {
      BuiltTells(t.revisions, e.manifest, p, sources, e.windowOk, _ => e.accepted, t.runs[p.run]);
      NewManifestTells(t, built.value, p.operation, e.requestOk, now);
    }
  }

  lemma {:induction false} OthersStayTold(t: Tables, t': Tables)
    requires Steady(t, t') && TextsStay(t.manifests, t'.manifests) && RowsStay(t.revisions, t'.revisions)
    requires ManifestsTell(t) && forall r :: r in t'.manifests ==> r in t.manifests || ManifestTells(t', r)
    ensures ManifestsTell(t')
  {
    forall r | r in t.manifests
      ensures r in t'.manifests && ManifestTells(t', r)
    {
      ManifestStaysTold(t, t', r);
    }
  }

  /** Only a commit adds a manifest. */
  lemma {:induction false} NewManifestsTell(w: Settings, issued: Issuer, s: State, a: Action)
    requires Inv(issued, s) && Plausible(issued, s, a) && ValidSettings(w) && ExecCites(s.t.revisions, s.x)
    ensures var t' := Next(w, s, a).t; forall r :: r in t'.manifests ==> r in s.t.manifests || ManifestTells(t', r)
  {
    if a.Executes? {
      if s.x.Recorded? && a.event.Commits? {
        CommitTells(s.t, s.x.p, s.x.sources, s.x.incomplete, a.event, s.now);
      } else if !s.x.Recorded? {
        ExecManifests(s.t, s.x, s.now, a.event, w.sourceCount);
      }
    } else {
      NextKept(w, issued, s, a);
      NextTicks(w, s, a);
      AroundManifests(s.t, Next(w, s, a).t, s.now);
    }
  }

  lemma {:induction false} ExecCitesOn(t: Tables, x: Exec, now: Instant, e: Event, sourceCount: nat)
    requires ExecCites(t.revisions, x)
    ensures ExecCites(t.revisions, ExecStep(t, x, now, e, sourceCount).1)
  {
    if x.Ready? {
      SelectionStored(t, x.p, sourceCount);
    }
  }

  lemma {:induction false} CitesLater(rows: Rows, rows': Rows, x: Exec)
    requires ExecCites(rows, x) && RowsStay(rows, rows')
    ensures ExecCites(rows', x)
  {
    if x.Chose? || x.Recorded? {
      AllStayStored(rows, rows', x.p, x.sources);
    }
  }

  lemma {:induction false} NextCites(w: Settings, s: State, a: Action)
    requires ExecCites(s.t.revisions, s.x) && RowsStay(s.t.revisions, Next(w, s, a).t.revisions)
    ensures ExecCites(Next(w, s, a).t.revisions, Next(w, s, a).x)
  {
    if a.Executes? {
      ExecCitesOn(s.t, s.x, s.now, a.event, w.sourceCount);
    } else {
      assert Next(w, s, a).x == s.x;
    }
    CitesLater(s.t.revisions, Next(w, s, a).t.revisions, Next(w, s, a).x);
  }

  lemma {:induction false} StepTells(w: Settings, issued: Issuer, s: State, a: Action)
    requires Inv(issued, s) && Plausible(issued, s, a) && ValidSettings(w)
    requires StoredInv(s.t) && ExecStored(s.t, s.x) && ManifestsTell(s.t) && ExecCites(s.t.revisions, s.x)
    ensures ManifestsTell(Next(w, s, a).t) && ExecCites(Next(w, s, a).t.revisions, Next(w, s, a).x)
  {
    NextKept(w, issued, s, a);
    NextKeepsStored(w, s, a);
    NewManifestsTell(w, issued, s, a);
    OthersStayTold(s.t, Next(w, s, a).t);
    NextCites(w, s, a);
  }

  lemma {:induction false} StepTellsAt(w: Settings, issued: Issuer, states: seq<State>, actions: seq<Action>, i: nat)
    requires Service(w, issued, states, actions) && ValidSettings(w) && i < |actions|
    requires ManifestsTell(states[i].t) && ExecCites(states[i].t.revisions, states[i].x)
    ensures ManifestsTell(states[i + 1].t) && ExecCites(states[i + 1].t.revisions, states[i + 1].x)
  {
    Reachable(w, issued, states, actions, i);
    StoredReachable(w, issued, states, actions, i);
    assert StepOf(w, issued, states, actions, i);
    StepTells(w, issued, states[i], actions[i]);
  }

  lemma {:induction false} TellsThrough(w: Settings, issued: Issuer, states: seq<State>, actions: seq<Action>, i: nat)
    requires Service(w, issued, states, actions) && ValidSettings(w) && i < |states|
    ensures ManifestsTell(states[i].t) && ExecCites(states[i].t.revisions, states[i].x)
    decreases i
  {
    if i > 0 {
      TellsThrough(w, issued, states, actions, i - 1);
      StepTellsAt(w, issued, states, actions, i - 1);
    }
  }

  /** In every reachable state each manifest is of its run and owner and its recap request asks for exactly it. As
      long as it has its text, the text is the one its hash and counts were taken of, is ordered, and cites stored rows
      of the window: the content of every source is the body of a digest stored for its message. */
  lemma {:induction false} ManifestsCiteRows(w: Settings, issued: Issuer, states: seq<State>, actions: seq<Action>,
      i: nat, r: Uuid)
    requires Service(w, issued, states, actions) && ValidSettings(w) && i < |states| && r in states[i].t.manifests
    ensures ManifestTells(states[i].t, r)
  {
    TellsThrough(w, issued, states, actions, i);
  }
}
