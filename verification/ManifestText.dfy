/** What the text of a built manifest says, told on the columns of its sources. */
module TextSpec {
  import opened Schema
  import opened ManifestBuilder

  /** The part of the text between its outer white space. */
  predicate IsTrimmed(text: string, trimmed: string) {
    exists i, j :: 0 <= i <= j <= |text| && Frames(text, i, j) && trimmed == text[i..j]
  }

  /** The code points of white space. */
  const WHITE: set<int> := {
    0x9, 0xA, 0xB, 0xC, 0xD, 0x20, 0x85, 0xA0, 0x1680, 0x2000, 0x2001, 0x2002, 0x2003, 0x2004, 0x2005, 0x2006, 0x2007,
    0x2008, 0x2009, 0x200A, 0x2028, 0x2029, 0x202F, 0x205F, 0x3000 }

  predicate IsWhite(c: char) { c as int in WHITE }

  /** White space before `i` and from `j` on, and none at the ends between them. */
  predicate Frames(text: string, i: nat, j: nat)
    requires i <= j <= |text|
  {
    && (forall k :: 0 <= k < |text| && (k < i || j <= k) ==> IsWhite(text[k]))
    && (i < j ==> !IsWhite(text[i]) && !IsWhite(text[j - 1]))
  }

  function GivenName(s: ManifestSource): string {
    if s.displayName.Some? then s.displayName.value else ""
  }

  /** The label is the trimmed display name, or the username when nothing is left of it, cut after 80 characters. */
  ghost predicate IsLabel(s: ManifestSource, name: string) {
    exists shown :: IsTrimmed(GivenName(s), shown) && IsCut(if shown == "" then s.username else shown, name)
  }

  predicate IsCut(shown: string, name: string) {
    name <= shown && (|shown| <= 80 ==> name == shown) && (|shown| > 80 ==> |name| == 80)
  }

  /** The source of the text tells the given one, whole body and all. */
  ghost predicate Cites(c: ContractSource, s: ManifestSource) {
    && c.revision == s.revision && c.channel == s.channel && c.message == s.message && c.published == s.published
    && c.content == s.body && c.digest == s.digest && c.link == s.link && c.index == s.index
    && IsLabel(s, c.channelLabel)
  }

  /** Each index below the length, once. */
  predicate IsOrder(order: seq<nat>) {
    && (forall i :: 0 <= i < |order| ==> order[i] < |order|)
    && (forall i, j :: 0 <= i < j < |order| ==> order[i] != order[j])
  }

  /** The sources of the text are the given ones in that order. */
  ghost predicate CitesAll(text: seq<ContractSource>, sources: seq<ManifestSource>, order: seq<nat>) {
    && |text| == |sources| == |order| && IsOrder(order)
    && forall i :: 0 <= i < |text| ==> Cites(text[i], sources[order[i]])
  }

  /** The builder's own checks refuse the source. */
  predicate Faulty(s: ManifestSource) {
    || |s.body| > 16_384
    || s.link != TelegramLink(s.username, s.message)
    || s.digest != Sha256(s.body)
  }

  predicate FirstFaulty(sources: seq<ManifestSource>, i: nat)
    requires i < |sources|
  {
    Faulty(sources[i]) && forall j :: 0 <= j < i ==> !Faulty(sources[j])
  }
}

module TextProofs {
  import opened Schema
  import opened ManifestBuilder
  import opened ManifestSpec
  import opened ManifestProofs
  import opened TextSpec

  // ---------------------------------------------------------------- the label

  lemma {:induction false} StartTrimmed(s: string) returns (i: nat)
    ensures i <= |s| && TrimStart(s) == s[i..]
    ensures forall k :: 0 <= k < i ==> IsSpace(s[k])
    ensures i < |s| ==> !IsSpace(s[i])
    decreases |s|
  {
    i := 0;
    if s != [] && IsSpace(s[0]) {
      var m := StartTrimmed(s[1..]);
      i := m + 1;
    }
  }

  lemma {:induction false} EndTrimmed(s: string) returns (j: nat)
    ensures j <= |s| && TrimEnd(s) == s[..j]
    ensures forall k :: j <= k < |s| ==> IsSpace(s[k])
    ensures j > 0 ==> !IsSpace(s[j - 1])
    decreases |s|
  {
    j := |s|;
    if s != [] && IsSpace(s[|s| - 1]) {
      j := EndTrimmed(s[..|s| - 1]);
      assert forall k :: 0 <= k < |s| - 1 ==> s[..|s| - 1][k] == s[k];
    }
  }

  lemma {:induction false} SpaceIsWhite(c: char)
    ensures IsSpace(c) <==> IsWhite(c)
  {
  }

  lemma {:induction false} TrimTrims(s: string)
    ensures IsTrimmed(s, TrimEnd(TrimStart(s)))
  {
    var i := StartTrimmed(s);
    var rest := s[i..];
    var m := EndTrimmed(rest);
    assert forall k :: i <= k < |s| ==> s[k] == rest[k - i];
    forall c: char
      ensures IsSpace(c) <==> IsWhite(c)
    {
      SpaceIsWhite(c);
    }
    assert Frames(s, i, i + m);
    assert TrimEnd(TrimStart(s)) == s[i..i + m];
  }

  /** The label is what it should be. */
  lemma {:induction false} LabelTells(s: ManifestSource)
    ensures IsLabel(s, Label(s))
  {
    TrimTrims(GivenName(s));
    assert TrimEnd(TrimStart("")) == "";
    var shown := TrimEnd(TrimStart(GivenName(s)));
    assert IsCut(if shown == "" then s.username else shown, Label(s));
  }

  // ---------------------------------------------------------------- the sources

  /** Where the members of a permutation come from. */
  lemma {:induction false} OrderOf<T>(p: seq<T>, q: seq<T>) returns (order: seq<nat>)
    requires multiset(p) == multiset(q)
    ensures |order| == |p| == |q| && IsOrder(order)
    ensures forall i :: 0 <= i < |p| ==> p[i] == q[order[i]]
    decreases |p|
  {
    SameLength(p, q);
    order := [];
    if p != [] {
      var n := |p| - 1;
      SameMembers(p, q);
      assert p[n] in q;
      var j :| 0 <= j < |q| && q[j] == p[n];
      SameRest(p, q, n, j);
      assert Without(p, n) == p[..n];
      var head := OrderOf(p[..n], Without(q, j));
      order := seq(n + 1, i requires 0 <= i <= n => if i == n then j else Past(head[i], j));
      forall i | 0 <= i < n
        ensures p[i] == q[order[i]]
      {
        assert p[i] == Without(q, j)[head[i]];
      }
    }
  }

  /** An index of the list without its element at `j`, in the list. */
  function Past(i: nat, j: nat): nat {
    if i < j then i else i + 1
  }

  lemma {:induction false} ContractCites(s: ManifestSource)
    requires ContractOf(s).Ok?
    ensures Cites(ContractOf(s).value, s)
  {
    LabelTells(s);
  }

  /** A built manifest tells its identity, owner, run and window, and its text cites exactly the given sources, each
      with all its columns, in the order of publication, channel, message and index. */
  lemma {:induction false} TextCitesSources(id: Uuid, owner: Uuid, run: Uuid, start: Instant, end: Instant,
      sources: seq<ManifestSource>, windowOk: bool, accepts: ManifestValue -> bool) returns (order: seq<nat>)
    requires Build(id, owner, run, start, end, sources, windowOk, accepts).Ok?
    ensures var m := Build(id, owner, run, start, end, sources, windowOk, accepts).value;
      && m.id == id && m.owner == owner && m.run == run
      && m.text.of == ManifestValue(id, owner, run, start, end, m.text.of.sources)
      && CitesAll(m.text.of.sources, sources, order) && Ascends(m.text.of.sources)
  {
    var contract := ContractAll(sources).value;
    order := OrderOf(SortByKey(contract), contract);
    SortAscends(contract);
    var text := Build(id, owner, run, start, end, sources, windowOk, accepts).value.text.of.sources;
    BuiltSources(id, owner, run, start, end, sources, windowOk, accepts);
    forall i | 0 <= i < |text|
      ensures Cites(text[i], sources[order[i]])
    {
      assert ContractOf(sources[order[i]]).Ok?;
      ContractCites(sources[order[i]]);
    }
  }

  // ---------------------------------------------------------------- the verdict

  lemma {:induction false} FaultyIsRefused(s: ManifestSource)
    ensures ContractOf(s).Err? <==> Faulty(s)
    ensures ContractOf(s).Err? ==> (ContractOf(s).error.Limit? <==> |s.body| > 16_384)
  {
  }

  /** The first faulty source decides the error of a list. */
  lemma {:induction false} FirstFaultDecides(sources: seq<ManifestSource>, i: nat)
    requires i < |sources| && FirstFaulty(sources, i)
    ensures ContractAll(sources) == Err(if |sources[i].body| > 16_384 then Limit else Invalid)
    decreases i
  {
    FaultyIsRefused(sources[0]);
    if i > 0 {
      FirstFaultDecides(sources[1..], i - 1);
    }
  }

  /** The exact verdict: too many sources or channels, a bad window, the first faulty source, and the contract decide
      in this order. */
  lemma {:induction false} BuildAnswers(id: Uuid, owner: Uuid, run: Uuid, start: Instant, end: Instant,
      sources: seq<ManifestSource>, windowOk: bool, accepts: ManifestValue -> bool)
    ensures var built := Build(id, owner, run, start, end, sources, windowOk, accepts);
      var many := |sources| > 100 || |set s | s in sources :: s.channel| > 20;
      var sound := forall i :: 0 <= i < |sources| ==> !Faulty(sources[i]);
      && (many ==> built == Err(Limit))
      && (!many && !windowOk ==> built == Err(Invalid))
      && (!many && windowOk ==> forall i :: 0 <= i < |sources| && FirstFaulty(sources, i) ==>
           built == Err(if |sources[i].body| > 16_384 then Limit else Invalid))
      && (!many && windowOk && sound ==> built.Ok? || built == Err(Invalid))
      && (built.Ok? <==>
           && !many && windowOk && sound
           && accepts(ManifestValue(id, owner, run, start, end, SortByKey(ContractAll(sources).value))))
  {
    forall i | 0 <= i < |sources|
      ensures ContractOf(sources[i]).Err? <==> Faulty(sources[i])
    {
      FaultyIsRefused(sources[i]);
    }
    forall i | 0 <= i < |sources| && FirstFaulty(sources, i)
      ensures ContractAll(sources) == Err(if |sources[i].body| > 16_384 then Limit else Invalid)
    {
      FirstFaultDecides(sources, i);
    }
    assert ChannelsOf(sources) == set s | s in sources :: s.channel;
  }
}
