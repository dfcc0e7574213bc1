/** The canonical manifest builder. */
module ManifestBuilder {
  import opened Schema
  import opened Order
  import opened Provider

  const MAX_SOURCES: nat := 100
  const MAX_CHANNELS: nat := 20
  const U128_MAX: int := 0xffff_ffff_ffff_ffff_ffff_ffff_ffff_ffff

  datatype ManifestSource = ManifestSource(
    revision: Uuid,
    channel: Uuid,
    username: string,
    displayName: Option<string>,
    message: MessageId,
    digest: BodyDigest,
    published: Instant,
    link: Link,
    body: Body,
    index: nat)

  datatype CanonicalManifest = CanonicalManifest(
    id: Uuid,
    owner: Uuid,
    run: Uuid,
    text: Text,
    sha: TextDigest,
    sourceCount: nat,
    channelCount: nat,
    messages: seq<Message>)

  datatype ManifestError = Limit | Invalid

  datatype Built<+T> = Ok(value: T) | Err(error: ManifestError)

  /** Unicode white space. */
  predicate IsSpace(c: char) {
    || '\t' <= c <= '\r' || c == ' ' || c == '\U{85}' || c == '\U{A0}' || c == '\U{1680}'
    || '\U{2000}' <= c <= '\U{200A}' || '\U{2028}' <= c <= '\U{2029}' || c == '\U{202F}' || c == '\U{205F}'
    || c == '\U{3000}'
  }

  function TrimStart(s: string): string {
    if s != [] && IsSpace(s[0]) then TrimStart(s[1..]) else s
  }

  function TrimEnd(s: string): string {
    if s != [] && IsSpace(s[|s| - 1]) then TrimEnd(s[..|s| - 1]) else s
  }

  function Label(s: ManifestSource): string {
    var name := if s.displayName.Some? then TrimEnd(TrimStart(s.displayName.value)) else [];
    var shown := if name != [] then name else s.username;
    shown[..Min(80, |shown|)]
  }

  /** One source as the contract states it, after the bound, link and digest checks. */
  function ContractOf(s: ManifestSource): Built<ContractSource> {
    if |s.body| > MAX_CONTENT_BYTES then Err(Limit)
    else if s.link != TelegramLink(s.username, s.message) || s.digest != Sha256(s.body) then Err(Invalid)
    else Ok(ContractSource(s.revision, s.channel, Label(s), s.message, s.published, s.body, s.digest, s.link, s.index))
  }

  /** All sources, or the first error in their order. */
  function ContractAll(sources: seq<ManifestSource>): (r: Built<seq<ContractSource>>)
    ensures r.Ok? <==> forall i :: 0 <= i < |sources| ==> ContractOf(sources[i]).Ok?
    ensures r.Ok? ==> |r.value| == |sources|
    ensures r.Ok? ==> forall i :: 0 <= i < |sources| ==> r.value[i] == ContractOf(sources[i]).value
  {
    if sources == [] then Ok([]) else
      var first := ContractOf(sources[0]);
      if first.Err? then Err(first.error) else
        var rest := ContractAll(sources[1..]);
        if rest.Err? then Err(rest.error) else Ok([first.value] + rest.value)
  }

  function OrderKey(s: ContractSource): Rank {
    Rank(s.published, s.channel, if s.message >= 0 then s.message else U128_MAX, s.index)
  }

  /** Inserts behind every element whose key is not greater, so equal keys keep their order. */
  function Insert(sorted: seq<ContractSource>, s: ContractSource): (r: seq<ContractSource>)
    ensures multiset(r) == multiset(sorted) + multiset{s}
  {
    var n := |sorted|;
    if n == 0 || !Less(OrderKey(s), OrderKey(sorted[n - 1])) then sorted + [s]
    else
      assert sorted == sorted[..n - 1] + [sorted[n - 1]];
      Insert(sorted[..n - 1], s) + [sorted[n - 1]]
  }

  /** The stable sort by the order key. */
  function SortByKey(sources: seq<ContractSource>): (r: seq<ContractSource>)
    ensures multiset(r) == multiset(sources)
  {
    if sources == [] then [] else
      var n := |sources| - 1;
      assert sources == sources[..n] + [sources[n]];
      Insert(SortByKey(sources[..n]), sources[n])
  }

  function ChannelsOf(sources: seq<ManifestSource>): set<Uuid> {
    set s | s in sources :: s.channel
  }

  function MessagesOf(sources: seq<ManifestSource>): set<Message> {
    set s | s in sources :: Message(s.channel, s.message)
  }

  function MessageRank(m: Message): Rank {
    Rank(m.channel, m.id, 0, 0)
  }

  /** The distinct messages in ascending order. */
  function AscendingMessages(messages: set<Message>): (r: seq<Message>)
    ensures |r| == |set m | m in messages :: MessageRank(m)|
  {
    var ranks := set m | m in messages :: MessageRank(m);
    var order := Ascending(ranks);
    AscendingSorts(ranks);
    seq(|order|, i requires 0 <= i < |order| =>
      assert order[i] in ranks;
      Message(order[i].a, order[i].b))
  }

  function KeyOrdered(contract: Built<seq<ContractSource>>): Built<seq<ContractSource>> {
    if contract.Err? then contract else Ok(SortByKey(contract.value))
  }

  /** `ManifestBuilder::build`. Whether the contract accepts the window and the finished value is
      decided by the contract crate, so both verdicts are parameters. */
  function Build(id: Uuid, owner: Uuid, run: Uuid, start: Instant, end: Instant, sources: seq<ManifestSource>,
      windowOk: bool, accepts: ManifestValue -> bool): Built<CanonicalManifest>
  {
    if |sources| > MAX_SOURCES then Err(Limit)
    else if |ChannelsOf(sources)| > MAX_CHANNELS then Err(Limit)
    else if !windowOk then Err(Invalid)
    else
      var contract := KeyOrdered(ContractAll(sources));
      if contract.Err? then Err(contract.error)
      else
        var value := ManifestValue(id, owner, run, start, end, contract.value);
        if !accepts(value) then Err(Invalid)
        else Ok(Sealed(value, |ChannelsOf(sources)|, AscendingMessages(MessagesOf(sources))))
  }

  function Sealed(value: ManifestValue, channels: nat, messages: seq<Message>): CanonicalManifest {
    var text := Canonical(value);
    CanonicalManifest(value.manifest, value.owner, value.run, text, Sha256Hex(text), |value.sources|, channels,
                      messages)
  }
}

/** What the order of the sources can change. */
module ManifestSpec {
  import opened Schema
  import opened Order
  import opened ManifestBuilder

  /** The order key the source will have in the manifest. */
  function SourceKey(s: ManifestSource): Rank {
    Rank(s.published, s.channel, if s.message >= 0 then s.message else U128_MAX, s.index)
  }

  /** Sources that share their order key are the same contract source. */
  predicate KeysDecide(sources: seq<ManifestSource>) {
    forall i, j :: 0 <= i < |sources| && 0 <= j < |sources| && SourceKey(sources[i]) == SourceKey(sources[j]) ==>
      ContractOf(sources[i]) == ContractOf(sources[j])
  }

  /** The sources that the checks of one source refuse are all refused for the same reason. */
  predicate OneError(sources: seq<ManifestSource>) {
    forall x, y :: x in sources && y in sources && ContractOf(x).Err? && ContractOf(y).Err? ==>
      ContractOf(x) == ContractOf(y)
  }

  /** The same of contract sources. */
  predicate Decided(s: seq<ContractSource>) {
    forall x, y :: x in s && y in s && OrderKey(x) == OrderKey(y) ==> x == y
  }

  /** Published earlier, or at the same instant in a lower channel, there under a lower message id, or of the same
      message with a lower index; a negative id counts as the greatest. */
  predicate Precedes(a: ContractSource, b: ContractSource) {
    || a.published < b.published
    || (a.published == b.published && a.channel < b.channel)
    || (a.published == b.published && a.channel == b.channel && a.message >= 0
        && (a.message < b.message || b.message < 0))
    || (a.published == b.published && a.channel == b.channel
        && (a.message == b.message || (a.message < 0 && b.message < 0)) && a.index < b.index)
  }

  /** No element precedes one before it. */
  predicate Ascends(s: seq<ContractSource>) {
    forall i, j :: 0 <= i < j < |s| ==> !Precedes(s[j], s[i])
  }

  predicate MessageBefore(a: Message, b: Message) {
    a.channel < b.channel || (a.channel == b.channel && a.id < b.id)
  }

  /** The elements with the key, in their order. */
  function WithKey(s: seq<ContractSource>, key: Rank): (r: seq<ContractSource>) {
    if s == [] then [] else WithKey(s[..|s| - 1], key) + OneWithKey(s[|s| - 1], key)
  }

  function OneWithKey(x: ContractSource, key: Rank): (r: seq<ContractSource>) {
    if OrderKey(x) == key then [x] else []
  }

  /** The list without its element at the index. */
  function Without<T>(s: seq<T>, i: nat): (r: seq<T>)
    requires i < |s|
  {
    s[..i] + s[i + 1..]
  }

  /** Each element of the second list is the value of the function at the first. */
  ghost predicate Maps<S, T>(f: S -> Built<T>, p: seq<S>, c: seq<T>) {
    |p| == |c| && forall i :: 0 <= i < |p| ==> f(p[i]) == Ok(c[i])
  }

  function Swapped<T>(s: seq<T>, i: nat, j: nat): (r: seq<T>)
    requires i < |s| && j < |s|
    ensures multiset(r) == multiset(s)
  {
    s[i := s[j]][j := s[i]]
  }

  function ChannelsOfText(sources: seq<ContractSource>): set<Uuid> {
    set s | s in sources :: s.channel
  }
}

/** The manifest depends on the order its sources arrive in exactly when two of them share their order
    key without being the same contract source. */
module ManifestProofs {
  import opened Schema
  import opened Order
  import opened Provider
  import opened ManifestBuilder
  import opened ManifestSpec

  // ---------------------------------------------------------------- the sort

  lemma {:induction false} InsertAscends(sorted: seq<ContractSource>, s: ContractSource)
    requires Ascends(sorted)
    ensures Ascends(Insert(sorted, s))
    ensures forall x :: x in Insert(sorted, s) ==> x in sorted || x == s
    decreases |sorted|
  {
    var n := |sorted|;
    if n > 0 && Less(OrderKey(s), OrderKey(sorted[n - 1])) {
      InsertAscends(sorted[..n - 1], s);
      var r := Insert(sorted[..n - 1], s);
      forall i | 0 <= i < |r|
        ensures !Less(OrderKey(sorted[n - 1]), OrderKey(r[i]))
      {
        assert r[i] in r;
      }
    }
  }

  /** The sort leaves the keys ascending. */
  lemma {:induction false} SortAscends(sources: seq<ContractSource>)
    ensures Ascends(SortByKey(sources))
    decreases |sources|
  {
    if sources != [] {
      var n := |sources| - 1;
      SortAscends(sources[..n]);
      InsertAscends(SortByKey(sources[..n]), sources[n]);
    }
  }

  lemma {:induction false} WithKeyLast(s: seq<ContractSource>, x: ContractSource, key: Rank)
    ensures WithKey(s + [x], key) == WithKey(s, key) + OneWithKey(x, key)
  {
    assert (s + [x])[..|s|] == s;
  }

  lemma {:induction false} Exchange<T>(s: seq<T>, a: seq<T>, b: seq<T>)
    requires a == [] || b == []
    ensures s + a + b == s + b + a
  {
  }

  lemma {:induction false} SmallerKeyDiffers(x: ContractSource, y: ContractSource, key: Rank)
    requires Less(OrderKey(x), OrderKey(y))
    ensures OneWithKey(x, key) == [] || OneWithKey(y, key) == []
  {
  }

  lemma {:induction false} InsertIsStable(sorted: seq<ContractSource>, s: ContractSource, key: Rank)
    ensures WithKey(Insert(sorted, s), key) == WithKey(sorted, key) + OneWithKey(s, key)
    decreases |sorted|
  {
    var n := |sorted|;
    if n == 0 || !Less(OrderKey(s), OrderKey(sorted[n - 1])) {
      WithKeyLast(sorted, s, key);
    } else {
      var head, last := sorted[..n - 1], sorted[n - 1];
      InsertIsStable(head, s, key);
      WithKeyLast(Insert(head, s), last, key);
      SmallerKeyDiffers(s, last, key);
      Exchange(WithKey(head, key), OneWithKey(s, key), OneWithKey(last, key));
    }
  }

  /** The sort is stable: sources with the same key keep their order. */
  lemma {:induction false} SortIsStable(sources: seq<ContractSource>, key: Rank)
    ensures WithKey(SortByKey(sources), key) == WithKey(sources, key)
    decreases |sources|
  {
    if sources != [] {
      var n := |sources| - 1;
      var head := sources[..n];
      SortIsStable(head, key);
      InsertIsStable(SortByKey(head), sources[n], key);
    }
  }

  lemma {:induction false} SameMembers<T>(p: seq<T>, q: seq<T>)
    requires multiset(p) == multiset(q)
    ensures forall x :: x in p <==> x in q
  {
    forall x
      ensures x in p <==> x in q
    {
      assert x in p <==> x in multiset(p);
    }
  }

  lemma {:induction false} SameLength<T>(p: seq<T>, q: seq<T>)
    requires multiset(p) == multiset(q)
    ensures |p| == |q|
  {
    assert |p| == |multiset(p)| == |multiset(q)| == |q|;
  }

  lemma {:induction false} RemoveAt<T>(s: seq<T>, i: nat)
    requires i < |s|
    ensures multiset(s) == multiset(Without(s, i)) + multiset{s[i]}
  {
    assert s == s[..i] + [s[i]] + s[i + 1..];
  }

  lemma {:induction false} SameRest<T>(p: seq<T>, q: seq<T>, i: nat, j: nat)
    requires multiset(p) == multiset(q) && i < |p| && j < |q| && p[i] == q[j]
    ensures multiset(Without(p, i)) == multiset(Without(q, j))
  {
    RemoveAt(p, i);
    RemoveAt(q, j);
    var a, b := multiset(Without(p, i)), multiset(Without(q, j));
    assert a == multiset(p) - multiset{p[i]} && b == multiset(q) - multiset{q[j]};
  }

  lemma {:induction false} SameWith<T>(p: seq<T>, q: seq<T>, i: nat, j: nat)
    requires i < |p| && j < |q| && p[i] == q[j] && multiset(Without(p, i)) == multiset(Without(q, j))
    ensures multiset(p) == multiset(q)
  {
    RemoveAt(p, i);
    RemoveAt(q, j);
  }

  lemma {:induction false} MapsWithout<S, T>(f: S -> Built<T>, p: seq<S>, c: seq<T>, i: nat)
    requires Maps(f, p, c) && i < |p|
    ensures Maps(f, Without(p, i), Without(c, i))
  {
  }

  /** A function takes a permutation to a permutation. */
  lemma {:induction false} MapPermutes<S, T>(f: S -> Built<T>, p: seq<S>, q: seq<S>, c: seq<T>, d: seq<T>)
    requires Maps(f, p, c) && Maps(f, q, d) && multiset(p) == multiset(q)
    ensures multiset(c) == multiset(d)
    decreases |p|
  {
    SameMembers(p, q);
    SameLength(p, q);
    if p != [] {
      assert p[0] in q;
      var i :| 0 <= i < |q| && q[i] == p[0];
      SameRest(p, q, 0, i);
      MapsWithout(f, p, c, 0);
      MapsWithout(f, q, d, i);
      MapPermutes(f, Without(p, 0), Without(q, i), Without(c, 0), Without(d, i));
      SameWith(c, d, 0, i);
    }
  }

  lemma {:induction false} HeadDecided(p: seq<ContractSource>, n: nat)
    requires n <= |p| && Decided(p)
    ensures Decided(p[..n])
  {
  }

  lemma {:induction false} LessIsTotal(a: Rank, b: Rank)
    ensures Less(a, b) || Less(b, a) || a == b
  {
  }

  /** Where the key decides the element there is one ascending listing. */
  lemma {:induction false} AscendingIsUnique(p: seq<ContractSource>, q: seq<ContractSource>)
    requires Ascends(p) && Ascends(q) && multiset(p) == multiset(q) && Decided(p)
    ensures p == q
    decreases |p|
  {
    SameLength(p, q);
    if p != [] {
      var n := |p| - 1;
      SameMembers(p, q);
      LastAgrees(p, q);
      SameHead(p, q, n);
      HeadDecided(p, n);
      AscendingIsUnique(p[..n], q[..n]);
      assert p == p[..n] + [p[n]] && q == q[..n] + [q[n]];
    }
  }

  lemma {:induction false} SameHead<T>(p: seq<T>, q: seq<T>, n: nat)
    requires |p| == |q| == n + 1 && p[n] == q[n] && multiset(p) == multiset(q)
    ensures multiset(p[..n]) == multiset(q[..n])
  {
    SameRest(p, q, n, n);
    assert Without(p, n) == p[..n] && Without(q, n) == q[..n];
  }

  lemma {:induction false} LastAgrees(p: seq<ContractSource>, q: seq<ContractSource>)
    requires Ascends(p) && Ascends(q) && Decided(p) && |p| == |q| > 0
    requires forall x :: x in p <==> x in q
    ensures p[|p| - 1] == q[|q| - 1]
  {
    var x, y := p[|p| - 1], q[|q| - 1];
    assert x in q && y in p;
    var i :| 0 <= i < |q| && q[i] == x;
    var j :| 0 <= j < |p| && p[j] == y;
    LessIsTotal(OrderKey(x), OrderKey(y));
  }

  // ---------------------------------------------------------------- permutations

  /** The verdict follows the members of the list. */
  lemma {:induction false} VerdictFollows(p: seq<ManifestSource>, q: seq<ManifestSource>)
    requires forall x :: x in q ==> x in p
    ensures ContractAll(p).Ok? ==> ContractAll(q).Ok?
  {
    if ContractAll(p).Ok? {
      forall i | 0 <= i < |q|
        ensures ContractOf(q[i]).Ok?
      {
        assert q[i] in p;
      }
    }
  }

  /** The contract sources of a permutation are a permutation. */
  lemma {:induction false} ContractPermutes(p: seq<ManifestSource>, q: seq<ManifestSource>)
    requires multiset(p) == multiset(q) && ContractAll(p).Ok?
    ensures ContractAll(q).Ok? && multiset(ContractAll(p).value) == multiset(ContractAll(q).value)
  {
    SameMembers(p, q);
    VerdictFollows(p, q);
    ContractMaps(p);
    ContractMaps(q);
    MapPermutes(ContractOf, p, q, ContractAll(p).value, ContractAll(q).value);
  }

  lemma {:induction false} ContractMaps(p: seq<ManifestSource>)
    requires ContractAll(p).Ok?
    ensures Maps(ContractOf, p, ContractAll(p).value)
  {
    var c := ContractAll(p).value;
    forall i | 0 <= i < |p|
      ensures ContractOf(p[i]) == Ok(c[i])
    {
      assert ContractOf(p[i]).Ok?;
    }
  }

  lemma {:induction false} KeyOf(s: ManifestSource)
    requires ContractOf(s).Ok?
    ensures OrderKey(ContractOf(s).value) == SourceKey(s)
  {
  }

  lemma {:induction false} SourceDecides(sources: seq<ManifestSource>, i: nat, j: nat)
    requires i < |sources| && j < |sources| && KeysDecide(sources)
    requires ContractOf(sources[i]).Ok? && ContractOf(sources[j]).Ok?
    requires OrderKey(ContractOf(sources[i]).value) == OrderKey(ContractOf(sources[j]).value)
    ensures ContractOf(sources[i]) == ContractOf(sources[j])
  {
    KeyOf(sources[i]);
    KeyOf(sources[j]);
  }

  lemma {:induction false} ContractDecided(sources: seq<ManifestSource>)
    requires ContractAll(sources).Ok? && KeysDecide(sources)
    ensures Decided(ContractAll(sources).value)
  {
    var c := ContractAll(sources).value;
    forall x, y | x in c && y in c && OrderKey(x) == OrderKey(y)
      ensures x == y
    {
      var i :| 0 <= i < |c| && c[i] == x;
      var j :| 0 <= j < |c| && c[j] == y;
      SourceDecides(sources, i, j);
    }
  }

  lemma {:induction false} SortsAlike(p: seq<ManifestSource>, q: seq<ManifestSource>)
    requires multiset(p) == multiset(q) && ContractAll(p).Ok? && KeysDecide(p)
    ensures ContractAll(q).Ok? && SortByKey(ContractAll(p).value) == SortByKey(ContractAll(q).value)
  {
    ContractPermutes(p, q);
    var c, d := ContractAll(p).value, ContractAll(q).value;
    ContractDecided(p);
    SortAscends(c);
    SortAscends(d);
    SameMembers(SortByKey(c), c);
    AscendingIsUnique(SortByKey(c), SortByKey(d));
  }

  /** The builder looks at the size, the channels, the messages and the sorted contract sources only. */
  lemma {:induction false} BuildFollows(id: Uuid, owner: Uuid, run: Uuid, start: Instant, end: Instant,
      p: seq<ManifestSource>, q: seq<ManifestSource>, windowOk: bool, accepts: ManifestValue -> bool)
    requires |p| == |q| && ChannelsOf(p) == ChannelsOf(q) && MessagesOf(p) == MessagesOf(q)
    requires var c, d := KeyOrdered(ContractAll(p)), KeyOrdered(ContractAll(q));
      (c.Ok? <==> d.Ok?) && (c.Ok? ==> c == d)
    ensures var a := Build(id, owner, run, start, end, p, windowOk, accepts);
      var b := Build(id, owner, run, start, end, q, windowOk, accepts);
      (a.Ok? <==> b.Ok?) && (a.Ok? ==> a == b)
  {
  }

  lemma {:induction false} SameSets(p: seq<ManifestSource>, q: seq<ManifestSource>)
    requires forall x :: x in p <==> x in q
    ensures ChannelsOf(p) == ChannelsOf(q) && MessagesOf(p) == MessagesOf(q)
  {
  }

  /** Where the keys decide, any permutation is built or refused alike, and when it is built the sorted
      sources, text, digest, counts and message list are the same. */
  lemma {:induction false} OrderDoesNotMatter(id: Uuid, owner: Uuid, run: Uuid, start: Instant, end: Instant,
      p: seq<ManifestSource>, q: seq<ManifestSource>, windowOk: bool, accepts: ManifestValue -> bool)
    requires multiset(p) == multiset(q) && KeysDecide(p)
    ensures var a := Build(id, owner, run, start, end, p, windowOk, accepts);
      var b := Build(id, owner, run, start, end, q, windowOk, accepts);
      (a.Ok? <==> b.Ok?) && (a.Ok? ==> a == b)
  {
    SameMembers(p, q);
    SameLength(p, q);
    SameSets(p, q);
    VerdictFollows(p, q);
    VerdictFollows(q, p);
    if ContractAll(p).Ok? {
      SortsAlike(p, q);
    }
    BuildFollows(id, owner, run, start, end, p, q, windowOk, accepts);
  }

  // ---------------------------------------------------------------- order that shows

  /** The position of an element among those with its key is the number of them before it. */
  lemma {:induction false} KeyPosition(s: seq<ContractSource>, i: nat)
    requires i < |s|
    ensures var key := OrderKey(s[i]);
      |WithKey(s[..i], key)| < |WithKey(s, key)| && WithKey(s, key)[|WithKey(s[..i], key)|] == s[i]
    decreases |s|
  {
    var n := |s| - 1;
    if i < n {
      KeyPosition(s[..n], i);
      assert s[..n][..i] == s[..i];
    }
  }

  /** Two elements that share a key and differ are told apart by their order, wherever they stand. */
  lemma {:induction false} SortShowsOrder(s: seq<ContractSource>, i: nat, j: nat)
    requires i < j < |s| && OrderKey(s[i]) == OrderKey(s[j]) && s[i] != s[j]
    ensures SortByKey(Swapped(s, i, j)) != SortByKey(s)
  {
    var t := Swapped(s, i, j);
    var key := OrderKey(s[i]);
    SortIsStable(s, key);
    SortIsStable(t, key);
    KeyPosition(s, i);
    KeyPosition(t, i);
    assert t[..i] == s[..i];
  }

  /** The text of a built manifest holds the contract sources in key order. */
  lemma {:induction false} BuiltSources(id: Uuid, owner: Uuid, run: Uuid, start: Instant, end: Instant,
      sources: seq<ManifestSource>, windowOk: bool, accepts: ManifestValue -> bool)
    ensures var b := Build(id, owner, run, start, end, sources, windowOk, accepts);
      b.Ok? ==> ContractAll(sources).Ok? && b.value.text.of.sources == SortByKey(ContractAll(sources).value)
  {
  }

  lemma {:induction false} MapSwaps<S, T>(f: S -> Built<T>, p: seq<S>, c: seq<T>, d: seq<T>, i: nat, j: nat)
    requires i < |p| && j < |p| && Maps(f, p, c) && Maps(f, Swapped(p, i, j), d)
    ensures d == Swapped(c, i, j)
  {
    forall m | 0 <= m < |p|
      ensures d[m] == Swapped(c, i, j)[m]
    {
      assert f(Swapped(p, i, j)[m]) == Ok(d[m]);
    }
  }

  lemma {:induction false} ContractSwaps(p: seq<ManifestSource>, i: nat, j: nat)
    requires i < |p| && j < |p| && ContractAll(p).Ok?
    ensures ContractAll(Swapped(p, i, j)).Ok?
    ensures ContractAll(Swapped(p, i, j)).value == Swapped(ContractAll(p).value, i, j)
  {
    var q := Swapped(p, i, j);
    SameMembers(p, q);
    VerdictFollows(p, q);
    ContractMaps(p);
    ContractMaps(q);
    MapSwaps(ContractOf, p, ContractAll(p).value, ContractAll(q).value, i, j);
  }

  /** Distinct keys are needed: anywhere in a list, two sources that share their order key and differ as
      contract sources keep their order of arrival in the text. */
  lemma {:induction false} EqualKeysShowArrivalOrder(id: Uuid, owner: Uuid, run: Uuid, start: Instant, end: Instant,
      p: seq<ManifestSource>, i: nat, j: nat, windowOk: bool, accepts: ManifestValue -> bool)
    requires i < j < |p| && SourceKey(p[i]) == SourceKey(p[j]) && ContractOf(p[i]) != ContractOf(p[j])
    requires Build(id, owner, run, start, end, p, windowOk, accepts).Ok?
    ensures Build(id, owner, run, start, end, Swapped(p, i, j), windowOk, accepts) !=
      Build(id, owner, run, start, end, p, windowOk, accepts)
  {
    BuiltSources(id, owner, run, start, end, p, windowOk, accepts);
    BuiltSources(id, owner, run, start, end, Swapped(p, i, j), windowOk, accepts);
    ContractSwaps(p, i, j);
    SortShowsOrder(ContractAll(p).value, i, j);
  }

  /** The exact condition: a built manifest is the same for every permutation of its sources if and only if
      sources that share their order key are the same contract source. */
  lemma {:induction false} OrderMattersExactlyWhen(id: Uuid, owner: Uuid, run: Uuid, start: Instant, end: Instant,
      p: seq<ManifestSource>, windowOk: bool, accepts: ManifestValue -> bool)
    requires Build(id, owner, run, start, end, p, windowOk, accepts).Ok?
    ensures KeysDecide(p) <==>
      forall q: seq<ManifestSource> :: multiset(q) == multiset(p) ==>
        Build(id, owner, run, start, end, q, windowOk, accepts) ==
        Build(id, owner, run, start, end, p, windowOk, accepts)
  {
    if KeysDecide(p) {
      forall q: seq<ManifestSource> | multiset(q) == multiset(p)
        ensures Build(id, owner, run, start, end, q, windowOk, accepts) ==
          Build(id, owner, run, start, end, p, windowOk, accepts)
      {
        OrderDoesNotMatter(id, owner, run, start, end, p, q, windowOk, accepts);
      }
    } else {
      var i, j :| 0 <= i < |p| && 0 <= j < |p|
        && SourceKey(p[i]) == SourceKey(p[j]) && ContractOf(p[i]) != ContractOf(p[j]);
      var low, high := Min(i, j), if i < j then j else i;
      EqualKeysShowArrivalOrder(id, owner, run, start, end, p, low, high, windowOk, accepts);
      assert multiset(Swapped(p, low, high)) == multiset(p);
    }
  }

  // ---------------------------------------------------------------- which error

  /** The error of a list is that of one of its sources. */
  lemma {:induction false} ErrorOfOne(p: seq<ManifestSource>) returns (i: nat)
    requires ContractAll(p).Err?
    ensures i < |p| && ContractOf(p[i]).Err? && ContractAll(p).error == ContractOf(p[i]).error
    decreases |p|
  {
    i := 0;
    if ContractOf(p[0]).Ok? {
      var m := ErrorOfOne(p[1..]);
      i := m + 1;
    }
  }

  /** A refused source in front decides the error. */
  lemma {:induction false} HeadDecidesError(p: seq<ManifestSource>)
    requires p != [] && ContractOf(p[0]).Err?
    ensures ContractAll(p) == Err(ContractOf(p[0]).error)
  {
  }

  lemma {:induction false} SameError(p: seq<ManifestSource>, q: seq<ManifestSource>)
    requires multiset(p) == multiset(q) && ContractAll(p).Err? && OneError(p)
    ensures ContractAll(q) == ContractAll(p)
  {
    SameMembers(p, q);
    VerdictFollows(q, p);
    var i := ErrorOfOne(p);
    var j := ErrorOfOne(q);
    assert p[i] in p && q[j] in p;
  }

  /** What a refused list is answered: the limits and the window come first, then its first refused source. */
  lemma {:induction false} Refusal(id: Uuid, owner: Uuid, run: Uuid, start: Instant, end: Instant,
      p: seq<ManifestSource>, windowOk: bool, accepts: ManifestValue -> bool)
    requires ContractAll(p).Err?
    ensures Build(id, owner, run, start, end, p, windowOk, accepts) ==
      if |p| > MAX_SOURCES || |ChannelsOf(p)| > MAX_CHANNELS then Err(Limit)
      else if !windowOk then Err(Invalid)
      else Err(ContractAll(p).error)
  {
  }

  /** Two refused sources with different errors: the list answers with the one that stands in front. */
  lemma {:induction false} FrontIsAnswered(id: Uuid, owner: Uuid, run: Uuid, start: Instant, end: Instant,
      p: seq<ManifestSource>, i: nat, windowOk: bool, accepts: ManifestValue -> bool)
    requires i < |p| && ContractOf(p[i]).Err?
    requires |p| <= MAX_SOURCES && |ChannelsOf(p)| <= MAX_CHANNELS && windowOk
    ensures Build(id, owner, run, start, end, Swapped(p, 0, i), windowOk, accepts) == Err(ContractOf(p[i]).error)
  {
    var q := Swapped(p, 0, i);
    SameMembers(p, q);
    SameSets(p, q);
    HeadDecidesError(q);
    Refusal(id, owner, run, start, end, q, windowOk, accepts);
  }

  /** The exact condition: a list with a refused source is answered with the same error in every order if and
      only if its refused sources have one error, or a limit or the window refuses it before they are looked at. */
  lemma {:induction false} ErrorMattersExactlyWhen(id: Uuid, owner: Uuid, run: Uuid, start: Instant, end: Instant,
      p: seq<ManifestSource>, windowOk: bool, accepts: ManifestValue -> bool)
    requires ContractAll(p).Err?
    ensures |p| > MAX_SOURCES || |ChannelsOf(p)| > MAX_CHANNELS || !windowOk || OneError(p) <==>
      forall q: seq<ManifestSource> :: multiset(q) == multiset(p) ==>
        Build(id, owner, run, start, end, q, windowOk, accepts) ==
        Build(id, owner, run, start, end, p, windowOk, accepts)
  {
    if |p| > MAX_SOURCES || |ChannelsOf(p)| > MAX_CHANNELS || !windowOk || OneError(p) {
      forall q: seq<ManifestSource> | multiset(q) == multiset(p)
        ensures Build(id, owner, run, start, end, q, windowOk, accepts) ==
          Build(id, owner, run, start, end, p, windowOk, accepts)
      {
        SameMembers(p, q);
        SameLength(p, q);
        SameSets(p, q);
        VerdictFollows(q, p);
        if OneError(p) {
          SameError(p, q);
        }
        Refusal(id, owner, run, start, end, p, windowOk, accepts);
        Refusal(id, owner, run, start, end, q, windowOk, accepts);
      }
    } else {
      var x, y :| x in p && y in p && ContractOf(x).Err? && ContractOf(y).Err? && ContractOf(x) != ContractOf(y);
      var i :| 0 <= i < |p| && p[i] == x;
      var j :| 0 <= j < |p| && p[j] == y;
      FrontIsAnswered(id, owner, run, start, end, p, i, windowOk, accepts);
      FrontIsAnswered(id, owner, run, start, end, p, j, windowOk, accepts);
      assert multiset(Swapped(p, 0, i)) == multiset(p) && multiset(Swapped(p, 0, j)) == multiset(p);
    }
  }

  /** A concrete pair: one body over the bound and one wrong link, answered by whichever comes first. */
  lemma {:induction false} TwoErrorsShowOrder(accepts: ManifestValue -> bool)
    ensures var long := Posted(1).(body := seq(MAX_CONTENT_BYTES + 1, _ => 1));
      var astray := Posted(2).(link := TelegramLink("channel", 3));
      && Build(0, 0, 0, 0, 1, [long, astray], true, accepts) == Err(Limit)
      && Build(0, 0, 0, 0, 1, [astray, long], true, accepts) == Err(Invalid)
  {
    var long := Posted(1).(body := seq(MAX_CONTENT_BYTES + 1, _ => 1));
    var astray := Posted(2).(link := TelegramLink("channel", 3));
    assert ChannelsOf([long, astray]) == {0};
    assert Swapped([long, astray], 0, 0) == [long, astray] && Swapped([long, astray], 0, 1) == [astray, long];
    FrontIsAnswered(0, 0, 0, 0, 1, [long, astray], 0, true, accepts);
    FrontIsAnswered(0, 0, 0, 0, 1, [long, astray], 1, true, accepts);
  }

  /** Distinct messages with non-negative ids have distinct order keys, so their keys decide. */
  lemma {:induction false} DistinctMessagesSuffice(sources: seq<ManifestSource>)
    requires forall i :: 0 <= i < |sources| ==> sources[i].message >= 0
    requires forall i, j :: 0 <= i < j < |sources| ==>
      Message(sources[i].channel, sources[i].message) != Message(sources[j].channel, sources[j].message)
    ensures forall i, j :: 0 <= i < j < |sources| ==> SourceKey(sources[i]) != SourceKey(sources[j])
    ensures KeysDecide(sources)
  {
    forall i, j | 0 <= i < j < |sources|
      ensures SourceKey(sources[i]) != SourceKey(sources[j])
    {
      assert Message(sources[i].channel, sources[i].message) != Message(sources[j].channel, sources[j].message);
    }
  }

  /** Message `id` of one channel, published at one instant. */
  function Posted(id: MessageId): ManifestSource {
    ManifestSource(1, 0, "channel", None, id, Sha256([1]), 0, TelegramLink("channel", id), [1], 1)
  }

  /** A concrete pair: the messages -1 and -2 of one channel, published at the same instant. */
  lemma {:induction false} NegativeIdsKeepArrivalOrder(accepts: ManifestValue -> bool)
    requires forall v :: accepts(v)
    ensures Build(0, 0, 0, 0, 1, [Posted(-1), Posted(-2)], true, accepts) !=
      Build(0, 0, 0, 0, 1, [Posted(-2), Posted(-1)], true, accepts)
  {
    var p := [Posted(-1), Posted(-2)];
    assert ChannelsOf(p) == {0};
    PostedIsFine(-1);
    PostedIsFine(-2);
    assert Swapped(p, 0, 1) == [Posted(-2), Posted(-1)];
    EqualKeysShowArrivalOrder(0, 0, 0, 0, 1, p, 0, 1, true, accepts);
  }

  lemma {:induction false} PostedIsFine(id: MessageId)
    ensures ContractOf(Posted(id)).Ok? && ContractOf(Posted(id)).value.message == id
  {
  }

  /** The recorded messages are the messages of the text, each once, ascending. */
  lemma {:induction false} MessagesAreOfText(id: Uuid, owner: Uuid, run: Uuid, start: Instant, end: Instant,
      sources: seq<ManifestSource>, windowOk: bool, accepts: ManifestValue -> bool)
    requires Build(id, owner, run, start, end, sources, windowOk, accepts).Ok?
    ensures var m := Build(id, owner, run, start, end, sources, windowOk, accepts).value;
      && (set x | x in m.messages) == ContractMessagesOf(m.text.of.sources)
      && (set x | x in m.messages) == MessagesOf(sources)
      && (forall i, j :: 0 <= i < j < |m.messages| ==> MessageBefore(m.messages[i], m.messages[j]))
      && m.sourceCount == |m.text.of.sources| && m.channelCount == |ChannelsOfText(m.text.of.sources)|
      && m.sha == Sha256Hex(m.text)
  {
    var contract := ContractAll(sources).value;
    var sorted := SortByKey(contract);
    SameMembers(sorted, contract);
    SameLength(sorted, contract);
    AscendingIsAll(MessagesOf(sources));
    ContractMessages(sources);
    assert ContractMessagesOf(sorted) == ContractMessagesOf(contract);
    ContractChannels(sources);
    assert ChannelsOfText(sorted) == ChannelsOfText(contract);
  }

  lemma {:induction false} ContractChannels(sources: seq<ManifestSource>)
    requires ContractAll(sources).Ok?
    ensures ChannelsOfText(ContractAll(sources).value) == ChannelsOf(sources)
  {
    var contract := ContractAll(sources).value;
    forall i | 0 <= i < |sources|
      ensures contract[i].channel == sources[i].channel && contract[i] in contract && sources[i] in sources
    {
    }
    forall x | x in ChannelsOf(sources)
      ensures x in ChannelsOfText(contract)
    {
      var s :| s in sources && x == s.channel;
      var i :| 0 <= i < |sources| && sources[i] == s;
      assert contract[i] in contract;
    }
  }

  function ContractMessagesOf(sources: seq<ContractSource>): set<Message> {
    set s | s in sources :: Message(s.channel, s.message)
  }

  lemma {:induction false} ContractMessages(sources: seq<ManifestSource>)
    requires ContractAll(sources).Ok?
    ensures ContractMessagesOf(ContractAll(sources).value) == MessagesOf(sources)
  {
    var contract := ContractAll(sources).value;
    forall i | 0 <= i < |sources|
      ensures contract[i].channel == sources[i].channel && contract[i].message == sources[i].message
      ensures contract[i] in contract && sources[i] in sources
    {
    }
    forall x | x in MessagesOf(sources)
      ensures x in ContractMessagesOf(contract)
    {
      var s :| s in sources && x == Message(s.channel, s.message);
      var i :| 0 <= i < |sources| && sources[i] == s;
      assert contract[i] in contract;
    }
  }

  lemma {:induction false} AscendingIsAll(messages: set<Message>)
    ensures (set x | x in AscendingMessages(messages)) == messages
    ensures forall i, j :: 0 <= i < j < |AscendingMessages(messages)| ==>
      Less(MessageRank(AscendingMessages(messages)[i]), MessageRank(AscendingMessages(messages)[j]))
  {
    var ranks := set m | m in messages :: MessageRank(m);
    var order := Ascending(ranks);
    AscendingSorts(ranks);
    var r := AscendingMessages(messages);
    forall i | 0 <= i < |order|
      ensures r[i] in messages && MessageRank(r[i]) == order[i]
    {
      assert order[i] in ranks;
    }
    forall m | m in messages
      ensures m in r
    {
      assert MessageRank(m) in order;
      var i :| 0 <= i < |order| && order[i] == MessageRank(m);
      assert r[i] == m;
    }
  }
}
