/** The selection query: the latest body of each message of the window, newest messages first. */
module Selection {
  import opened Schema
  import opened Order
  import opened Revisions
  import opened ManifestBuilder

  /** What the query reads: the rows and channels, the channels the owner watches, the window. */
  datatype View = View(rows: Rows, channels: map<Uuid, Channel>, watched: set<Uuid>, start: Instant, end: Instant)

  predicate UniqueIds(rows: Rows) {
    forall a, b :: a in rows && b in rows && rows[a].id == rows[b].id ==> a == b
  }

  /** Every revision of the window, withdrawn ones included. */
  function InWindow(v: View): set<RevisionKey> {
    set k | k in v.rows && k.channel in v.watched && v.start <= v.rows[k].published < v.end
  }

  /** The revisions that can be cited: live, with a body, of a known channel. */
  function Candidates(v: View): set<RevisionKey> {
    set k | k in InWindow(v) && k.channel in v.channels && v.rows[k].body.Some? && v.rows[k].deleted.None?
  }

  predicate Cited(v: View, id: Uuid) {
    exists k :: k in Candidates(v) && v.rows[k].id == id
  }

  /** The candidate with the identity. */
  ghost function KeyWith(v: View, id: Uuid): (k: RevisionKey)
    requires Cited(v, id)
    ensures k in Candidates(v) && v.rows[k].id == id
  {
    var k :| k in Candidates(v) && v.rows[k].id == id;
    k
  }

  function Observed(row: Revision): Rank {
    Rank(row.observed, row.id, 0, 0)
  }

  function ObservationsOf(v: View, m: Message): set<Rank> {
    set k | k in InWindow(v) && k.Of() == m :: Observed(v.rows[k])
  }

  function IndexIn(order: seq<Rank>, x: Rank): (i: nat)
    requires x in order
    ensures i < |order| && order[i] == x
  {
    if order[0] == x then 0 else 1 + IndexIn(order[1..], x)
  }

  /** `row_number() over (partition by message order by observed_at, revision_id)`. */
  function RowNumber(v: View, k: RevisionKey): nat
    requires k in InWindow(v)
  {
    var ranks := ObservationsOf(v, k.Of());
    AscendingSorts(ranks);
    1 + IndexIn(Ascending(ranks), Observed(v.rows[k]))
  }

  /** `order by channel_id, provider_message_id, observed_at desc, revision_id desc`. */
  function GroupRank(v: View, k: RevisionKey): Rank
    requires k in v.rows
  {
    Rank(k.channel, k.message, -v.rows[k].observed, -v.rows[k].id)
  }

  function Grouped(v: View): seq<Rank> {
    Ascending(set k | k in Candidates(v) :: GroupRank(v, k))
  }

  predicate SameGroup(x: Rank, y: Rank) { x.a == y.a && x.b == y.b }

  /** `distinct on`: the first row of every run of equal (channel, message). */
  function DistinctOn(order: seq<Rank>): (r: seq<Rank>)
    ensures forall x :: x in r ==> x in order
  {
    if order == [] then [] else
      var n := |order| - 1;
      DistinctOn(order[..n]) + (if n > 0 && SameGroup(order[n - 1], order[n]) then [] else [order[n]])
  }

  /** `order by published_at desc, channel_id, provider_message_id desc, revision_id desc`. */
  function NewestRank(v: View, k: RevisionKey): Rank
    requires k in v.rows
  {
    Rank(-v.rows[k].published, k.channel, 0 - k.message as int, -v.rows[k].id)
  }

  lemma {:induction false} GroupedAreCited(v: View)
    ensures forall x :: x in DistinctOn(Grouped(v)) ==> Cited(v, -x.d)
  {
    AscendingSorts(set k | k in Candidates(v) :: GroupRank(v, k));
    forall x | x in Grouped(v)
      ensures Cited(v, -x.d)
    {
      var k :| k in Candidates(v) && x == GroupRank(v, k);
      assert v.rows[k].id == -x.d;
    }
  }

  ghost function NewestRanks(v: View): set<Rank> {
    GroupedAreCited(v);
    RanksOf(v, DistinctOn(Grouped(v)))
  }

  ghost function RanksOf(v: View, latest: seq<Rank>): set<Rank>
    requires forall x :: x in latest ==> Cited(v, -x.d)
  {
    set x | x in latest :: NewestRank(v, KeyWith(v, -x.d))
  }

  /** The messages of the window before the cap, newest first. */
  ghost function Newest(v: View): seq<Rank> {
    Ascending(NewestRanks(v))
  }

  lemma {:induction false} NewestAreCited(v: View, i: nat)
    requires i < |Newest(v)|
    ensures Cited(v, -Newest(v)[i].d)
  {
    AscendingSorts(NewestRanks(v));
    GroupedAreCited(v);
    assert Newest(v)[i] in NewestRanks(v);
  }

  ghost function KeyAt(v: View, i: nat): (k: RevisionKey)
    requires i < |Newest(v)|
    ensures k in Candidates(v)
  {
    NewestAreCited(v, i);
    KeyWith(v, -Newest(v)[i].d)
  }

  /** The first `n` of the order, reversed. */
  ghost function OldestFirst(v: View, n: nat): (keys: seq<RevisionKey>)
    requires n <= |Newest(v)|
    ensures |keys| == n
    ensures forall i :: 0 <= i < n ==> keys[i] in Candidates(v)
  {
    if n == 0 then [] else [KeyAt(v, n - 1)] + OldestFirst(v, n - 1)
  }

  lemma {:induction false} OldestFirstAt(v: View, n: nat, i: nat)
    requires i < n <= |Newest(v)|
    ensures OldestFirst(v, n)[i] == KeyAt(v, n - 1 - i)
    decreases n
  {
    if i > 0 {
      OldestFirstAt(v, n - 1, i - 1);
    }
  }

  /** The kept rows, oldest first: the query cuts the newest `limit` and the caller reverses them. */
  ghost function SelectedKeys(v: View, limit: nat): (keys: seq<RevisionKey>)
    ensures |keys| == Min(limit, |Newest(v)|)
    ensures forall i :: 0 <= i < |keys| ==> keys[i] in Candidates(v)
  {
    OldestFirst(v, Min(limit, |Newest(v)|))
  }

  function SourceOf(v: View, k: RevisionKey): ManifestSource
    requires k in Candidates(v)
  {
    var row := v.rows[k];
    var c := v.channels[k.channel];
    ManifestSource(row.id, k.channel, c.username, c.displayName, k.message, k.digest, row.published, row.link,
                   row.body.value, RowNumber(v, k))
  }

  datatype Selected = Selected(sources: seq<ManifestSource>, eligible: nat)

  /** `select_sources`: the sources in manifest order and the count before the cap, which the query
      returns with each row. */
  ghost function SelectSources(v: View, limit: nat): Selected {
    var keys := SelectedKeys(v, limit);
    Selected(seq(|keys|, i requires 0 <= i < |keys| => SourceOf(v, keys[i])),
             if keys == [] then 0 else |Newest(v)|)
  }

  /** The sources are those of the first `n` of the order, beginning with the oldest of them. */
  ghost predicate TurnsAround(v: View, n: nat, sources: seq<ManifestSource>) {
    && |sources| <= n <= |Newest(v)|
    && forall m :: 0 <= m < |sources| ==> sources[m] == SourceOf(v, KeyAt(v, n - 1 - m))
  }

  // ---------------------------------------------------------------- what the query means

  /** Observed earlier, or at the same instant with the lower identity. */
  predicate ObservedBefore(a: Revision, b: Revision) {
    a.observed < b.observed || (a.observed == b.observed && a.id < b.id)
  }

  /** The candidates that no later candidate of the same message replaces. */
  function Latest(v: View): set<RevisionKey> {
    set k | k in Candidates(v) && IsLatest(v, k)
  }

  predicate IsLatest(v: View, k: RevisionKey)
    requires k in Candidates(v)
  {
    forall o :: o in Candidates(v) && o.Of() == k.Of() && o != k ==> ObservedBefore(v.rows[o], v.rows[k])
  }

  /** The messages of the window that can be cited. */
  function Eligible(v: View): set<Message> {
    set k | k in Candidates(v) :: k.Of()
  }

  function EarlierRevisions(v: View, k: RevisionKey): set<RevisionKey>
    requires k in v.rows
  {
    set o | o in InWindow(v) && o.Of() == k.Of() && ObservedBefore(v.rows[o], v.rows[k])
  }

  /** The row is the first of its group in the listing. */
  predicate FirstOfGroup(order: seq<Rank>, x: Rank) {
    forall y :: y in order && SameGroup(x, y) && y != x ==> Less(x, y)
  }

  /** The keys are latest revisions and carry the first ranks of the order, backwards. */
  predicate RanksBack(v: View, order: seq<Rank>, keys: seq<RevisionKey>) {
    && |keys| <= |order|
    && forall i :: 0 <= i < |keys| ==> keys[i] in Latest(v) && NewestRank(v, keys[i]) == order[|keys| - 1 - i]
  }

  /** The ranks of the rows in the order of the cut. */
  function RanksOn(v: View, keys: set<RevisionKey>): set<Rank>
    requires forall k :: k in keys ==> k in v.rows
  {
    set k | k in keys :: NewestRank(v, k)
  }

  /** One row comes before another in the cut: it was published later, or at the same instant in a lower channel,
      in the same channel under a higher message id, of the same message with a higher identity. */
  predicate Newer(v: View, a: RevisionKey, b: RevisionKey)
    requires a in v.rows && b in v.rows
  {
    var x, y := v.rows[a], v.rows[b];
    || x.published > y.published
    || (x.published == y.published
        && (|| a.channel < b.channel
            || (a.channel == b.channel && (a.message > b.message || (a.message == b.message && x.id > y.id)))))
  }

  /** The source tells the row, its channel, and how many revisions of the window came before it. */
  predicate TellsRow(v: View, x: ManifestSource, k: RevisionKey)
    requires k in v.rows && k.channel in v.channels
  {
    var row, channel := v.rows[k], v.channels[k.channel];
    && x.revision == row.id && x.channel == k.channel && x.message == k.message && x.digest == k.digest
    && x.published == row.published && x.link == row.link && Some(x.body) == row.body
    && x.username == channel.username && x.displayName == channel.displayName
    && x.index == 1 + |EarlierRevisions(v, k)|
  }

  /** The keys are latest revisions of distinct messages, oldest first, as many as the cap or the window
      allows, and no latest revision left out is newer than one of them. */
  predicate KeepsNewest(v: View, limit: nat, keys: seq<RevisionKey>) {
    && |keys| == Min(limit, |Eligible(v)|)
    && (forall i :: 0 <= i < |keys| ==> keys[i] in Latest(v))
    && (forall i, j :: 0 <= i < j < |keys| ==> Newer(v, keys[j], keys[i]) && keys[i].Of() != keys[j].Of())
    && (forall k, i :: k in Latest(v) && k !in keys && 0 <= i < |keys| ==> Newer(v, keys[i], k))
  }
}

/** The selection query keeps the newest messages of the window, one revision of each. */
module SelectionProofs {
  import opened Schema
  import opened Order
  import opened ManifestBuilder
  import opened Selection

  /** Rows of one group are next to each other. */
  lemma {:induction false} GroupsAreContiguous(order: seq<Rank>, i: nat, n: nat)
    requires Sorted(order) && i < n < |order| && SameGroup(order[i], order[n])
    ensures SameGroup(order[n - 1], order[n])
  {
    assert Less(order[n - 1], order[n]);
    assert i == n - 1 || Less(order[i], order[n - 1]);
  }

  lemma {:induction false} LastIsFirst(order: seq<Rank>, n: nat)
    requires Sorted(order) && |order| == n + 1
    ensures FirstOfGroup(order, order[n]) <==> !(n > 0 && SameGroup(order[n - 1], order[n]))
  {
    if n > 0 && SameGroup(order[n - 1], order[n]) {
      assert order[n - 1] in order && Less(order[n - 1], order[n]);
    } else {
      forall y | y in order && SameGroup(order[n], y)
        ensures y == order[n]
      {
        var i :| 0 <= i <= n && order[i] == y;
        if i < n {
          GroupsAreContiguous(order, i, n);
        }
      }
    }
  }

  lemma {:induction false} FirstInHead(order: seq<Rank>, n: nat, x: Rank)
    requires Sorted(order) && |order| == n + 1 && x in order[..n]
    ensures FirstOfGroup(order, x) <==> FirstOfGroup(order[..n], x)
  {
    var i :| 0 <= i < n && order[..n][i] == x;
    assert Less(order[i], order[n]);
    assert order == order[..n] + [order[n]];
  }

  lemma {:induction false} DistinctOnUnfolds(order: seq<Rank>, n: nat, x: Rank)
    requires |order| == n + 1
    ensures x in DistinctOn(order) <==>
      x in DistinctOn(order[..n]) || (x == order[n] && !(n > 0 && SameGroup(order[n - 1], order[n])))
  {
  }

  lemma {:induction false} HeadLacksLast(order: seq<Rank>, n: nat)
    requires Sorted(order) && |order| == n + 1
    ensures order[n] !in order[..n]
  {
    forall i | 0 <= i < n
      ensures order[i] != order[n]
    {
      assert Less(order[i], order[n]);
    }
  }

  /** `distinct on` keeps the first row of every group and no other. */
  lemma {:induction false} DistinctOnKeepsFirst(order: seq<Rank>, x: Rank)
    requires Sorted(order) && x in order
    ensures x in DistinctOn(order) <==> FirstOfGroup(order, x)
    decreases |order|
  {
    var n := |order| - 1;
    DistinctOnUnfolds(order, n, x);
    if x == order[n] {
      LastIsFirst(order, n);
      HeadLacksLast(order, n);
    } else {
      assert x in order[..n] by { assert order == order[..n] + [order[n]]; }
      DistinctOnKeepsFirst(order[..n], x);
      FirstInHead(order, n, x);
    }
  }

  lemma {:induction false} KeyIsUnique(v: View, k: RevisionKey)
    requires UniqueIds(v.rows) && k in Candidates(v)
    ensures Cited(v, v.rows[k].id) && KeyWith(v, v.rows[k].id) == k
  {
  }

  lemma {:induction false} GroupedRanks(v: View, y: Rank)
    ensures y in Grouped(v) <==> exists k :: k in Candidates(v) && GroupRank(v, k) == y
  {
    AscendingSorts(set k | k in Candidates(v) :: GroupRank(v, k));
  }

  /** In one group the earlier rank is the later observation. */
  lemma {:induction false} GroupRanksBack(v: View, k: RevisionKey, o: RevisionKey)
    requires k in Candidates(v) && o in Candidates(v)
    ensures SameGroup(GroupRank(v, k), GroupRank(v, o)) <==> k.Of() == o.Of()
    ensures k.Of() == o.Of() ==>
      (Less(GroupRank(v, k), GroupRank(v, o)) <==> ObservedBefore(v.rows[o], v.rows[k]))
  {
  }

  lemma {:induction false} LatestIsFirst(v: View, k: RevisionKey)
    requires UniqueIds(v.rows) && k in Candidates(v) && IsLatest(v, k)
    ensures FirstOfGroup(Grouped(v), GroupRank(v, k))
  {
    forall y | y in Grouped(v) && SameGroup(GroupRank(v, k), y) && y != GroupRank(v, k)
      ensures Less(GroupRank(v, k), y)
    {
      GroupedRanks(v, y);
      var o :| o in Candidates(v) && GroupRank(v, o) == y;
      GroupRanksBack(v, k, o);
    }
  }

  lemma {:induction false} FirstIsLatest(v: View, k: RevisionKey)
    requires UniqueIds(v.rows) && k in Candidates(v) && FirstOfGroup(Grouped(v), GroupRank(v, k))
    ensures IsLatest(v, k)
  {
    forall o | o in Candidates(v) && o.Of() == k.Of() && o != k
      ensures ObservedBefore(v.rows[o], v.rows[k])
    {
      GroupedRanks(v, GroupRank(v, o));
      GroupRanksBack(v, k, o);
      assert v.rows[o].id != v.rows[k].id;
    }
  }

  /** A candidate survives `distinct on` exactly when no later candidate of its message exists. */
  lemma {:induction false} DistinctKeepsLatest(v: View, k: RevisionKey)
    requires UniqueIds(v.rows) && k in Candidates(v)
    ensures GroupRank(v, k) in DistinctOn(Grouped(v)) <==> IsLatest(v, k)
  {
    AscendingSorts(set o | o in Candidates(v) :: GroupRank(v, o));
    GroupedRanks(v, GroupRank(v, k));
    DistinctOnKeepsFirst(Grouped(v), GroupRank(v, k));
    if IsLatest(v, k) {
      LatestIsFirst(v, k);
    }
    if FirstOfGroup(Grouped(v), GroupRank(v, k)) {
      FirstIsLatest(v, k);
    }
  }

  lemma {:induction false} DistinctIsLatest(v: View, y: Rank) returns (k: RevisionKey)
    requires UniqueIds(v.rows) && y in DistinctOn(Grouped(v))
    ensures k in Latest(v) && Cited(v, -y.d) && KeyWith(v, -y.d) == k
  {
    AscendingSorts(set o | o in Candidates(v) :: GroupRank(v, o));
    k :| k in Candidates(v) && GroupRank(v, k) == y;
    DistinctKeepsLatest(v, k);
    KeyIsUnique(v, k);
  }

  lemma {:induction false} LatestIsNewest(v: View, k: RevisionKey)
    requires UniqueIds(v.rows) && k in Latest(v)
    ensures NewestRank(v, k) in NewestRanks(v)
  {
    GroupedAreCited(v);
    DistinctKeepsLatest(v, k);
    KeyIsUnique(v, k);
    assert GroupRank(v, k) in DistinctOn(Grouped(v));
  }

  lemma {:induction false} NewestOfLatest(v: View, x: Rank) returns (k: RevisionKey)
    requires UniqueIds(v.rows) && x in NewestRanks(v)
    ensures k in Latest(v) && NewestRank(v, k) == x
  {
    GroupedAreCited(v);
    var y :| y in DistinctOn(Grouped(v)) && x == NewestRank(v, KeyWith(v, -y.d));
    k := DistinctIsLatest(v, y);
  }

  lemma {:induction false} NewestAreLatest(v: View)
    requires UniqueIds(v.rows)
    ensures NewestRanks(v) == RanksOn(v, Latest(v))
  {
    forall x | x in NewestRanks(v)
      ensures x in RanksOn(v, Latest(v))
    {
      var k := NewestOfLatest(v, x);
    }
    forall x | x in RanksOn(v, Latest(v))
      ensures x in NewestRanks(v)
    {
      var k :| k in Latest(v) && x == NewestRank(v, k);
      LatestIsNewest(v, k);
    }
  }

  /** A set of ranks that is not empty has a last one. */
  lemma {:induction false} LastOf(s: set<Rank>) returns (top: Rank)
    requires s != {}
    ensures top in s && forall x :: x in s ==> x == top || Less(x, top)
  {
    AscendingSorts(s);
    var order := Ascending(s);
    top := order[|order| - 1];
    assert top in order;
    forall x | x in s
      ensures x == top || Less(x, top)
    {
      assert x in order;
      var i :| 0 <= i < |order| && order[i] == x;
    }
  }

  /** Every citable message has a latest revision. */
  lemma {:induction false} LatestExists(v: View, m: Message) returns (k: RevisionKey)
    requires UniqueIds(v.rows) && m in Eligible(v)
    ensures k in Latest(v) && k.Of() == m
  {
    var own := set o | o in Candidates(v) && o.Of() == m :: Observed(v.rows[o]);
    var w :| w in Candidates(v) && w.Of() == m;
    assert Observed(v.rows[w]) in own;
    var top := LastOf(own);
    k :| k in Candidates(v) && k.Of() == m && Observed(v.rows[k]) == top;
    forall o | o in Candidates(v) && o.Of() == k.Of() && o != k
      ensures ObservedBefore(v.rows[o], v.rows[k])
    {
      assert Observed(v.rows[o]) in own;
      assert v.rows[o].id != v.rows[k].id;
    }
  }

  lemma {:induction false} LatestBeats(v: View, a: RevisionKey, b: RevisionKey)
    requires a in Latest(v) && b in Candidates(v) && a.Of() == b.Of()
    ensures a == b || ObservedBefore(v.rows[b], v.rows[a])
  {
  }

  lemma {:induction false} LatestPerMessage(v: View)
    requires UniqueIds(v.rows)
    ensures |Latest(v)| == |Eligible(v)|
    ensures forall a, b :: a in Latest(v) && b in Latest(v) && a.Of() == b.Of() ==> a == b
  {
    forall a, b | a in Latest(v) && b in Latest(v) && a.Of() == b.Of()
      ensures a == b
    {
      LatestBeats(v, a, b);
      LatestBeats(v, b, a);
    }
    var pairs := map k | k in Latest(v) :: k.Of();
    forall m | m in Eligible(v)
      ensures exists k :: k in pairs && pairs[k] == m
    {
      var k := LatestExists(v, m);
      assert pairs[k] == m;
    }
    SameSize(pairs, Eligible(v));
    assert pairs.Keys == Latest(v);
  }

  lemma {:induction false} SameSize<A, B>(pairs: map<A, B>, image: set<B>)
    requires forall x, y :: x in pairs && y in pairs && pairs[x] == pairs[y] ==> x == y
    requires forall y :: y in image <==> exists x :: x in pairs && pairs[x] == y
    ensures |image| == |pairs.Keys|
    decreases |pairs.Keys|
  {
    if pairs.Keys == {} {
      forall y | y in image
        ensures exists x :: x in pairs.Keys
      {
      }
      assert image == {};
    } else {
      var p :| p in pairs;
      var rest := pairs - {p};
      assert rest.Keys == pairs.Keys - {p};
      forall y | y in image - {pairs[p]}
        ensures exists x :: x in rest && rest[x] == y
      {
        var x :| x in pairs && pairs[x] == y;
        assert x in rest;
      }
      SameSize(rest, image - {pairs[p]});
    }
  }

  /** Different rows have different ranks. */
  lemma {:induction false} RanksOfKeys(v: View, keys: set<RevisionKey>)
    requires UniqueIds(v.rows) && forall k :: k in keys ==> k in v.rows
    ensures |RanksOn(v, keys)| == |keys|
  {
    var pairs := map k | k in keys :: NewestRank(v, k);
    assert pairs.Keys == keys;
    forall x | x in RanksOn(v, keys)
      ensures exists k :: k in pairs && pairs[k] == x
    {
      var k :| k in keys && x == NewestRank(v, k);
      assert pairs[k] == x;
    }
    SameSize(pairs, RanksOn(v, keys));
  }

  lemma {:induction false} NewestSize(v: View)
    requires UniqueIds(v.rows)
    ensures |Newest(v)| == |Eligible(v)|
  {
    NewestAreLatest(v);
    LatestPerMessage(v);
    RanksOfKeys(v, Latest(v));
  }

  /** Position `i` of the order holds the latest revision it ranks. */
  lemma {:induction false} KeyAtRanks(v: View, i: nat)
    requires UniqueIds(v.rows) && i < |Newest(v)|
    ensures KeyAt(v, i) in Latest(v) && NewestRank(v, KeyAt(v, i)) == Newest(v)[i]
  {
    AscendingSorts(NewestRanks(v));
    assert Newest(v)[i] in NewestRanks(v);
    var k := NewestOfLatest(v, Newest(v)[i]);
    KeyIsUnique(v, k);
    NewestAreCited(v, i);
  }

  lemma {:induction false} OneRank(v: View, n: nat, i: nat)
    requires UniqueIds(v.rows) && i < n <= |Newest(v)|
    ensures OldestFirst(v, n)[i] in Latest(v) && NewestRank(v, OldestFirst(v, n)[i]) == Newest(v)[n - 1 - i]
  {
    OldestFirstAt(v, n, i);
    KeyAtRanks(v, n - 1 - i);
  }

  /** Each kept row is the one its position ranks. */
  lemma {:induction false} KeptRanks(v: View, n: nat)
    requires UniqueIds(v.rows) && n <= |Newest(v)|
    ensures RanksBack(v, Newest(v), OldestFirst(v, n))
  {
    var keys := OldestFirst(v, n);
    forall i | 0 <= i < n
      ensures keys[i] in Latest(v) && NewestRank(v, keys[i]) == Newest(v)[n - 1 - i]
    {
      OneRank(v, n, i);
    }
  }

  lemma {:induction false} SameRankSameKey(v: View, a: RevisionKey, b: RevisionKey)
    requires UniqueIds(v.rows) && a in Latest(v) && b in Latest(v) && NewestRank(v, a) == NewestRank(v, b)
    ensures a == b
  {
  }

  /** A latest revision that was not kept is ranked behind every kept one. */
  lemma {:induction false} DroppedIsOlder(v: View, order: seq<Rank>, keys: seq<RevisionKey>, k: RevisionKey, i: nat)
    requires UniqueIds(v.rows) && Sorted(order) && RanksBack(v, order, keys) && i < |keys|
    requires k in Latest(v) && k !in keys && NewestRank(v, k) in order
    ensures keys[i] in v.rows && Newer(v, keys[i], k)
  {
    var n := |keys|;
    var p :| 0 <= p < |order| && order[p] == NewestRank(v, k);
    if p < n {
      assert keys[n - 1 - p] in keys;
      SameRankSameKey(v, keys[n - 1 - p], k);
    }
  }

  lemma {:induction false} KeptOrder(v: View, order: seq<Rank>, keys: seq<RevisionKey>, i: nat, j: nat)
    requires UniqueIds(v.rows) && Sorted(order) && RanksBack(v, order, keys) && i < j < |keys|
    ensures keys[i] in v.rows && keys[j] in v.rows && Newer(v, keys[j], keys[i]) && keys[i].Of() != keys[j].Of()
  {
    assert Less(order[|keys| - 1 - j], order[|keys| - 1 - i]);
    LatestPerMessage(v);
  }

  lemma {:induction false} BackIsNewest(v: View, order: seq<Rank>, keys: seq<RevisionKey>, limit: nat)
    requires UniqueIds(v.rows) && Sorted(order) && RanksBack(v, order, keys)
    requires |keys| == Min(limit, |Eligible(v)|) && forall k :: k in Latest(v) ==> NewestRank(v, k) in order
    ensures KeepsNewest(v, limit, keys)
  {
    forall i, j | 0 <= i < j < |keys|
      ensures Newer(v, keys[j], keys[i]) && keys[i].Of() != keys[j].Of()
    {
      KeptOrder(v, order, keys, i, j);
    }
    forall k, i | k in Latest(v) && k !in keys && 0 <= i < |keys|
      ensures Newer(v, keys[i], k)
    {
      DroppedIsOlder(v, order, keys, k, i);
    }
  }

  /** The kept rows are latest revisions of distinct messages, oldest first, as many as the cap or the
      window allows, and no dropped one is newer than a kept one. */
  lemma {:induction false} SelectionKeepsNewest(v: View, limit: nat)
    requires UniqueIds(v.rows)
    ensures KeepsNewest(v, limit, SelectedKeys(v, limit))
  {
    NewestSize(v);
    KeptRanks(v, Min(limit, |Newest(v)|));
    AscendingSorts(NewestRanks(v));
    forall k | k in Latest(v)
      ensures NewestRank(v, k) in Newest(v)
    {
      LatestIsNewest(v, k);
    }
    BackIsNewest(v, Newest(v), SelectedKeys(v, limit), limit);
  }

  /** The row number is one plus the number of earlier revisions of the window, withdrawn ones included. */
  lemma {:induction false} RowNumberCounts(v: View, k: RevisionKey)
    requires UniqueIds(v.rows) && k in InWindow(v)
    ensures RowNumber(v, k) == 1 + |EarlierRevisions(v, k)|
  {
    var ranks := ObservationsOf(v, k.Of());
    var x := Observed(v.rows[k]);
    AscendingSorts(ranks);
    PositionCounts(ranks, IndexIn(Ascending(ranks), x));
    EarlierAreBefore(v, k);
  }

  lemma {:induction false} EarlierAreBefore(v: View, k: RevisionKey)
    requires UniqueIds(v.rows) && k in InWindow(v)
    ensures |Before(ObservationsOf(v, k.Of()), Observed(v.rows[k]))| == |EarlierRevisions(v, k)|
  {
    var before := Before(ObservationsOf(v, k.Of()), Observed(v.rows[k]));
    var pairs := map o | o in EarlierRevisions(v, k) :: Observed(v.rows[o]);
    assert pairs.Keys == EarlierRevisions(v, k);
    forall x | x in before
      ensures exists o :: o in pairs && pairs[o] == x
    {
      var o :| o in InWindow(v) && o.Of() == k.Of() && Observed(v.rows[o]) == x;
      assert o in pairs && pairs[o] == x;
    }
    SameSize(pairs, before);
  }

  /** `select_sources` refines newest-k: its sources tell the latest live revisions of the newest messages, numbered
      among all revisions; publication never falls along them, nothing left out was published after one of them; and
      the count before the cap exceeds the number of sources exactly when a citable message was dropped. */
  lemma {:induction false} SelectionRefinesNewest(v: View, limit: nat)
    requires UniqueIds(v.rows) && limit > 0
    ensures var s := SelectSources(v, limit);
      var keys := SelectedKeys(v, limit);
      && |s.sources| == |keys| == Min(limit, |Eligible(v)|) && s.eligible == |Eligible(v)|
      && (forall i :: 0 <= i < |keys| ==> keys[i] in Latest(v) && TellsRow(v, s.sources[i], keys[i]))
      && (forall i, j :: 0 <= i < j < |keys| ==> s.sources[i].published <= s.sources[j].published)
      && (forall k, i :: k in Latest(v) && k !in keys && 0 <= i < |keys| ==>
           v.rows[k].published <= s.sources[i].published)
      && (s.eligible > |s.sources| <==> exists m :: m in Eligible(v) && m !in MessagesOf(s.sources))
  {
    var s := SelectSources(v, limit);
    var keys := SelectedKeys(v, limit);
    NewestSize(v);
    SelectionKeepsNewest(v, limit);
    forall i | 0 <= i < |keys|
      ensures TellsRow(v, s.sources[i], keys[i])
    {
      RowNumberCounts(v, keys[i]);
    }
    forall i, j | 0 <= i < j < |keys|
      ensures s.sources[i].published <= s.sources[j].published
    {
      assert Newer(v, keys[j], keys[i]);
    }
    SelectedMessages(v, limit);
    FewerMeansOneOut(MessagesOf(s.sources), Eligible(v));
  }

  lemma {:induction false} FewerMeansOneOut<T>(a: set<T>, b: set<T>)
    requires a <= b
    ensures |b| > |a| <==> exists x :: x in b && x !in a
  {
    if |b| > |a| {
      assert a != b;
    } else {
      SubsetOfSameSize(a, b);
    }
  }

  lemma {:induction false} SubsetOfSameSize<T>(a: set<T>, b: set<T>)
    requires a <= b && |a| >= |b|
    ensures a == b
  {
    assert |b - a| == |b| - |a|;
  }

  /** The sources hold one message per kept row. */
  lemma {:induction false} SelectedMessages(v: View, limit: nat)
    requires UniqueIds(v.rows)
    ensures var s := SelectSources(v, limit).sources;
      |MessagesOf(s)| == |s| && MessagesOf(s) <= Eligible(v)
  {
    var keys := SelectedKeys(v, limit);
    var s := SelectSources(v, limit).sources;
    SelectionKeepsNewest(v, limit);
    forall x | x in s
      ensures Message(x.channel, x.message) in Eligible(v)
    {
      var i :| 0 <= i < |s| && s[i] == x;
      assert Message(x.channel, x.message) == keys[i].Of();
    }
    forall i, j | 0 <= i < j < |s|
      ensures Message(s[i].channel, s[i].message) != Message(s[j].channel, s[j].message)
    {
      assert Message(s[i].channel, s[i].message) == keys[i].Of();
      assert Message(s[j].channel, s[j].message) == keys[j].Of();
    }
    DistinctMessages(s);
  }

  lemma {:induction false} DistinctMessages(s: seq<ManifestSource>)
    requires forall i, j :: 0 <= i < j < |s| ==>
      Message(s[i].channel, s[i].message) != Message(s[j].channel, s[j].message)
    ensures |MessagesOf(s)| == |s|
    decreases |s|
  {
    if s != [] {
      var n := |s| - 1;
      DistinctMessages(s[..n]);
      assert s == s[..n] + [s[n]];
      var m := Message(s[n].channel, s[n].message);
      forall x | x in s[..n]
        ensures Message(x.channel, x.message) != m
      {
        var i :| 0 <= i < n && s[i] == x;
      }
      assert MessagesOf(s) == MessagesOf(s[..n]) + {m};
    }
  }

  /** Of a message that is cited, the revision cited is the latest one that can be. */
  lemma {:induction false} CitedIsLatest(v: View, limit: nat, k: RevisionKey)
    requires UniqueIds(v.rows) && k.Of() in MessagesOf(SelectSources(v, limit).sources)
    ensures k in SelectedKeys(v, limit) <==> k in Latest(v)
  {
    SelectionKeepsNewest(v, limit);
    LatestPerMessage(v);
    var i := SourceOfMessage(v, limit, k.Of());
  }

  lemma {:induction false} SourceOfMessage(v: View, limit: nat, m: Message) returns (i: nat)
    requires m in MessagesOf(SelectSources(v, limit).sources)
    ensures i < |SelectedKeys(v, limit)| && SelectedKeys(v, limit)[i].Of() == m
  {
    var sources := SelectSources(v, limit).sources;
    var x :| x in sources && Message(x.channel, x.message) == m;
    i :| 0 <= i < |sources| && sources[i] == x;
    assert sources[i] == SourceOf(v, SelectedKeys(v, limit)[i]);
  }
}
