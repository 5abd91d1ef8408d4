/**
 * The non-rendering rules of the dashboard component (frontend/src/App.jsx):
 * the JavaScript order on strings and numbers, the three-way sort comparator
 * and the copy-sort it drives, the per-product aggregation behind the chart,
 * the sort-toggle state machine and the state update of a fetch.
 */
module Dashboard {
  import opened Wrappers

  /** One row of the asset list, with the fields the table and the chart read. */
  datatype Asset = Asset(
    id: int,
    name: string,
    version: string,
    product: string,
    priorityScore: real,
    vulnerabilitiesCount: int)

  /** The field names the five column headers pass to `handleSort`. */
  datatype SortKey = Name | Version | Product | PriorityScore | VulnerabilitiesCount

  /** The two values `sortDirection` takes: 'asc' and 'desc'. */
  datatype Direction = Asc | Desc

  // ---------------------------------------------------------------------------
  // JavaScript `<` on strings: lexicographic, a proper prefix is smaller
  // ---------------------------------------------------------------------------

  predicate StrLess(a: string, b: string)
    decreases |a|
  {
    if |a| == 0 then |b| > 0
    else if |b| == 0 then false
    else if a[0] != b[0] then a[0] < b[0]
    else StrLess(a[1..], b[1..])
  }

  lemma {:induction false} StrLessIrreflexive(a: string)
    ensures !StrLess(a, a)
    decreases |a|
  {
    if |a| > 0 {
      StrLessIrreflexive(a[1..]);
    }
  }

  lemma {:induction false} StrLessAsymmetric(a: string, b: string)
    requires StrLess(a, b)
    ensures !StrLess(b, a)
    decreases |a|
  {
    if |a| > 0 && a[0] == b[0] {
      StrLessAsymmetric(a[1..], b[1..]);
    }
  }

  lemma {:induction false} StrLessTransitive(a: string, b: string, c: string)
    requires StrLess(a, b) && StrLess(b, c)
    ensures StrLess(a, c)
    decreases |a|
  {
    if |a| > 0 && a[0] == b[0] && b[0] == c[0] {
      StrLessTransitive(a[1..], b[1..], c[1..]);
    }
  }

  /** Two different strings are always ordered one way or the other. */
  lemma {:induction false} StrLessTotal(a: string, b: string)
    ensures a == b || StrLess(a, b) || StrLess(b, a)
    decreases |a|
  {
    if |a| > 0 && |b| > 0 && a[0] == b[0] {
      StrLessTotal(a[1..], b[1..]);
      if a[1..] == b[1..] {
        assert a == [a[0]] + a[1..] && b == [b[0]] + b[1..];
      }
    }
  }

  // ---------------------------------------------------------------------------
  // `a[sortKey] < b[sortKey]` and the comparator of `sortedAssets`
  // ---------------------------------------------------------------------------

  /** `a[key] < b[key]`: lexicographic on the text fields, numeric on the others. */
  predicate KeyLess(a: Asset, b: Asset, key: SortKey) {
    match key
    case Name => StrLess(a.name, b.name)
    case Version => StrLess(a.version, b.version)
    case Product => StrLess(a.product, b.product)
    case PriorityScore => a.priorityScore < b.priorityScore
    case VulnerabilitiesCount => a.vulnerabilitiesCount < b.vulnerabilitiesCount
  }

  /** `a[key]` and `b[key]` hold the same value. */
  predicate SameKey(a: Asset, b: Asset, key: SortKey) {
    match key
    case Name => a.name == b.name
    case Version => a.version == b.version
    case Product => a.product == b.product
    case PriorityScore => a.priorityScore == b.priorityScore
    case VulnerabilitiesCount => a.vulnerabilitiesCount == b.vulnerabilitiesCount
  }

  lemma KeyLessAsymmetric(a: Asset, b: Asset, key: SortKey)
    requires KeyLess(a, b, key)
    ensures !KeyLess(b, a, key)
  {
    match key
    case Name => StrLessAsymmetric(a.name, b.name);
    case Version => StrLessAsymmetric(a.version, b.version);
    case Product => StrLessAsymmetric(a.product, b.product);
    case PriorityScore =>
    case VulnerabilitiesCount =>
  }

  /** Exactly one of `<`, `>` and equality holds between two field values. */
  lemma KeyTrichotomy(a: Asset, b: Asset, key: SortKey)
    ensures KeyLess(a, b, key) || KeyLess(b, a, key) || SameKey(a, b, key)
    ensures SameKey(a, b, key) ==> !KeyLess(a, b, key) && !KeyLess(b, a, key)
  {
    match key
    case Name => StrLessTotal(a.name, b.name); StrLessIrreflexive(a.name);
    case Version => StrLessTotal(a.version, b.version); StrLessIrreflexive(a.version);
    case Product => StrLessTotal(a.product, b.product); StrLessIrreflexive(a.product);
    case PriorityScore =>
    case VulnerabilitiesCount =>
  }

  /** If `a < c` then every `b` lies above `a` or below `c`. */
  lemma KeyLessSplit(a: Asset, b: Asset, c: Asset, key: SortKey)
    requires KeyLess(a, c, key)
    ensures KeyLess(a, b, key) || KeyLess(b, c, key)
  {
    KeyTrichotomy(a, b, key);
    if KeyLess(b, a, key) {
      match key
      case Name => StrLessTransitive(b.name, a.name, c.name);
      case Version => StrLessTransitive(b.version, a.version, c.version);
      case Product => StrLessTransitive(b.product, a.product, c.product);
      case PriorityScore =>
      case VulnerabilitiesCount =>
    }
  }

  /**
   * The comparator handed to `sort`: negative when `a` goes first in the
   * chosen direction, positive when `b` does, zero when neither key is `<`
   * or `>` the other.
   */
  function Compare(a: Asset, b: Asset, key: SortKey, dir: Direction): (c: int)
    ensures -1 <= c <= 1
    ensures c == 0 <==> !KeyLess(a, b, key) && !KeyLess(b, a, key)
    ensures c < 0 <==> (if dir == Asc then KeyLess(a, b, key) else KeyLess(b, a, key))
    ensures c > 0 <==> (if dir == Asc then KeyLess(b, a, key) else KeyLess(a, b, key))
  {
    if KeyLess(a, b, key) then
      KeyLessAsymmetric(a, b, key);
      if dir == Asc then -1 else 1
    else if KeyLess(b, a, key) then
      if dir == Asc then 1 else -1
    else
      0
  }

  lemma CompareAntisymmetric(a: Asset, b: Asset, key: SortKey, dir: Direction)
    ensures Compare(a, b, key, dir) == -Compare(b, a, key, dir)
  {
    if KeyLess(a, b, key) {
      KeyLessAsymmetric(a, b, key);
    } else if KeyLess(b, a, key) {
      KeyLessAsymmetric(b, a, key);
    }
  }

  /** "Goes no later than" is transitive, so the comparator is a consistent one. */
  lemma CompareTransitive(a: Asset, b: Asset, c: Asset, key: SortKey, dir: Direction)
    requires Compare(a, b, key, dir) <= 0 && Compare(b, c, key, dir) <= 0
    ensures Compare(a, c, key, dir) <= 0
  {
    if Compare(a, c, key, dir) > 0 {
      if dir == Asc {
        KeyLessSplit(c, b, a, key);
      } else {
        KeyLessSplit(a, b, c, key);
      }
    }
  }

  // ---------------------------------------------------------------------------
  // `[...assets].sort(comparator)`
  // ---------------------------------------------------------------------------

  /** No element is followed by one the comparator puts strictly before it. */
  predicate Sorted(s: seq<Asset>, key: SortKey, dir: Direction) {
    forall i, j :: 0 <= i < j < |s| ==> Compare(s[i], s[j], key, dir) <= 0
  }

  /** Inserts `x` in front of the first element it does not have to follow. */
  function Insert(x: Asset, s: seq<Asset>, key: SortKey, dir: Direction): (r: seq<Asset>)
    ensures multiset(r) == multiset(s) + multiset{x}
  {
    if s == [] then [x]
    else if Compare(x, s[0], key, dir) > 0 then
      assert s == [s[0]] + s[1..];
      [s[0]] + Insert(x, s[1..], key, dir)
    else
      [x] + s
  }

  /** Putting in front an element that goes no later than any of a sorted list keeps it sorted. */
  lemma ConsSorted(h: Asset, s: seq<Asset>, key: SortKey, dir: Direction)
    requires Sorted(s, key, dir)
    requires forall k :: 0 <= k < |s| ==> Compare(h, s[k], key, dir) <= 0
    ensures Sorted([h] + s, key, dir)
  {
    var r := [h] + s;
    forall i, j | 0 <= i < j < |r|
      ensures Compare(r[i], r[j], key, dir) <= 0
    {
      assert r[j] == s[j - 1];
      if i > 0 {
        assert r[i] == s[i - 1];
      }
    }
  }

  lemma {:induction false} InsertSorted(x: Asset, s: seq<Asset>, key: SortKey, dir: Direction)
    requires Sorted(s, key, dir)
    ensures Sorted(Insert(x, s, key, dir), key, dir)
  {
    if s == [] {
    } else if Compare(x, s[0], key, dir) > 0 {
      var t := s[1..];
      var rest := Insert(x, t, key, dir);
      assert Sorted(t, key, dir) by {
        forall i, j | 0 <= i < j < |t| ensures Compare(t[i], t[j], key, dir) <= 0 {
          assert t[i] == s[i + 1] && t[j] == s[j + 1];
        }
      }
      InsertSorted(x, t, key, dir);
      forall k | 0 <= k < |rest|
        ensures Compare(s[0], rest[k], key, dir) <= 0
      {
        var y := rest[k];
        assert y in multiset(rest);
        if y == x {
          CompareAntisymmetric(x, s[0], key, dir);
        } else {
          assert y in multiset(t);
          var m :| 0 <= m < |t| && t[m] == y;
          assert s[m + 1] == y;
        }
      }
      ConsSorted(s[0], rest, key, dir);
    } else {
      forall k | 0 <= k < |s|
        ensures Compare(x, s[k], key, dir) <= 0
      {
        if k > 0 {
          CompareTransitive(x, s[0], s[k], key, dir);
        }
      }
      ConsSorted(x, s, key, dir);
    }
  }

  /**
   * The view of `sortedAssets`: a fresh sequence holding the same assets,
   * ordered by the comparator. Equal keys keep their original relative order
   * (SortByStable), as the stable sort of ES2019 engines does.
   */
  function SortBy(s: seq<Asset>, key: SortKey, dir: Direction): (r: seq<Asset>)
    ensures multiset(r) == multiset(s)
    ensures Sorted(r, key, dir)
  {
    if s == [] then []
    else
      assert s == [s[0]] + s[1..];
      var rest := SortBy(s[1..], key, dir);
      InsertSorted(s[0], rest, key, dir);
      Insert(s[0], rest, key, dir)
  }

  /** The assets of `s` whose key equals that of `e`, in their order in `s`. */
  function EqualKeyRun(s: seq<Asset>, e: Asset, key: SortKey): seq<Asset> {
    if s == [] then []
    else (if SameKey(s[0], e, key) then [s[0]] else []) + EqualKeyRun(s[1..], e, key)
  }

  /** Two assets the comparator separates cannot both share the key of `e`. */
  lemma SeparatedKeys(x: Asset, y: Asset, e: Asset, key: SortKey, dir: Direction)
    requires Compare(x, y, key, dir) > 0
    ensures !(SameKey(x, e, key) && SameKey(y, e, key))
  {
    KeyTrichotomy(x, y, key);
    match key
    case Name =>
    case Version =>
    case Product =>
    case PriorityScore =>
    case VulnerabilitiesCount =>
  }

  lemma EqualKeyRunCons(h: Asset, t: seq<Asset>, e: Asset, key: SortKey)
    ensures EqualKeyRun([h] + t, e, key) == (if SameKey(h, e, key) then [h] else []) + EqualKeyRun(t, e, key)
  {
    assert ([h] + t)[0] == h && ([h] + t)[1..] == t;
  }

  /** Moving `x` past a head of another key class leaves every key's run as it was. */
  lemma EqualKeyRunPast(h: Asset, x: Asset, t: seq<Asset>, rest: seq<Asset>, e: Asset, key: SortKey)
    requires !(SameKey(x, e, key) && SameKey(h, e, key))
    requires EqualKeyRun(rest, e, key) == (if SameKey(x, e, key) then [x] else []) + EqualKeyRun(t, e, key)
    ensures EqualKeyRun([h] + rest, e, key) == (if SameKey(x, e, key) then [x] else []) + EqualKeyRun([h] + t, e, key)
  {
    var mine := if SameKey(x, e, key) then [x] else [];
    var head := if SameKey(h, e, key) then [h] else [];
    EqualKeyRunCons(h, rest, e, key);
    EqualKeyRunCons(h, t, e, key);
    assert mine == [] || head == [];
    assert head + (mine + EqualKeyRun(t, e, key)) == mine + (head + EqualKeyRun(t, e, key));
  }

  lemma {:induction false} InsertEqualKeyRun(x: Asset, s: seq<Asset>, e: Asset, key: SortKey, dir: Direction)
    ensures EqualKeyRun(Insert(x, s, key, dir), e, key)
         == (if SameKey(x, e, key) then [x] else []) + EqualKeyRun(s, e, key)
  {
    if s != [] && Compare(x, s[0], key, dir) > 0 {
      var t := s[1..];
      InsertEqualKeyRun(x, t, e, key, dir);
      SeparatedKeys(x, s[0], e, key, dir);
      assert Insert(x, s, key, dir) == [s[0]] + Insert(x, t, key, dir);
      assert s == [s[0]] + t;
      EqualKeyRunPast(s[0], x, t, Insert(x, t, key, dir), e, key);
    } else {
      EqualKeyRunCons(x, s, e, key);
    }
  }

  /** Assets with equal keys leave the sort in the order they entered it. */
  lemma {:induction false} SortByStable(s: seq<Asset>, e: Asset, key: SortKey, dir: Direction)
    ensures EqualKeyRun(SortBy(s, key, dir), e, key) == EqualKeyRun(s, e, key)
  {
    if s != [] {
      SortByStable(s[1..], e, key, dir);
      InsertEqualKeyRun(s[0], SortBy(s[1..], key, dir), e, key, dir);
    }
  }

  /** With 'asc' the sorted view is non-decreasing in the key. */
  lemma SortedAscendingMeaning(s: seq<Asset>, key: SortKey)
    ensures Sorted(s, key, Asc) <==> forall i, j :: 0 <= i < j < |s| ==> !KeyLess(s[j], s[i], key)
  {
    forall i, j | 0 <= i < j < |s|
      ensures Compare(s[i], s[j], key, Asc) <= 0 <==> !KeyLess(s[j], s[i], key)
    {
      if KeyLess(s[i], s[j], key) { KeyLessAsymmetric(s[i], s[j], key); }
    }
  }

  /** With 'desc' the sorted view is non-increasing in the key. */
  lemma SortedDescendingMeaning(s: seq<Asset>, key: SortKey)
    ensures Sorted(s, key, Desc) <==> forall i, j :: 0 <= i < j < |s| ==> !KeyLess(s[i], s[j], key)
  {
    forall i, j | 0 <= i < j < |s|
      ensures Compare(s[i], s[j], key, Desc) <= 0 <==> !KeyLess(s[i], s[j], key)
    {
      if KeyLess(s[j], s[i], key) { KeyLessAsymmetric(s[j], s[i], key); }
    }
  }

  /** Sorting a list that is already in order gives it back unchanged. */
  lemma {:induction false} SortByOfSorted(s: seq<Asset>, key: SortKey, dir: Direction)
    requires Sorted(s, key, dir)
    ensures SortBy(s, key, dir) == s
  {
    if s != [] {
      var t := s[1..];
      assert Sorted(t, key, dir) by {
        forall i, j | 0 <= i < j < |t| ensures Compare(t[i], t[j], key, dir) <= 0 {
          assert t[i] == s[i + 1] && t[j] == s[j + 1];
        }
      }
      SortByOfSorted(t, key, dir);
      if t != [] {
        assert Compare(s[0], t[0], key, dir) <= 0 by { assert t[0] == s[1]; }
      }
      assert [s[0]] + t == s;
    }
  }

  /** Re-sorting with the same key and direction changes nothing. */
  lemma SortByIdempotent(s: seq<Asset>, key: SortKey, dir: Direction)
    ensures SortBy(SortBy(s, key, dir), key, dir) == SortBy(s, key, dir)
  {
    SortByOfSorted(SortBy(s, key, dir), key, dir);
  }

  // ---------------------------------------------------------------------------
  // `groupedData` and `chartData`: per-product totals in first-seen order
  // ---------------------------------------------------------------------------

  /** Some asset of the list has product `p`. */
  predicate Occurs(assets: seq<Asset>, p: string) {
    exists i :: 0 <= i < |assets| && assets[i].product == p
  }

  /** The distinct products of `assets`, each at the place it is first seen. */
  function Products(assets: seq<Asset>): seq<string>
    decreases |assets|
  {
    if assets == [] then []
    else
      var prev := Products(assets[..|assets| - 1]);
      var p := assets[|assets| - 1].product;
      if p in prev then prev else prev + [p]
  }

  /** Sum of `priority_score` over the assets of product `p`. */
  function TotalScore(assets: seq<Asset>, p: string): real
    decreases |assets|
  {
    if assets == [] then 0.0
    else
      var last := assets[|assets| - 1];
      TotalScore(assets[..|assets| - 1], p) + (if last.product == p then last.priorityScore else 0.0)
  }

  /** Number of assets of product `p`. */
  function CountOf(assets: seq<Asset>, p: string): nat
    decreases |assets|
  {
    if assets == [] then 0
    else
      var last := assets[|assets| - 1];
      CountOf(assets[..|assets| - 1], p) + (if last.product == p then 1 else 0)
  }

  /** Index of the first asset of product `p`, or `|assets|` when there is none. */
  function FirstIndex(assets: seq<Asset>, p: string): (k: nat)
    ensures k <= |assets|
    ensures k < |assets| ==> assets[k].product == p
    ensures forall l :: 0 <= l < k ==> assets[l].product != p
  {
    if assets == [] then 0
    else if assets[0].product == p then 0
    else 1 + FirstIndex(assets[1..], p)
  }

  lemma {:induction false} ProductsExact(assets: seq<Asset>, p: string)
    ensures p in Products(assets) <==> Occurs(assets, p)
    decreases |assets|
  {
    if assets != [] {
      var n := |assets| - 1;
      var front := assets[..n];
      ProductsExact(front, p);
      if Occurs(front, p) {
        var i :| 0 <= i < n && front[i].product == p;
        assert assets[i].product == p;
      }
      if Occurs(assets, p) && assets[n].product != p {
        var i :| 0 <= i < |assets| && assets[i].product == p;
        assert front[i].product == p;
      }
    }
  }

  lemma {:induction false} ProductsDistinct(assets: seq<Asset>)
    ensures forall i, j :: 0 <= i < j < |Products(assets)| ==> Products(assets)[i] != Products(assets)[j]
    decreases |assets|
  {
    if assets != [] {
      ProductsDistinct(assets[..|assets| - 1]);
    }
  }

  /** A product is counted at least once exactly when it is one of the listed products. */
  lemma {:induction false} CountPositive(assets: seq<Asset>, p: string)
    ensures CountOf(assets, p) > 0 <==> p in Products(assets)
    decreases |assets|
  {
    if assets != [] {
      CountPositive(assets[..|assets| - 1], p);
    }
  }

  /** The first index of a product seen in a prefix is the same in the whole list. */
  lemma FirstIndexOfPrefix(assets: seq<Asset>, n: nat, p: string)
    requires n <= |assets| && Occurs(assets[..n], p)
    ensures FirstIndex(assets, p) == FirstIndex(assets[..n], p) < n
  {
    var front := assets[..n];
    var i :| 0 <= i < n && front[i].product == p;
    var k := FirstIndex(front, p);
    assert k <= i;
    assert assets[k].product == p;
    assert forall l :: 0 <= l < n ==> front[l] == assets[l];
  }

  lemma {:induction false} ProductsFirstSeenOrder(assets: seq<Asset>)
    ensures forall i, j :: 0 <= i < j < |Products(assets)| ==>
      FirstIndex(assets, Products(assets)[i]) < FirstIndex(assets, Products(assets)[j])
    decreases |assets|
  {
    if assets != [] {
      var n := |assets| - 1;
      var front := assets[..n];
      var prev := Products(front);
      var ps := Products(assets);
      ProductsFirstSeenOrder(front);
      forall q | q in prev
        ensures FirstIndex(assets, q) == FirstIndex(front, q) < n
      {
        ProductsExact(front, q);
        FirstIndexOfPrefix(assets, n, q);
      }
      var p := assets[n].product;
      if p !in prev {
        ProductsExact(front, p);
        assert FirstIndex(assets, p) == n by {
          forall l | 0 <= l < n ensures assets[l].product != p {
            assert front[l] == assets[l];
          }
        }
      }
      forall i, j | 0 <= i < j < |ps|
        ensures FirstIndex(assets, ps[i]) < FirstIndex(assets, ps[j])
      {
        assert ps[i] == prev[i];
        if j < |prev| {
          assert ps[j] == prev[j];
        }
      }
    }
  }

  /** A product that is not listed has no score and no count. */
  lemma {:induction false} AbsentProduct(assets: seq<Asset>, p: string)
    requires p !in Products(assets)
    ensures TotalScore(assets, p) == 0.0 && CountOf(assets, p) == 0
    decreases |assets|
  {
    if assets != [] {
      AbsentProduct(assets[..|assets| - 1], p);
    }
  }

  /** Adding one score in [lo, hi] to a total of `c` such scores. */
  lemma BoundsStep(c: real, t: real, x: real, lo: real, hi: real)
    requires c * lo <= t <= c * hi && lo <= x <= hi
    ensures (c + 1.0) * lo <= t + x <= (c + 1.0) * hi
  {
    assert (c + 1.0) * lo == c * lo + lo;
    assert (c + 1.0) * hi == c * hi + hi;
  }

  /** A running total stays between count * lowest and count * highest score. */
  lemma {:induction false} TotalScoreBounds(assets: seq<Asset>, p: string, lo: real, hi: real)
    requires forall i :: 0 <= i < |assets| ==> lo <= assets[i].priorityScore <= hi
    ensures (CountOf(assets, p) as real) * lo <= TotalScore(assets, p) <= (CountOf(assets, p) as real) * hi
    decreases |assets|
  {
    if assets != [] {
      var n := |assets| - 1;
      var front := assets[..n];
      assert forall i :: 0 <= i < |front| ==> front[i] == assets[i];
      TotalScoreBounds(front, p, lo, hi);
      var c := CountOf(front, p) as real;
      var last := assets[n];
      if last.product == p {
        assert CountOf(assets, p) as real == c + 1.0;
        assert TotalScore(assets, p) == TotalScore(front, p) + last.priorityScore;
        BoundsStep(c, TotalScore(front, p), last.priorityScore, lo, hi);
      } else {
        assert CountOf(assets, p) == CountOf(front, p);
        assert TotalScore(assets, p) == TotalScore(front, p);
      }
    }
  }

  /** A bar of the chart. */
  datatype ChartEntry = ChartEntry(product: string, averagePriority: real)

  /** The arithmetic mean of the scores of product `p`; `p` has at least one asset. */
  function Average(assets: seq<Asset>, p: string): real
    requires p in Products(assets)
  {
    CountPositive(assets, p);
    TotalScore(assets, p) / (CountOf(assets, p) as real)
  }

  /** `chartData`: one bar per product, in first-seen order, with its average score. */
  function ChartOf(assets: seq<Asset>): seq<ChartEntry> {
    var ps := Products(assets);
    seq(|ps|, i requires 0 <= i < |ps| => ChartEntry(ps[i], Average(assets, ps[i])))
  }

  /** One accumulator of `groupedData`. */
  datatype Group = Group(totalScore: real, count: nat)

  /**
   * The `reduce` that builds `groupedData`. `keys` is the order in which the
   * accumulator object gained its own keys, which is the order `Object.keys`
   * reports for product names that are not array indices.
   */
  method GroupByProduct(assets: seq<Asset>) returns (keys: seq<string>, acc: map<string, Group>)
    ensures keys == Products(assets)
    ensures forall p :: p in acc <==> p in keys
    ensures forall p :: p in acc ==> acc[p] == Group(TotalScore(assets, p), CountOf(assets, p))
    ensures forall p :: p in acc ==> acc[p].count >= 1
  {
    keys, acc := [], map[];
    for i := 0 to |assets|
      invariant keys == Products(assets[..i])
      invariant forall p :: p in acc <==> p in keys
      invariant forall p :: p in acc ==> acc[p] == Group(TotalScore(assets[..i], p), CountOf(assets[..i], p))
      invariant forall p :: p in acc ==> acc[p].count >= 1
    {
      var asset := assets[i];
      assert assets[..i + 1][..i] == assets[..i];
      if asset.product !in acc {
        AbsentProduct(assets[..i], asset.product);
        acc := acc[asset.product := Group(0.0, 0)];
        keys := keys + [asset.product];
      }
      var g := acc[asset.product];
      acc := acc[asset.product := Group(g.totalScore + asset.priorityScore, g.count + 1)];
      ghost var seen := assets[..i + 1];
      assert seen[..|seen| - 1] == assets[..i] && seen[|seen| - 1] == asset;
      assert forall p :: p in acc ==> acc[p] == Group(TotalScore(seen, p), CountOf(seen, p));
    }
    assert assets[..|assets|] == assets;
  }

  /** `chartData`, computed from the accumulator the way the component does. */
  method ChartData(assets: seq<Asset>) returns (chart: seq<ChartEntry>)
    ensures chart == ChartOf(assets)
  {
    var keys, acc := GroupByProduct(assets);
    chart := seq(|keys|, i requires 0 <= i < |keys| =>
      ChartEntry(keys[i], acc[keys[i]].totalScore / (acc[keys[i]].count as real)));
  }

  /** Exactly the products present in the list get a bar, and each gets one. */
  lemma ChartOneEntryPerProduct(assets: seq<Asset>)
    ensures forall p :: (exists i :: 0 <= i < |ChartOf(assets)| && ChartOf(assets)[i].product == p) <==> Occurs(assets, p)
    ensures forall i, j :: 0 <= i < j < |ChartOf(assets)| ==> ChartOf(assets)[i].product != ChartOf(assets)[j].product
  {
    var ps := Products(assets);
    var chart := ChartOf(assets);
    ProductsDistinct(assets);
    forall p
      ensures (exists i :: 0 <= i < |chart| && chart[i].product == p) <==> Occurs(assets, p)
    {
      ProductsExact(assets, p);
      if p in ps {
        var i :| 0 <= i < |ps| && ps[i] == p;
        assert chart[i].product == p;
      }
    }
  }

  /** Bars appear in the order their products are first seen in the list. */
  lemma ChartFirstSeenOrder(assets: seq<Asset>)
    ensures forall i, j :: 0 <= i < j < |ChartOf(assets)| ==>
      FirstIndex(assets, ChartOf(assets)[i].product) < FirstIndex(assets, ChartOf(assets)[j].product)
  {
    ProductsFirstSeenOrder(assets);
  }

  /** Each bar is the sum of its product's scores over their number, and that number is positive. */
  lemma ChartAverages(assets: seq<Asset>)
    ensures forall i :: 0 <= i < |ChartOf(assets)| ==>
      var p := ChartOf(assets)[i].product;
      CountOf(assets, p) >= 1 &&
      ChartOf(assets)[i].averagePriority * (CountOf(assets, p) as real) == TotalScore(assets, p)
  {
    var ps := Products(assets);
    forall i | 0 <= i < |ps| ensures CountOf(assets, ps[i]) >= 1 {
      CountPositive(assets, ps[i]);
    }
  }

  /** Scores in [lo, hi] give every product an average in [lo, hi]. */
  lemma AverageInRange(assets: seq<Asset>, p: string, lo: real, hi: real)
    requires p in Products(assets)
    requires forall i :: 0 <= i < |assets| ==> lo <= assets[i].priorityScore <= hi
    ensures lo <= Average(assets, p) <= hi
  {
    CountPositive(assets, p);
    RatioInRange(assets, p, lo, hi);
  }

  lemma RatioInRange(assets: seq<Asset>, p: string, lo: real, hi: real)
    requires CountOf(assets, p) > 0
    requires forall i :: 0 <= i < |assets| ==> lo <= assets[i].priorityScore <= hi
    ensures lo <= TotalScore(assets, p) / (CountOf(assets, p) as real) <= hi
  {
    TotalScoreBounds(assets, p, lo, hi);
    QuotientBetween(TotalScore(assets, p), CountOf(assets, p) as real, lo, hi);
  }

  /** Scores in [lo, hi] give every bar a height in [lo, hi]; in particular 0..100. */
  lemma ChartAverageInRange(assets: seq<Asset>, lo: real, hi: real)
    requires forall i :: 0 <= i < |assets| ==> lo <= assets[i].priorityScore <= hi
    ensures forall i :: 0 <= i < |ChartOf(assets)| ==> lo <= ChartOf(assets)[i].averagePriority <= hi
  {
    var ps := Products(assets);
    forall i | 0 <= i < |ps| ensures lo <= Average(assets, ps[i]) <= hi {
      AverageInRange(assets, ps[i], lo, hi);
    }
  }

  lemma QuotientBetween(t: real, c: real, lo: real, hi: real)
    requires c > 0.0 && c * lo <= t <= c * hi
    ensures lo <= t / c <= hi
  {
    var q := t / c;
    assert q * c == t;
    if q < lo {
      ScaleStrict(q, lo, c);
    }
    if q > hi {
      ScaleStrict(hi, q, c);
    }
  }

  lemma ScaleStrict(x: real, y: real, c: real)
    requires x < y && c > 0.0
    ensures x * c < y * c
  {
  }

  /** Two assets of product A scored 10 and 30 and one of B scored 50 give the bars A: 20 and B: 50. */
  lemma ChartExample()
    ensures ChartOf([Asset(1, "a", "1", "A", 10.0, 0), Asset(2, "b", "1", "A", 30.0, 0), Asset(3, "c", "1", "B", 50.0, 0)])
      == [ChartEntry("A", 20.0), ChartEntry("B", 50.0)]
  {
    var assets := [Asset(1, "a", "1", "A", 10.0, 0), Asset(2, "b", "1", "A", 30.0, 0), Asset(3, "c", "1", "B", 50.0, 0)];
    var one, two := assets[..1], assets[..2];
    assert one[..0] == [] && two[..1] == one && assets[..2] == two;
    assert Products(one) == ["A"];
    assert Products(two) == ["A"];
    assert Products(assets) == ["A", "B"];
    assert TotalScore(one, "A") == 10.0 && CountOf(one, "A") == 1;
    assert TotalScore(two, "A") == 40.0 && CountOf(two, "A") == 2;
    assert TotalScore(assets, "A") == 40.0 && CountOf(assets, "A") == 2;
    assert TotalScore(one, "B") == 0.0 && CountOf(one, "B") == 0;
    assert TotalScore(two, "B") == 0.0 && CountOf(two, "B") == 0;
    assert TotalScore(assets, "B") == 50.0 && CountOf(assets, "B") == 1;
  }

  // ---------------------------------------------------------------------------
  // The accumulator as written: a plain object literal `{}`
  // ---------------------------------------------------------------------------

  /** Property names every object literal inherits from `Object.prototype`. */
  const InheritedNames: set<string> := {
    "constructor", "hasOwnProperty", "isPrototypeOf", "propertyIsEnumerable",
    "toLocaleString", "toString", "valueOf", "__proto__",
    "__defineGetter__", "__defineSetter__", "__lookupGetter__", "__lookupSetter__"
  }

  /**
   * The own keys the accumulator ends with as the code is written: `acc[p]`
   * is already truthy for an inherited name, so no own entry is created for
   * it and its updates land on the inherited value instead.
   */
  function KeysAsWritten(assets: seq<Asset>): seq<string>
    decreases |assets|
  {
    if assets == [] then []
    else
      var prev := KeysAsWritten(assets[..|assets| - 1]);
      var p := assets[|assets| - 1].product;
      if p in prev || p in InheritedNames then prev else prev + [p]
  }

  /** A product named "constructor" gets no bar in the chart as written. */
  lemma InheritedProductDroppedAsWritten()
    ensures var assets := [Asset(1, "lodash", "4.17.0", "constructor", 50.0, 1)];
      Occurs(assets, "constructor") && KeysAsWritten(assets) == [] && Products(assets) == ["constructor"]
  {
    var assets := [Asset(1, "lodash", "4.17.0", "constructor", 50.0, 1)];
    assert assets[..0] == [];
    assert assets[0].product == "constructor";
  }

  /** Apart from inherited names, the code as written and the corrected grouping agree. */
  lemma {:induction false} KeysAsWrittenAgree(assets: seq<Asset>)
    requires forall i :: 0 <= i < |assets| ==> assets[i].product !in InheritedNames
    ensures KeysAsWritten(assets) == Products(assets)
    decreases |assets|
  {
    if assets != [] {
      var front := assets[..|assets| - 1];
      assert forall i :: 0 <= i < |front| ==> front[i] == assets[i];
      KeysAsWrittenAgree(front);
    }
  }

  // ---------------------------------------------------------------------------
  // `handleSort`
  // ---------------------------------------------------------------------------

  datatype SortState = SortState(key: SortKey, direction: Direction)

  /** `useState('priority_score')` and `useState('desc')`. */
  const InitialSort := SortState(PriorityScore, Desc)

  function Flip(d: Direction): (r: Direction)
    ensures r != d
  {
    if d == Asc then Desc else Asc
  }

  /** Clicking the header of `key`: same key flips the direction, a new key sorts descending. */
  function ToggleSort(s: SortState, key: SortKey): (r: SortState)
    ensures r.key == key
    ensures s.key == key ==> r.direction != s.direction
    ensures s.key != key ==> r.direction == Desc
  {
    if s.key == key then SortState(key, Flip(s.direction)) else SortState(key, Desc)
  }

  /** Clicking the current key twice restores the state. */
  lemma ToggleSortTwice(s: SortState)
    ensures ToggleSort(ToggleSort(s, s.key), s.key) == s
  {
  }

  /** Clicking a new key and then the same key again sorts it ascending. */
  lemma ToggleSortNewThenSame(s: SortState, key: SortKey)
    requires s.key != key
    ensures ToggleSort(ToggleSort(s, key), key) == SortState(key, Asc)
  {
  }

  // ---------------------------------------------------------------------------
  // `fetchAssets`
  // ---------------------------------------------------------------------------

  /** What the awaited request ends in: the response's asset list, or a thrown error. */
  datatype FetchOutcome = Fetched(assets: seq<Asset>) | FetchFailed

  const FetchErrorMessage := "Failed to fetch data from backend"

  /** The three pieces of component state a fetch touches. */
  datatype ViewState = ViewState(assets: seq<Asset>, loading: bool, error: Option<string>)

  /** The `try`/`catch`/`finally` after the request settles. */
  function Settle(s: ViewState, o: FetchOutcome): ViewState {
    match o
    case Fetched(list) => s.(assets := list, loading := false)
    case FetchFailed => s.(loading := false, error := Some(FetchErrorMessage))
  }

  /** A run of fetches, one after the other, each starting with `setLoading(true)`. */
  function FetchAll(s: ViewState, os: seq<FetchOutcome>): ViewState
    decreases |os|
  {
    if os == [] then s
    else Settle(FetchAll(s, os[..|os| - 1]).(loading := true), os[|os| - 1])
  }

  /**
   * After a run of fetches the list is the one the last successful fetch
   * returned (or the initial one), the error is set exactly when some fetch
   * failed (it is never cleared), and loading is off.
   */
  lemma {:induction false} FetchAllMeaning(s: ViewState, os: seq<FetchOutcome>)
    ensures (forall k :: 0 <= k < |os| ==> os[k].FetchFailed?) ==> FetchAll(s, os).assets == s.assets
    ensures forall k :: 0 <= k < |os| && os[k].Fetched? && (forall l :: k < l < |os| ==> os[l].FetchFailed?) ==>
      FetchAll(s, os).assets == os[k].assets
    ensures FetchAll(s, os).error == if FetchFailed in os then Some(FetchErrorMessage) else s.error
    ensures os != [] ==> !FetchAll(s, os).loading
    decreases |os|
  {
    if os != [] {
      var n := |os| - 1;
      var front := os[..n];
      FetchAllMeaning(s, front);
      assert forall k :: 0 <= k < n ==> front[k] == os[k];
      assert FetchFailed in os <==> FetchFailed in front || os[n] == FetchFailed;
    }
  }

  // ---------------------------------------------------------------------------
  // The component's state
  // ---------------------------------------------------------------------------

  class App {
    var assets: seq<Asset>
    var loading: bool
    var error: Option<string>
    var sortKey: SortKey
    var sortDirection: Direction

    function View(): ViewState
      reads this
    {
      ViewState(assets, loading, error)
    }

    function Sort(): SortState
      reads this
    {
      SortState(sortKey, sortDirection)
    }

    /** The initial `useState` values. */
    constructor ()
      ensures View() == ViewState([], true, None)
      ensures Sort() == InitialSort
    {
      assets, loading, error := [], true, None;
      sortKey, sortDirection := PriorityScore, Desc;
    }

    method HandleSort(key: SortKey)
      modifies this
      ensures Sort() == ToggleSort(old(Sort()), key)
      ensures View() == old(View())
    {
      if sortKey == key {
        sortDirection := if sortDirection == Asc then Desc else Asc;
      } else {
        sortKey := key;
        sortDirection := Desc;
      }
    }

    /** `setLoading(true)` before the request is awaited. */
    method BeginFetch()
      modifies this
      ensures View() == old(View()).(loading := true)
      ensures Sort() == old(Sort())
    {
      loading := true;
    }

    /** The state updates once the request has settled with outcome `o`. */
    method SettleFetch(o: FetchOutcome)
      modifies this
      ensures View() == Settle(old(View()), o)
      ensures o.Fetched? ==> assets == o.assets && error == old(error)
      ensures o.FetchFailed? ==> assets == old(assets) && error == Some(FetchErrorMessage)
      ensures !loading
      ensures Sort() == old(Sort())
    {
      match o {
        case Fetched(list) =>
          assets := list;
        case FetchFailed =>
          error := Some(FetchErrorMessage);
      }
      loading := false;
    }

    /** `fetchAssets` with the request's outcome given as `o`. */
    method FetchAssets(o: FetchOutcome)
      modifies this
      ensures View() == FetchAll(old(View()), [o])
      ensures Sort() == old(Sort())
    {
      BeginFetch();
      SettleFetch(o);
    }

    /** The Refresh button: another `fetchAssets`. */
    method HandleRefresh(o: FetchOutcome)
      modifies this
      ensures View() == FetchAll(old(View()), [o])
      ensures Sort() == old(Sort())
    {
      FetchAssets(o);
    }

    /** `sortedAssets` for the current state; the state, `assets` included, is left as it was. */
    method SortedAssets() returns (rows: seq<Asset>)
      ensures rows == SortBy(assets, sortKey, sortDirection)
      ensures multiset(rows) == multiset(assets)
      ensures Sorted(rows, sortKey, sortDirection)
    {
      rows := SortBy(assets, sortKey, sortDirection);
    }

    /** `chartData` for the current state. */
    method Chart() returns (chart: seq<ChartEntry>)
      ensures chart == ChartOf(assets)
    {
      chart := ChartData(assets);
    }
  }
}
