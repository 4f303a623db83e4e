/**
 * The orderings and filters the device listings apply to the device list.
 *
 * `sort.Slice` and `sort.SliceStable` are library code; their effect is
 * modelled by a stable insertion sort on values (`Sort`). Its contract is the
 * one the listings depend on: the result is a permutation of the input,
 * ordered by the key, and devices that tie on the key keep the order the list
 * already had (`SortOrdered`). That last part is what makes a chain of sorts
 * produce a lexicographic order.
 */
module Sorting {
  import opened Gateway

  /** The fields the listings sort on. */
  datatype SortKey = ByDeviceId | ByType | ByAlive | ByName

  /** Go's `<` on strings: lexicographic by code point, which is the order of their UTF-8 bytes. */
  predicate StrLess(a: string, b: string) {
    if b == [] then false
    else if a == [] then true
    else if a[0] != b[0] then a[0] < b[0]
    else StrLess(a[1..], b[1..])
  }

  lemma {:induction false} StrLessAsymmetric(a: string, b: string)
    ensures !(StrLess(a, b) && StrLess(b, a))
  {
    if a != [] && b != [] && a[0] == b[0] {
      StrLessAsymmetric(a[1..], b[1..]);
    }
  }

  lemma {:induction false} StrLessTotal(a: string, b: string)
    ensures a == b || StrLess(a, b) || StrLess(b, a)
  {
    if a != [] && b != [] && a[0] == b[0] {
      StrLessTotal(a[1..], b[1..]);
      if a[1..] == b[1..] {
        assert a == [a[0]] + a[1..] && b == [b[0]] + b[1..];
      }
    }
  }

  lemma {:induction false} StrLessTransitive(a: string, b: string, c: string)
    requires StrLess(a, b) && StrLess(b, c)
    ensures StrLess(a, c)
  {
    if a != [] && a[0] == b[0] && b[0] == c[0] {
      StrLessTransitive(a[1..], b[1..], c[1..]);
    }
  }

  /** The comparator handed to the library sort: `list[i].<field> < list[j].<field>`. */
  predicate Less(k: SortKey, a: Device, b: Device) {
    match k
    case ByDeviceId => a.deviceId < b.deviceId
    case ByType => a.deviceType < b.deviceType
    case ByAlive => a.alive < b.alive
    case ByName => StrLess(a.name, b.name)
  }

  /** a may stand before b in a list sorted by k. */
  predicate Le(k: SortKey, a: Device, b: Device) {
    !Less(k, b, a)
  }

  lemma LeTotal(k: SortKey, a: Device, b: Device)
    ensures Le(k, a, b) || Le(k, b, a)
  {
    if k == ByName {
      StrLessAsymmetric(a.name, b.name);
    }
  }

  lemma LeTransitive(k: SortKey, a: Device, b: Device, c: Device)
    requires Le(k, a, b) && Le(k, b, c)
    ensures Le(k, a, c)
  {
    if k == ByName && StrLess(c.name, a.name) {
      StrLessTotal(a.name, b.name);
      if StrLess(a.name, b.name) {
        StrLessTransitive(c.name, a.name, b.name);
      }
    }
  }

  /**
   * The lexicographic order given by a list of keys, most significant first:
   * a may stand before b when it does on ks[0], and, if the two tie there, on the rest.
   */
  predicate LexLe(ks: seq<SortKey>, a: Device, b: Device)
    decreases |ks|
  {
    ks == [] || (Le(ks[0], a, b) && (Le(ks[0], b, a) ==> LexLe(ks[1..], a, b)))
  }

  /** Every pair of devices in s stands in the order ks. */
  predicate Ordered(s: seq<Device>, ks: seq<SortKey>) {
    forall i, j | 0 <= i < j < |s| :: LexLe(ks, s[i], s[j])
  }

  /** Puts x before the first device of t that does not sort strictly before it. */
  function Insert(x: Device, t: seq<Device>, k: SortKey): (r: seq<Device>)
    ensures multiset(r) == multiset(t) + multiset{x}
  {
    if t == [] then [x]
    else if Le(k, x, t[0]) then [x] + t
    else
      assert t == [t[0]] + t[1..];
      [t[0]] + Insert(x, t[1..], k)
  }

  /** A stable sort by one key. */
  function Sort(s: seq<Device>, k: SortKey): (r: seq<Device>)
    ensures multiset(r) == multiset(s) && |r| == |s|
  {
    if s == [] then []
    else
      assert s == [s[0]] + s[1..];
      Insert(s[0], Sort(s[1..], k), k)
  }

  lemma OrderedCons(x: Device, t: seq<Device>, ks: seq<SortKey>)
    requires Ordered(t, ks)
    requires forall y | y in t :: LexLe(ks, x, y)
    ensures Ordered([x] + t, ks)
  {
    var s := [x] + t;
    forall i, j | 0 <= i < j < |s| ensures LexLe(ks, s[i], s[j]) {
      if i > 0 {
        assert s[i] == t[i - 1] && s[j] == t[j - 1];
      } else {
        assert s[j] == t[j - 1] && s[j] in t;
      }
    }
  }

  lemma {:induction false} InsertOrdered(x: Device, t: seq<Device>, k: SortKey, ks: seq<SortKey>)
    requires Ordered(t, [k] + ks)
    requires forall y | y in t :: LexLe(ks, x, y)
    ensures Ordered(Insert(x, t, k), [k] + ks)
  {
    var kks := [k] + ks;
    assert kks[0] == k && kks[1..] == ks;
    if t == [] {
    } else if Le(k, x, t[0]) {
      forall y | y in t ensures LexLe(kks, x, y) {
        var j :| 0 <= j < |t| && t[j] == y;
        if j > 0 {
          assert LexLe(kks, t[0], t[j]);
          LeTransitive(k, x, t[0], y);
        }
      }
      OrderedCons(x, t, kks);
    } else {
      LeTotal(k, x, t[0]);
      var rest := Insert(x, t[1..], k);
      assert Ordered(t[1..], kks) by {
        forall i, j | 0 <= i < j < |t[1..]| ensures LexLe(kks, t[1..][i], t[1..][j]) {
          assert t[1..][i] == t[i + 1] && t[1..][j] == t[j + 1];
        }
      }
      InsertOrdered(x, t[1..], k, ks);
      forall y | y in rest ensures LexLe(kks, t[0], y) {
        assert y in multiset(rest);
        if y != x {
          assert y in t[1..];
          var j :| 0 <= j < |t[1..]| && t[1..][j] == y;
          assert t[j + 1] == y;
        }
      }
      OrderedCons(t[0], rest, kks);
    }
  }

  /**
   * Sorting by k orders the result by k; devices that tie on k keep the
   * order ks the input already had. A permutation of the input, by Sort's contract.
   */
  lemma {:induction false} SortOrdered(s: seq<Device>, k: SortKey, ks: seq<SortKey>)
    requires Ordered(s, ks)
    ensures Ordered(Sort(s, k), [k] + ks)
  {
    if s != [] {
      assert Ordered(s[1..], ks) by {
        forall i, j | 0 <= i < j < |s[1..]| ensures LexLe(ks, s[1..][i], s[1..][j]) {
          assert s[1..][i] == s[i + 1] && s[1..][j] == s[j + 1];
        }
      }
      SortOrdered(s[1..], k, ks);
      forall y | y in Sort(s[1..], k) ensures LexLe(ks, s[0], y) {
        assert y in multiset(Sort(s[1..], k));
        var j :| 0 <= j < |s[1..]| && s[1..][j] == y;
        assert s[j + 1] == y;
      }
      InsertOrdered(s[0], Sort(s[1..], k), k, ks);
    }
  }

  /** The device filters of the listings. */
  datatype Selector =
    | AliveOnly        // alive != 0
    | BatteryPowered   // alive != 0 and a remote, a motion sensor or a blind
    | OfType(t: int)   // the given type code

  predicate Selects(sel: Selector, d: Device) {
    match sel
    case AliveOnly => d.alive != 0
    case BatteryPowered =>
      d.alive != 0 && (d.deviceType == RemoteType || d.deviceType == MotionType || d.deviceType == BlindType)
    case OfType(t) => d.deviceType == t
  }

  /** The devices of s that sel selects, in the order of s. */
  function Keep(s: seq<Device>, sel: Selector): (r: seq<Device>)
    ensures |r| <= |s|
    ensures forall i | 0 <= i < |r| :: Selects(sel, r[i])
  {
    if s == [] then []
    else Keep(s[..|s| - 1], sel) + (if Selects(sel, s[|s| - 1]) then [s[|s| - 1]] else [])
  }

  lemma SplitLast(s: seq<Device>)
    requires s != []
    ensures s == s[..|s| - 1] + [s[|s| - 1]]
  {
  }

  /** Each device occurs in the filtered list as often as in s if selected, and not at all otherwise. */
  lemma {:induction false} KeepCount(s: seq<Device>, sel: Selector, d: Device)
    ensures multiset(Keep(s, sel))[d] == if Selects(sel, d) then multiset(s)[d] else 0
  {
    if s != [] {
      SplitLast(s);
      KeepCount(s[..|s| - 1], sel, d);
    }
  }

  /**
   * Where the kept devices sit in s: strictly increasing positions, so the
   * filtered list is a subsequence of s in its original order.
   */
  function KeptIndices(s: seq<Device>, sel: Selector): (ix: seq<nat>)
    ensures |ix| == |Keep(s, sel)|
    ensures forall k | 0 <= k < |ix| :: ix[k] < |s| && s[ix[k]] == Keep(s, sel)[k]
    ensures forall k, l | 0 <= k < l < |ix| :: ix[k] < ix[l]
  {
    if s == [] then []
    else
      var init, last := s[..|s| - 1], s[|s| - 1];
      var front := KeptIndices(init, sel);
      assert forall k | 0 <= k < |front| :: Keep(s, sel)[k] == Keep(init, sel)[k];
      if Selects(sel, last) then front + [|s| - 1] else front
  }

  /** A list every device of which is selected passes whole. */
  lemma {:induction false} KeepEverything(s: seq<Device>, sel: Selector)
    requires forall i | 0 <= i < |s| :: Selects(sel, s[i])
    ensures Keep(s, sel) == s
  {
    if s != [] {
      var init := s[..|s| - 1];
      assert forall i | 0 <= i < |init| :: init[i] == s[i];
      KeepEverything(init, sel);
      SplitLast(s);
    }
  }

  /** Filtering keeps any order the list had. */
  lemma {:induction false} KeepOrdered(s: seq<Device>, sel: Selector, ks: seq<SortKey>)
    requires Ordered(s, ks)
    ensures Ordered(Keep(s, sel), ks)
  {
    if s != [] {
      var init, last := s[..|s| - 1], s[|s| - 1];
      assert Ordered(init, ks) by {
        forall i, j | 0 <= i < j < |init| ensures LexLe(ks, init[i], init[j]) {
          assert init[i] == s[i] && init[j] == s[j];
        }
      }
      KeepOrdered(init, sel, ks);
      var r := Keep(s, sel);
      if Selects(sel, last) {
        var front := Keep(init, sel);
        forall i, j | 0 <= i < j < |r| ensures LexLe(ks, r[i], r[j]) {
          if j < |front| {
            assert r[i] == front[i] && r[j] == front[j];
          } else {
            assert r[i] == front[i] && r[j] == last;
            KeepCount(init, sel, r[i]);
            assert r[i] in multiset(front);
            assert r[i] in init;
            var m :| 0 <= m < |init| && init[m] == r[i];
            assert s[m] == r[i];
          }
        }
      }
    }
  }
}
