/**
 * Ordering of preset lists. The presets feature sorts user presets by number (descending) to
 * allocate a new number, and sorts both lists by name for display. Sorting is modelled as a
 * stable insertion sort under a "may come before" relation; the result is a permutation of
 * the input and is ordered whenever the relation is a total preorder.
 */
module PresetOrdering {
  import opened PresetsFacade

  /** `le` is total and transitive: every pair is comparable and the relation chains. */
  ghost predicate TotalPreorder(le: (Preset, Preset) -> bool)
  {
    && (forall a, b :: le(a, b) || le(b, a))
    && (forall a, b, c :: le(a, b) && le(b, c) ==> le(a, c))
  }

  /** Every element may come before every later one. */
  predicate SortedBy(s: seq<Preset>, le: (Preset, Preset) -> bool)
  {
    forall i, j :: 0 <= i < j < |s| ==> le(s[i], s[j])
  }

  /** Sorting key of `sorted { $0.number > $1.number }`: larger numbers first. */
  function ByNumberDescending(a: Preset, b: Preset): bool { a.number >= b.number }

  /** Sorting key of `sorted()` with a name comparison `nameLess`: `a` may precede `b` unless `b`'s name is less. */
  function ByName(nameLess: (string, string) -> bool): (Preset, Preset) -> bool
  {
    (a: Preset, b: Preset) => !nameLess(b.name, a.name)
  }

  /** `nameLess` is a strict weak order: asymmetric, and "not less" chains. */
  ghost predicate StrictWeakOrder(nameLess: (string, string) -> bool)
  {
    && (forall x, y :: nameLess(x, y) ==> !nameLess(y, x))
    && (forall x, y, z :: !nameLess(y, x) && !nameLess(z, y) ==> !nameLess(z, x))
  }

  function Insert(x: Preset, s: seq<Preset>, le: (Preset, Preset) -> bool): (r: seq<Preset>)
    ensures multiset(r) == multiset(s) + multiset{x}
  {
    if s == [] || le(x, s[0]) then [x] + s
    else
      assert s == [s[0]] + s[1..];
      [s[0]] + Insert(x, s[1..], le)
  }

  /** The list sorted under `le`; always a permutation of `s`. */
  function SortBy(s: seq<Preset>, le: (Preset, Preset) -> bool): (r: seq<Preset>)
    ensures multiset(r) == multiset(s)
    ensures |r| == |s|
  {
    if s == [] then []
    else
      assert s == [s[0]] + s[1..];
      Insert(s[0], SortBy(s[1..], le), le)
  }

  lemma {:induction false} InsertSorted(x: Preset, s: seq<Preset>, le: (Preset, Preset) -> bool)
    requires TotalPreorder(le) && SortedBy(s, le)
    ensures SortedBy(Insert(x, s, le), le)
  {
    if s != [] && !le(x, s[0]) {
      InsertSorted(x, s[1..], le);
      var rest := Insert(x, s[1..], le);
      forall j | 0 <= j < |rest| ensures le(s[0], rest[j]) {
        assert rest[j] in multiset(rest);
        if rest[j] != x {
          assert rest[j] in multiset(s[1..]);
          var k :| 0 <= k < |s[1..]| && s[1..][k] == rest[j];
          assert s[k + 1] == rest[j];
        }
      }
    }
  }

  /** Under a total preorder the result of `SortBy` is sorted. */
  lemma {:induction false} SortBySorted(s: seq<Preset>, le: (Preset, Preset) -> bool)
    requires TotalPreorder(le)
    ensures SortedBy(SortBy(s, le), le)
  {
    if s != [] {
      SortBySorted(s[1..], le);
      InsertSorted(s[0], SortBy(s[1..], le), le);
    }
  }

  lemma {:induction false} InsertDistinct(x: Preset, s: seq<Preset>, le: (Preset, Preset) -> bool)
    requires DistinctNumbers(s)
    requires forall j :: 0 <= j < |s| ==> s[j].number != x.number
    ensures DistinctNumbers(Insert(x, s, le))
  {
    if s != [] && !le(x, s[0]) {
      InsertDistinct(x, s[1..], le);
      var rest := Insert(x, s[1..], le);
      forall j | 0 <= j < |rest| ensures rest[j].number != s[0].number {
        assert rest[j] in multiset(rest);
        if rest[j] != x {
          assert rest[j] in multiset(s[1..]);
          var k :| 0 <= k < |s[1..]| && s[1..][k] == rest[j];
          assert s[k + 1] == rest[j];
        }
      }
    }
  }

  /** Sorting keeps numbers distinct. */
  lemma {:induction false} SortByDistinct(s: seq<Preset>, le: (Preset, Preset) -> bool)
    requires DistinctNumbers(s)
    ensures DistinctNumbers(SortBy(s, le))
  {
    if s != [] {
      SortByDistinct(s[1..], le);
      var rest := SortBy(s[1..], le);
      forall j | 0 <= j < |rest| ensures rest[j].number != s[0].number {
        assert rest[j] in multiset(rest);
        var k :| 0 <= k < |s[1..]| && s[1..][k] == rest[j];
        assert s[k + 1] == rest[j];
      }
      InsertDistinct(s[0], rest, le);
    }
  }

  /** Ordering by number is a total preorder; ordering by name is one whenever the name comparison is a strict weak order. */
  lemma OrdersArePreorders(nameLess: (string, string) -> bool)
    ensures TotalPreorder(ByNumberDescending)
    ensures StrictWeakOrder(nameLess) ==> TotalPreorder(ByName(nameLess))
  {
    if StrictWeakOrder(nameLess) {
      var le := ByName(nameLess);
      forall a, b ensures le(a, b) || le(b, a) {
        assert nameLess(b.name, a.name) ==> !nameLess(a.name, b.name);
      }
      forall a, b, c | le(a, b) && le(b, c) ensures le(a, c) {
        assert !nameLess(b.name, a.name) && !nameLess(c.name, b.name);
      }
    }
  }
}
