/**
 * The preset facade: the part of an audio unit that holds its factory presets, its user
 * presets and its current preset. Factory presets carry numbers >= 0 and user presets
 * numbers < 0. Saving and deleting user presets follow the in-memory facade of the presets
 * feature (`FakeSource`): save replaces the first preset with the same number in place or
 * appends, delete removes every preset with that number.
 */
module PresetsFacade {
  import opened Wrappers

  /** An audio unit preset (`AUAudioUnitPreset`): a number and a name. */
  datatype Preset = Preset(number: int, name: string)

  predicate IsFactoryNumber(n: int) { n >= 0 }

  predicate IsUserNumber(n: int) { n < 0 }

  /** The numbers of `presets`, in order. */
  function Numbers(presets: seq<Preset>): (r: seq<int>)
    ensures |r| == |presets|
    ensures forall i :: 0 <= i < |presets| ==> r[i] == presets[i].number
  {
    seq(|presets|, i requires 0 <= i < |presets| => presets[i].number)
  }

  /** No two presets of the list share a number. */
  predicate DistinctNumbers(presets: seq<Preset>)
  {
    forall i, j :: 0 <= i < j < |presets| ==> presets[i].number != presets[j].number
  }

  /** Every preset of the list is a user preset. */
  predicate AllUser(presets: seq<Preset>)
  {
    forall i :: 0 <= i < |presets| ==> IsUserNumber(presets[i].number)
  }

  /** The index of the first preset numbered `n`, if any. */
  function FirstIndex(presets: seq<Preset>, n: int): (r: Option<nat>)
    ensures r.Some? ==> r.value < |presets| && presets[r.value].number == n
    ensures r.Some? ==> forall j :: 0 <= j < r.value ==> presets[j].number != n
    ensures r.None? <==> forall j :: 0 <= j < |presets| ==> presets[j].number != n
  {
    if presets == [] then None
    else if presets[0].number == n then Some(0)
    else match FirstIndex(presets[1..], n)
      case Some(i) => Some(i + 1)
      case None => None
  }

  /** The contract of `FirstIndex` pins the index down: it is the first position holding `n`. */
  lemma {:induction false} FirstIndexIsFirst(presets: seq<Preset>, n: int, i: nat)
    requires i < |presets| && presets[i].number == n
    requires forall j :: 0 <= j < i ==> presets[j].number != n
    ensures FirstIndex(presets, n) == Some(i)
  {
    if i > 0 {
      FirstIndexIsFirst(presets[1..], n, i - 1);
    }
  }

  /** The first preset numbered `n`, if any (`first { $0.number == n }`). */
  function FirstWithNumber(presets: seq<Preset>, n: int): (r: Option<Preset>)
    ensures r.None? <==> forall j :: 0 <= j < |presets| ==> presets[j].number != n
    ensures r.Some? ==> r.value.number == n && r.value in presets
    ensures r.Some? ==> exists i :: 0 <= i < |presets| && presets[i] == r.value
                                 && forall j :: 0 <= j < i ==> presets[j].number != n
  {
    match FirstIndex(presets, n)
    case Some(i) => Some(presets[i])
    case None => None
  }

  /** The user list after `saveUserPreset(p)`: the first preset with `p`'s number is replaced, or `p` is appended. */
  function Upserted(presets: seq<Preset>, p: Preset): (r: seq<Preset>)
    ensures p in r
    ensures |presets| <= |r| <= |presets| + 1
    ensures forall i :: 0 <= i < |presets| && presets[i].number != p.number ==> r[i] == presets[i]
  {
    match FirstIndex(presets, p.number)
    case Some(i) =>
      assert presets[i := p][i] == p;
      presets[i := p]
    case None => presets + [p]
  }

  /** The user list after `deleteUserPreset(p)`: every preset numbered `n` is removed, the rest kept in order. */
  function WithoutNumber(presets: seq<Preset>, n: int): (r: seq<Preset>)
    ensures |r| <= |presets|
    ensures forall q :: q in r <==> q in presets && q.number != n
  {
    if presets == [] then []
    else if presets[0].number == n then WithoutNumber(presets[1..], n)
    else [presets[0]] + WithoutNumber(presets[1..], n)
  }

  /** Saving `p` makes it the preset found for its number. */
  lemma UpsertedFinds(presets: seq<Preset>, p: Preset)
    ensures FirstWithNumber(Upserted(presets, p), p.number) == Some(p)
  {
    var r := Upserted(presets, p);
    match FirstIndex(presets, p.number)
    case Some(i) =>
      FirstIndexIsFirst(r, p.number, i);
    case None =>
      FirstIndexIsFirst(r, p.number, |presets|);
  }

  /** Saving grows the list by one exactly when no preset had `p`'s number, and keeps every other number's preset. */
  lemma UpsertedSize(presets: seq<Preset>, p: Preset)
    ensures |Upserted(presets, p)| == |presets| + (if FirstWithNumber(presets, p.number).None? then 1 else 0)
    ensures forall q :: q in presets && q.number != p.number ==> q in Upserted(presets, p)
    ensures forall q :: q in Upserted(presets, p) ==> q == p || q in presets
  {
    match FirstIndex(presets, p.number)
    case Some(i) =>
      var r := presets[i := p];
      forall q | q in presets && q.number != p.number ensures q in r {
        var k :| 0 <= k < |presets| && presets[k] == q;
        assert r[k] == q;
      }
    case None =>
  }

  /** Saving keeps user numbers distinct, and negative when `p` is a user preset. */
  lemma UpsertedKeepsInvariant(presets: seq<Preset>, p: Preset)
    requires DistinctNumbers(presets)
    ensures DistinctNumbers(Upserted(presets, p))
    ensures AllUser(presets) && IsUserNumber(p.number) ==> AllUser(Upserted(presets, p))
  {
  }

  /** Deleting keeps user numbers distinct and negative. */
  lemma {:induction false} WithoutNumberKeepsInvariant(presets: seq<Preset>, n: int)
    ensures DistinctNumbers(presets) ==> DistinctNumbers(WithoutNumber(presets, n))
    ensures AllUser(presets) ==> AllUser(WithoutNumber(presets, n))
  {
    if DistinctNumbers(presets) {
      WithoutNumberKeepsDistinct(presets, n);
    }
    if AllUser(presets) {
      WithoutNumberKeepsAllUser(presets, n);
    }
  }

  lemma {:induction false} WithoutNumberKeepsDistinct(presets: seq<Preset>, n: int)
    requires DistinctNumbers(presets)
    ensures DistinctNumbers(WithoutNumber(presets, n))
  {
    if presets != [] {
      var tail := presets[1..];
      forall i, j | 0 <= i < j < |tail| ensures tail[i].number != tail[j].number {
        assert tail[i] == presets[i + 1] && tail[j] == presets[j + 1];
      }
      WithoutNumberKeepsDistinct(tail, n);
      if presets[0].number != n {
        forall j | 0 <= j < |tail| ensures tail[j].number != presets[0].number {
          assert tail[j] == presets[j + 1];
        }
        WithoutNumberAvoids(tail, n, presets[0].number);
        var rest := WithoutNumber(tail, n);
        var r := [presets[0]] + rest;
        forall i, j | 0 <= i < j < |r| ensures r[i].number != r[j].number {
          assert r[j] == rest[j - 1];
          if i > 0 {
            assert r[i] == rest[i - 1];
          }
        }
        assert WithoutNumber(presets, n) == r;
      }
    }
  }

  /** A number no preset has stays absent after a delete. */
  lemma {:induction false} WithoutNumberAvoids(presets: seq<Preset>, n: int, x: int)
    requires forall j :: 0 <= j < |presets| ==> presets[j].number != x
    ensures forall j :: 0 <= j < |WithoutNumber(presets, n)| ==> WithoutNumber(presets, n)[j].number != x
  {
    if presets != [] {
      WithoutNumberAvoids(presets[1..], n, x);
    }
  }

  lemma {:induction false} WithoutNumberKeepsAllUser(presets: seq<Preset>, n: int)
    requires AllUser(presets)
    ensures AllUser(WithoutNumber(presets, n))
  {
    if presets != [] {
      assert AllUser(presets[1..]);
      WithoutNumberKeepsAllUser(presets[1..], n);
    }
  }

  /** Deleting the number of a freshly appended preset gives back the list it was saved into. */
  lemma {:induction false} DeleteUndoesNewSave(presets: seq<Preset>, p: Preset)
    requires FirstWithNumber(presets, p.number).None?
    ensures WithoutNumber(Upserted(presets, p), p.number) == presets
  {
    WithoutNumberOfAbsent(presets, p.number);
    WithoutNumberAppend(presets, [p], p.number);
  }

  lemma {:induction false} WithoutNumberOfAbsent(presets: seq<Preset>, n: int)
    requires forall j :: 0 <= j < |presets| ==> presets[j].number != n
    ensures WithoutNumber(presets, n) == presets
  {
    if presets != [] {
      WithoutNumberOfAbsent(presets[1..], n);
    }
  }

  lemma {:induction false} WithoutNumberAppend(a: seq<Preset>, b: seq<Preset>, n: int)
    ensures WithoutNumber(a + b, n) == WithoutNumber(a, n) + WithoutNumber(b, n)
  {
    if a == [] {
      assert a + b == b;
    } else {
      assert (a + b)[1..] == a[1..] + b;
      WithoutNumberAppend(a[1..], b, n);
    }
  }

  /** `currentPreset` after `clearCurrentPresetIfFactoryPreset()`. */
  function ClearedIfFactory(current: Option<Preset>): (r: Option<Preset>)
    ensures r.None? || r == current
    ensures r.Some? ==> IsUserNumber(r.value.number)
    ensures current.Some? && IsUserNumber(current.value.number) ==> r == current
  {
    if current.Some? && IsFactoryNumber(current.value.number) then None else current
  }

  /** Clearing leaves no factory preset current, keeps a user preset, and a second clearing changes nothing. */
  lemma ClearedIfFactoryFacts(current: Option<Preset>)
    ensures ClearedIfFactory(current).Some? ==> IsUserNumber(ClearedIfFactory(current).value.number)
    ensures current.Some? && IsUserNumber(current.value.number) ==> ClearedIfFactory(current) == current
    ensures ClearedIfFactory(ClearedIfFactory(current)) == ClearedIfFactory(current)
  {
  }

  /** An object that offers presets (`AUAudioUnitPresetsFacade`), with the save/delete semantics of `FakeSource`. */
  class Facade {
    var factoryPresets: Option<seq<Preset>>
    var userPresets: seq<Preset>
    var currentPreset: Option<Preset>
    var supportsUserPresets: bool

    constructor (factory: Option<seq<Preset>>, user: seq<Preset>, current: Option<Preset>, supportsUser: bool)
      ensures factoryPresets == factory && userPresets == user
      ensures currentPreset == current && supportsUserPresets == supportsUser
    {
      factoryPresets := factory;
      userPresets := user;
      currentPreset := current;
      supportsUserPresets := supportsUser;
    }

    /** `factoryPresetsNonNil`: the factory presets, or none at all when the audio unit offers no list. */
    function FactoryPresetsNonNil(): (r: seq<Preset>)
      reads this
      ensures factoryPresets.Some? ==> r == factoryPresets.value
      ensures factoryPresets.None? ==> r == []
    {
      factoryPresets.GetOr([])
    }

    /** `clearCurrentPresetIfFactoryPreset()`: forget a current factory preset; keep a user preset. */
    method ClearCurrentPresetIfFactoryPreset()
      modifies this`currentPreset
      ensures currentPreset == ClearedIfFactory(old(currentPreset))
    {
      if currentPreset.Some? && currentPreset.value.number >= 0 {
        currentPreset := None;
      }
    }

    /** `saveUserPreset(_:)`: replace in place the first user preset with the same number, else append. */
    method SaveUserPreset(preset: Preset)
      modifies this`userPresets
      ensures userPresets == Upserted(old(userPresets), preset)
    {
      var index := 0;
      while index < |userPresets|
        invariant 0 <= index <= |userPresets|
        invariant userPresets == old(userPresets)
        invariant forall j :: 0 <= j < index ==> userPresets[j].number != preset.number
      {
        if userPresets[index].number == preset.number {
          FirstIndexIsFirst(userPresets, preset.number, index);
          userPresets := userPresets[index := preset];
          return;
        }
        index := index + 1;
      }
      userPresets := userPresets + [preset];
    }

    /** `deleteUserPreset(_:)`: remove every user preset with the same number. */
    method DeleteUserPreset(preset: Preset)
      modifies this`userPresets
      ensures userPresets == WithoutNumber(old(userPresets), preset.number)
    {
      var kept: seq<Preset> := [];
      var index := |userPresets|;
      while index > 0
        invariant 0 <= index <= |userPresets|
        invariant userPresets == old(userPresets)
        invariant kept == WithoutNumber(userPresets[index..], preset.number)
      {
        index := index - 1;
        assert userPresets[index..][1..] == userPresets[index + 1..];
        if userPresets[index].number != preset.number {
          kept := [userPresets[index]] + kept;
        }
      }
      userPresets := kept;
    }
  }
}
