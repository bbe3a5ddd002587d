/**
 * A parameter source: the runtime parameters of an audio unit, and the two loops that copy
 * their values into a `fullState` dictionary and back out of one.
 */
module ParameterSource {

  /** A value held in a `fullState` dictionary (`[String: Any]`). `AUValue` is a 32-bit float. */
  datatype StateValue =
    | AUValue(v: real)
    | IntValue(i: int)
    | StringValue(s: string)
    | OtherValue

  type StateDict = map<string, StateValue>

  /** An `AUParameter`: its identifier and address are fixed, its value changes. */
  class Parameter {
    const identifier: string
    const address: int
    var value: real

    constructor (identifier: string, address: int, value: real)
      ensures this.identifier == identifier && this.address == address && this.value == value
    {
      this.identifier := identifier;
      this.address := address;
      this.value := value;
    }
  }

  /** The identifiers of the parameters, in order. */
  function Identifiers(parameters: seq<Parameter>): (r: seq<string>)
    ensures |r| == |parameters|
    ensures forall i :: 0 <= i < |parameters| ==> r[i] == parameters[i].identifier
  {
    seq(|parameters|, i requires 0 <= i < |parameters| => parameters[i].identifier)
  }

  /** The current values of the parameters, in order. */
  function Values(parameters: seq<Parameter>): (r: seq<real>)
    reads set p | p in parameters
    ensures |r| == |parameters|
    ensures forall i :: 0 <= i < |parameters| ==> r[i] == parameters[i].value
  {
    seq(|parameters|, i requires 0 <= i < |parameters| reads set p | p in parameters => parameters[i].value)
  }

  /** No identifier occurs twice. */
  predicate DistinctIdentifiers(ids: seq<string>)
  {
    forall i, j :: 0 <= i < j < |ids| ==> ids[i] != ids[j]
  }

  /** Position `j` holds the last occurrence of its identifier. */
  predicate LastOccurrence(ids: seq<string>, j: int)
  {
    0 <= j < |ids| && forall m :: j < m < |ids| ==> ids[m] != ids[j]
  }

  /**
   * The dictionary after `dict[identifier] = value` for each parameter in turn: every identifier
   * is a key, holding the value of its last parameter; every other key is untouched.
   */
  function Stored(ids: seq<string>, values: seq<real>, dict: StateDict): (r: StateDict)
    requires |ids| == |values|
    ensures forall k :: k in r <==> k in dict || k in ids
    ensures forall k :: k in dict && k !in ids ==> r[k] == dict[k]
    decreases |ids|
  {
    if |ids| == 0 then dict
    else
      var n := |ids| - 1;
      var before := Stored(ids[..n], values[..n], dict);
      assert ids == ids[..n] + [ids[n]];
      before[ids[n] := AUValue(values[n])]
  }

  /** Each identifier holds the value of its last parameter. */
  lemma {:induction false} StoredHoldsLast(ids: seq<string>, values: seq<real>, dict: StateDict)
    requires |ids| == |values|
    ensures forall j :: LastOccurrence(ids, j) ==> Stored(ids, values, dict)[ids[j]] == AUValue(values[j])
    decreases |ids|
  {
    if |ids| > 0 {
      var n := |ids| - 1;
      var before := Stored(ids[..n], values[..n], dict);
      assert Stored(ids, values, dict) == before[ids[n] := AUValue(values[n])];
      StoredHoldsLast(ids[..n], values[..n], dict);
      forall j | LastOccurrence(ids, j)
        ensures Stored(ids, values, dict)[ids[j]] == AUValue(values[j])
      {
        if j < n {
          assert ids[n] != ids[j];
          assert ids[..n][j] == ids[j] && values[..n][j] == values[j];
          assert LastOccurrence(ids[..n], j);
        }
      }
    }
  }

  /** The value a parameter holds after `useUserPreset`: the dictionary's `AUValue` under its identifier, else its old value. */
  function Applied(dict: StateDict, id: string, old_value: real): real
  {
    if id in dict && dict[id].AUValue? then dict[id].v else old_value
  }

  /** `Applied` for every parameter. */
  function AppliedAll(dict: StateDict, ids: seq<string>, old_values: seq<real>): (r: seq<real>)
    requires |ids| == |old_values|
    ensures |r| == |ids|
    ensures forall i :: 0 <= i < |ids| ==> r[i] == Applied(dict, ids[i], old_values[i])
  {
    seq(|ids|, i requires 0 <= i < |ids| => Applied(dict, ids[i], old_values[i]))
  }

  /** `storeParameters(into:)`. */
  method StoreParameters(parameters: seq<Parameter>, dict: StateDict) returns (r: StateDict)
    ensures r == Stored(Identifiers(parameters), Values(parameters), dict)
  {
    r := dict;
    var i := 0;
    while i < |parameters|
      invariant 0 <= i <= |parameters|
      invariant r == Stored(Identifiers(parameters)[..i], Values(parameters)[..i], dict)
    {
      r := r[parameters[i].identifier := AUValue(parameters[i].value)];
      i := i + 1;
      assert Identifiers(parameters)[..i][..i - 1] == Identifiers(parameters)[..i - 1];
      assert Values(parameters)[..i][..i - 1] == Values(parameters)[..i - 1];
    }
    assert Identifiers(parameters)[..i] == Identifiers(parameters);
    assert Values(parameters)[..i] == Values(parameters);
  }

  /** `useUserPreset(from:)`: a parameter takes the dictionary's value only when it is an `AUValue`. */
  method UseUserPreset(parameters: seq<Parameter>, dict: StateDict)
    modifies set p | p in parameters
    ensures Values(parameters) == AppliedAll(dict, Identifiers(parameters), old(Values(parameters)))
  {
    var i := 0;
    while i < |parameters|
      invariant 0 <= i <= |parameters|
      invariant forall j :: 0 <= j < |parameters| ==>
                  parameters[j].value == old(parameters[j].value)
                  || parameters[j].value == Applied(dict, parameters[j].identifier, old(parameters[j].value))
      invariant forall j :: 0 <= j < i ==>
                  parameters[j].value == Applied(dict, parameters[j].identifier, old(parameters[j].value))
    {
      var id := parameters[i].identifier;
      if id in dict && dict[id].AUValue? {
        parameters[i].value := dict[id].v;
      }
      i := i + 1;
    }
  }

  /** Under distinct identifiers, every parameter's identifier maps to its own value. */
  lemma StoredHoldsEveryValue(ids: seq<string>, values: seq<real>, dict: StateDict)
    requires |ids| == |values| && DistinctIdentifiers(ids)
    ensures forall j :: 0 <= j < |ids| ==> Stored(ids, values, dict)[ids[j]] == AUValue(values[j])
  {
    StoredHoldsLast(ids, values, dict);
  }

  /**
   * `useUserPreset(d)` then `storeParameters(into: &d)` gives back every `AUValue` entry of `d`:
   * each parameter covered by `d` now holds `d`'s value.
   */
  lemma {:induction false} UseThenStore(ids: seq<string>, old_values: seq<real>, d: StateDict)
    requires |ids| == |old_values|
    ensures var r := Stored(ids, AppliedAll(d, ids, old_values), d);
            forall k :: k in d && d[k].AUValue? ==> r[k] == d[k]
    decreases |ids|
  {
    if |ids| > 0 {
      var n := |ids| - 1;
      UseThenStore(ids[..n], old_values[..n], d);
      assert AppliedAll(d, ids, old_values)[..n] == AppliedAll(d, ids[..n], old_values[..n]);
    }
  }

  /** `storeParameters(into: &d)` then `useUserPreset(from: d)` leaves every parameter value as it was. */
  lemma StoreThenUse(ids: seq<string>, values: seq<real>, d: StateDict)
    requires |ids| == |values| && DistinctIdentifiers(ids)
    ensures AppliedAll(Stored(ids, values, d), ids, values) == values
  {
    StoredHoldsEveryValue(ids, values, d);
  }
}
