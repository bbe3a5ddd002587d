/**
 * The audio unit adapter: the `AUAudioUnit` subclass that holds the parameter source and the
 * rendering kernel, applies presets when `currentPreset` changes, and records the current
 * preset in (and recovers it from) the `fullState` dictionary.
 */
module Adapter {
  import opened Wrappers
  import opened PresetsFacade
  import opened ParameterSource
  import opened DemoParameters

  /** `kAUPresetNameKey`. */
  const NameKey: string := "name"
  /** `kAUPresetNumberKey`. */
  const NumberKey: string := "preset-number"
  /** `kAudioUnitErr_FailedInitialization`. */
  const FailedInitialization: int := -10875
  /** Channels of the stereo layout every bus starts with. */
  const DefaultChannelCount: nat := 2
  /** `channelCapabilities`: mono in/out and stereo in/out. */
  const ChannelCapabilities: seq<int> := [1, 1, 2, 2]

  /** `NSNumber.intValue`: a float truncates toward zero. */
  function TruncatedToInt(r: real): (n: int)
    ensures -1.0 < r - n as real < 1.0
    ensures r >= 0.0 ==> 0 <= n && n as real <= r
    ensures r < 0.0 ==> n <= 0 && r <= n as real
  {
    if r >= 0.0 then r.Floor else -((-r).Floor)
  }

  /** The value of an entry read `as? NSNumber`: integers, and `AUValue` floats bridged to a number. */
  function NumberValue(v: StateValue): (r: Option<int>)
    ensures r.Some? <==> v.IntValue? || v.AUValue?
    ensures v.IntValue? ==> r == Some(v.i)
    ensures v.AUValue? ==> r == Some(TruncatedToInt(v.v))
  {
    match v
    case IntValue(i) => Some(i)
    case AUValue(f) => Some(TruncatedToInt(f))
    case _ => None
  }

  /** The preset a state names: a string under the name key and a number under the number key. */
  function StoredPreset(state: Option<StateDict>): (r: Option<Preset>)
    ensures r.Some? <==> state.Some? && NameKey in state.value && state.value[NameKey].StringValue?
                         && NumberKey in state.value && NumberValue(state.value[NumberKey]).Some?
    ensures r.Some? ==> r.value.name == state.value[NameKey].s
                        && Some(r.value.number) == NumberValue(state.value[NumberKey])
  {
    if state.Some? && NameKey in state.value && state.value[NameKey].StringValue?
       && NumberKey in state.value && NumberValue(state.value[NumberKey]).Some?
    then Some(Preset(NumberValue(state.value[NumberKey]).value, state.value[NameKey].s))
    else None
  }

  /**
   * `currentPreset` after the `fullState` setter: the state's preset when its number differs
   * from the current one; the current preset when the numbers agree; none when the state
   * names no preset.
   */
  function PresetAfterWrite(current: Option<Preset>, state: Option<StateDict>): (r: Option<Preset>)
    ensures StoredPreset(state).None? ==> r.None?
    ensures StoredPreset(state).Some? && current.Some? && current.value.number == StoredPreset(state).value.number ==> r == current
    ensures StoredPreset(state).Some? && !(current.Some? && current.value.number == StoredPreset(state).value.number)
            ==> r == StoredPreset(state)
  {
    match StoredPreset(state)
    case Some(q) => if current.Some? && current.value.number == q.number then current else Some(q)
    case None => None
  }

  /** The state with the current preset's name and number recorded, if there is one. */
  function WithPreset(d: StateDict, current: Option<Preset>): (r: StateDict)
    ensures forall k :: k != NameKey && k != NumberKey ==> (k in r <==> k in d) && (k in d ==> r[k] == d[k])
    ensures current.Some? ==> NameKey in r && r[NameKey] == StringValue(current.value.name)
    ensures current.Some? ==> NumberKey in r && r[NumberKey] == IntValue(current.value.number)
    ensures current.None? ==> r == d
  {
    if current.Some? then d[NameKey := StringValue(current.value.name)][NumberKey := IntValue(current.value.number)]
    else d
  }

  /** The `fullState` getter: the base state, then every parameter's value, then the current preset. */
  function FullStateValue(base: Option<StateDict>, ids: seq<string>, values: seq<real>, current: Option<Preset>): (r: StateDict)
    requires |ids| == |values|
    ensures forall k :: k != NameKey && k != NumberKey ==> (k in r <==> (base.Some? && k in base.value) || k in ids)
    ensures forall k :: k != NameKey && k != NumberKey && base.Some? && k in base.value && k !in ids ==> r[k] == base.value[k]
    ensures forall j :: LastOccurrence(ids, j) && ids[j] != NameKey && ids[j] != NumberKey ==> r[ids[j]] == AUValue(values[j])
    ensures current.Some? ==> NameKey in r && r[NameKey] == StringValue(current.value.name)
                              && NumberKey in r && r[NumberKey] == IntValue(current.value.number)
  {
    StoredHoldsLast(ids, values, base.GetOr(map[]));
    WithPreset(Stored(ids, values, base.GetOr(map[])), current)
  }

  /** Neither preset key is in the state. */
  predicate NoPresetKeys(d: StateDict)
  {
    NameKey !in d && NumberKey !in d
  }

  /**
   * The read state names the current preset whenever there is one. With no current preset it
   * names none, provided neither the base state nor a parameter identifier uses the preset keys.
   */
  lemma FullStateRecordsPreset(base: Option<StateDict>, ids: seq<string>, values: seq<real>, current: Option<Preset>)
    requires |ids| == |values|
    ensures current.Some? ==> StoredPreset(Some(FullStateValue(base, ids, values, current))) == current
    ensures current.None? && (base.Some? ==> NoPresetKeys(base.value)) && NameKey !in ids && NumberKey !in ids ==>
              var r := FullStateValue(base, ids, values, current);
              NameKey !in r && NumberKey !in r && StoredPreset(Some(r)).None?
  {
    var r := FullStateValue(base, ids, values, current);
    if current.Some? {
      assert r[NumberKey] == IntValue(current.value.number);
    }
  }

  /**
   * Writing back the state just read leaves the current preset as it was: always when there is
   * one, and with none when the base state and the identifiers avoid the preset keys.
   */
  lemma WriteBackKeepsPreset(base: Option<StateDict>, ids: seq<string>, values: seq<real>, current: Option<Preset>)
    requires |ids| == |values|
    ensures current.Some? ==> PresetAfterWrite(current, Some(FullStateValue(base, ids, values, current))) == current
    ensures current.None? && (base.Some? ==> NoPresetKeys(base.value)) && NameKey !in ids && NumberKey !in ids ==>
              PresetAfterWrite(current, Some(FullStateValue(base, ids, values, current))) == current
  {
    FullStateRecordsPreset(base, ids, values, current);
  }

  /**
   * With no current preset, preset keys left in the base state survive the read, so writing the
   * state back selects the preset they name.
   */
  lemma StaleKeysSelectPreset(ids: seq<string>, values: seq<real>)
    requires |ids| == |values| && NameKey !in ids && NumberKey !in ids
    ensures var base := map[NameKey := StringValue("x"), NumberKey := IntValue(-7)];
            PresetAfterWrite(None, Some(FullStateValue(Some(base), ids, values, None))) == Some(Preset(-7, "x"))
  {
    var base := map[NameKey := StringValue("x"), NumberKey := IntValue(-7)];
    var r := FullStateValue(Some(base), ids, values, None);
    assert r[NameKey] == StringValue("x") && r[NumberKey] == IntValue(-7);
  }

  /**
   * `currentPreset` once its `didSet` has run: for a user preset whose saved state loads, the
   * loaded state is written to `fullState`, which may replace the preset (the observer that
   * replacement would trigger is not re-run).
   */
  function Observed(p: Option<Preset>, loaded: Option<StateDict>): (r: Option<Preset>)
    ensures !(p.Some? && IsUserNumber(p.value.number) && loaded.Some?) ==> r == p
    ensures p.Some? && IsUserNumber(p.value.number) && loaded.Some? && StoredPreset(loaded).None? ==> r.None?
    ensures (p.Some? && IsUserNumber(p.value.number) && StoredPreset(loaded).Some?
             && StoredPreset(loaded).value.number == p.value.number) ==> r == p
    ensures (p.Some? && IsUserNumber(p.value.number) && StoredPreset(loaded).Some?
             && StoredPreset(loaded).value.number != p.value.number) ==> r == StoredPreset(loaded)
  {
    if p.Some? && IsUserNumber(p.value.number) && loaded.Some? then PresetAfterWrite(p, loaded) else p
  }

  /** The result of `allocateRenderResources`: success, or the `OSStatus` it throws. */
  datatype AllocationResult = Allocated | Failed(status: int)

  class AudioUnitAdapter {
    var parameters: Parameters?
    var kernelConfigured: bool
    var currentPreset: Option<Preset>
    var inputChannelCount: nat
    var outputChannelCount: nat
    var renderResourcesAllocated: bool

    /** `init`: stereo busses, nothing configured, no preset. */
    constructor ()
      ensures parameters == null && !kernelConfigured && currentPreset.None?
      ensures inputChannelCount == DefaultChannelCount && outputChannelCount == DefaultChannelCount
      ensures !renderResourcesAllocated
    {
      parameters := null;
      kernelConfigured := false;
      currentPreset := None;
      inputChannelCount := DefaultChannelCount;
      outputChannelCount := DefaultChannelCount;
      renderResourcesAllocated := false;
    }

    /** `factoryPresets`: those of the parameter source. */
    function FactoryPresetList(): seq<Preset>
      reads this
      requires parameters != null
    {
      FactoryPresets()
    }

    /**
     * Assignment to `currentPreset` with its `didSet`: a factory preset applies its values; a user
     * preset whose saved state `loaded` could be read writes it to `fullState` and applies its
     * parameter values; clearing the preset, or a user preset whose state is unreadable,
     * changes no parameter.
     */
    method SetCurrentPreset(p: Option<Preset>, loaded: Option<StateDict>)
      requires parameters != null && parameters.Valid()
      requires p.Some? ==> p.value.number < |FactoryPresetValues|
      modifies this`currentPreset, set q | q in parameters.parameters
      ensures currentPreset == Observed(p, loaded)
      ensures p.Some? && IsFactoryNumber(p.value.number) ==>
                parameters.Gain().value == FactoryPresetValues[p.value.number].preset.gain
      ensures p.Some? && IsUserNumber(p.value.number) && loaded.Some? ==>
                Values(parameters.parameters) == AppliedAll(loaded.value, Identifiers(parameters.parameters), old(Values(parameters.parameters)))
      ensures p.None? || (IsUserNumber(p.value.number) && loaded.None?) ==>
                Values(parameters.parameters) == old(Values(parameters.parameters))
    {
      currentPreset := p;
      if p.Some? {
        var preset := p.value;
        if preset.number >= 0 {
          parameters.UseFactoryPreset(preset);
        } else if loaded.Some? {
          var state := loaded.value;
          var q := StoredPreset(Some(state));
          if q.Some? {
            if currentPreset.None? || currentPreset.value.number != q.value.number {
              currentPreset := q;
            }
          } else {
            currentPreset := None;
          }
          UseUserPreset(parameters.parameters, state);
        }
      }
    }

    /**
     * `configure`: install the parameter source and the kernel, then select the first factory
     * preset, which applies its values.
     */
    method Configure(source: Parameters)
      requires source.Valid()
      modifies this, set q | q in source.parameters
      ensures parameters == source && kernelConfigured
      ensures currentPreset == (if |FactoryPresets()| > 0 then Some(FactoryPresets()[0]) else None)
      ensures source.Gain().value == FactoryPresetValues[0].preset.gain
      ensures inputChannelCount == old(inputChannelCount) && outputChannelCount == old(outputChannelCount)
      ensures renderResourcesAllocated == old(renderResourcesAllocated)
    {
      parameters := source;
      kernelConfigured := true;
      var factory := FactoryPresets();
      SetCurrentPreset(if |factory| > 0 then Some(factory[0]) else None, None);
    }

    /** The `fullState` getter, given what `super.fullState` returns. */
    method FullState(base: Option<StateDict>) returns (state: StateDict)
      requires parameters != null
      ensures state == FullStateValue(base, Identifiers(parameters.parameters), Values(parameters.parameters), currentPreset)
    {
      var value := if base.Some? then base.value else map[];
      value := StoreParameters(parameters.parameters, value);
      if currentPreset.Some? {
        var preset := currentPreset.value;
        value := value[NameKey := StringValue(preset.name)];
        value := value[NumberKey := IntValue(preset.number)];
      }
      state := value;
    }

    /**
     * The `fullState` setter. A state naming a preset with a new number selects that preset
     * (its saved state, when a user preset, is `loaded`); one with the current number changes
     * nothing; a missing state or one without both keys clears the preset.
     */
    method SetFullState(newValue: Option<StateDict>, loaded: Option<StateDict>)
      requires parameters != null && parameters.Valid()
      requires PresetAfterWrite(currentPreset, newValue).Some? ==>
                 PresetAfterWrite(currentPreset, newValue).value.number < |FactoryPresetValues|
      modifies this`currentPreset, set q | q in parameters.parameters
      ensures PresetAfterWrite(old(currentPreset), newValue) == old(currentPreset) ==>
                currentPreset == old(currentPreset) && Values(parameters.parameters) == old(Values(parameters.parameters))
      ensures PresetAfterWrite(old(currentPreset), newValue) != old(currentPreset) ==>
                currentPreset == Observed(PresetAfterWrite(old(currentPreset), newValue), loaded)
      ensures var p := PresetAfterWrite(old(currentPreset), newValue);
              p != old(currentPreset) && p.Some? && IsFactoryNumber(p.value.number) ==>
                parameters.Gain().value == FactoryPresetValues[p.value.number].preset.gain
      ensures var p := PresetAfterWrite(old(currentPreset), newValue);
              p != old(currentPreset) && p.Some? && IsUserNumber(p.value.number) && loaded.Some? ==>
                Values(parameters.parameters) == AppliedAll(loaded.value, Identifiers(parameters.parameters), old(Values(parameters.parameters)))
      ensures var p := PresetAfterWrite(old(currentPreset), newValue);
              p != old(currentPreset) && (p.None? || (IsUserNumber(p.value.number) && loaded.None?)) ==>
                Values(parameters.parameters) == old(Values(parameters.parameters))
    {
      var q := StoredPreset(newValue);
      if q.Some? {
        if currentPreset.None? || currentPreset.value.number != q.value.number {
          SetCurrentPreset(q, loaded);
        }
      } else {
        SetCurrentPreset(None, loaded);
      }
    }

    /**
     * `allocateRenderResources`: fails without a kernel, and fails (marking resources
     * unallocated) when the input and output channel counts differ.
     */
    method AllocateRenderResources() returns (r: AllocationResult)
      modifies this`renderResourcesAllocated
      ensures !kernelConfigured ==> r == Failed(FailedInitialization) && renderResourcesAllocated == old(renderResourcesAllocated)
      ensures kernelConfigured && inputChannelCount != outputChannelCount ==>
                r == Failed(FailedInitialization) && !renderResourcesAllocated
      ensures kernelConfigured && inputChannelCount == outputChannelCount ==> r == Allocated && renderResourcesAllocated
    {
      if !kernelConfigured {
        return Failed(FailedInitialization);
      }
      if outputChannelCount != inputChannelCount {
        renderResourcesAllocated := false;
        return Failed(FailedInitialization);
      }
      renderResourcesAllocated := true;
      r := Allocated;
    }

    /** `parametersForOverview(withCount:)`: the addresses of the first `max(1, min(n, count))` parameters. */
    function ParametersForOverview(withCount: int): (r: seq<int>)
      reads this
      requires parameters != null && |parameters.parameters| >= 1
      ensures 1 <= |r| <= |parameters.parameters|
      ensures withCount >= 1 ==> |r| == if withCount < |parameters.parameters| then withCount else |parameters.parameters|
      ensures withCount < 1 ==> |r| == 1
      ensures forall i :: 0 <= i < |r| ==> r[i] == parameters.parameters[i].address
    {
      var ps := parameters.parameters;
      var n := if withCount < |ps| then withCount else |ps|;
      var count := if n < 1 then 1 else n;
      seq(count, i requires 0 <= i < count => ps[i].address)
    }
  }
}
