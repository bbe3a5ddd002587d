/**
 * The demo effect's parameter source: a single gain parameter and four factory presets that
 * each fix the gain.
 */
module DemoParameters {
  import opened Wrappers
  import opened PresetsFacade
  import opened ParameterSource

  /** The kernel's address of the gain parameter, the only case of the address enumeration. */
  const GainAddress: int := 0

  /** `AUv3Demo_ParameterAddress.allCases`. */
  const AllAddresses: seq<int> := [GainAddress]

  /** The demo's own `Preset`: the values of all its parameters. */
  datatype GainPreset = GainPreset(gain: real)

  /** A factory preset name paired with its values. */
  datatype NamedValues = NamedValues(name: string, preset: GainPreset)

  /** `factoryPresetValues`. */
  const FactoryPresetValues: seq<NamedValues> := [
    NamedValues("Default", GainPreset(0.34)),
    NamedValues("None", GainPreset(0.0)),
    NamedValues("Full", GainPreset(1.0)),
    NamedValues("Half", GainPreset(0.5))
  ]

  /** `factoryPresets`: preset `i` carries number `i` and the name of the `i`th value set. */
  function FactoryPresets(): (r: seq<Preset>)
    ensures |r| == |FactoryPresetValues|
    ensures forall i :: 0 <= i < |r| ==> r[i] == Preset(i, FactoryPresetValues[i].name)
  {
    seq(|FactoryPresetValues|, i requires 0 <= i < |FactoryPresetValues| => Preset(i, FactoryPresetValues[i].name))
  }

  /** The factory presets are Default, None, Full and Half, numbered 0 to 3, and a search by number finds each one. */
  lemma FactoryPresetsFacts()
    ensures FactoryPresets() == [Preset(0, "Default"), Preset(1, "None"), Preset(2, "Full"), Preset(3, "Half")]
    ensures DistinctNumbers(FactoryPresets())
    ensures forall i :: 0 <= i < |FactoryPresets()| ==> IsFactoryNumber(FactoryPresets()[i].number)
    ensures forall i :: 0 <= i < |FactoryPresets()| ==> FirstWithNumber(FactoryPresets(), i) == Some(FactoryPresets()[i])
  {
    var r := FactoryPresets();
    forall i | 0 <= i < |r| ensures FirstWithNumber(r, i) == Some(r[i]) {
      FirstIndexIsFirst(r, i, i);
    }
  }

  /** `Parameters`: one `AUParameter` per address, in `allCases` order. */
  class Parameters {
    const parameters: seq<Parameter>

    /** The definition's initial gain is not part of the model; it is given here. */
    constructor (initialGain: real)
      ensures |parameters| == |AllAddresses|
      ensures forall i :: 0 <= i < |parameters| ==> parameters[i].address == AllAddresses[i]
      ensures parameters[GainAddress].identifier == "gain" && parameters[GainAddress].value == initialGain
      ensures fresh(parameters[GainAddress])
    {
      var gain := new Parameter("gain", GainAddress, initialGain);
      parameters := [gain];
    }

    /** The parameters are the ones the constructor made: one per address. */
    predicate Valid()
      reads this
    {
      |parameters| == |AllAddresses|
    }

    /** `gain`: the parameter found at the gain address's position. */
    function Gain(): Parameter
      reads this
      requires Valid()
    {
      parameters[GainAddress]
    }

    /** `setValues`. */
    method SetValues(preset: GainPreset)
      requires Valid()
      modifies Gain()
      ensures Gain().value == preset.gain
    {
      Gain().value := preset.gain;
    }

    /**
     * `useFactoryPreset`: a factory number selects its value set; a user number is ignored.
     * A number past the end of the table is an out-of-bounds trap, so callers must not pass one.
     */
    method UseFactoryPreset(preset: Preset)
      requires Valid()
      requires preset.number < |FactoryPresetValues|
      modifies Gain()
      ensures IsFactoryNumber(preset.number) ==> Gain().value == FactoryPresetValues[preset.number].preset.gain
      ensures IsUserNumber(preset.number) ==> Gain().value == old(Gain().value)
    {
      if preset.number >= 0 {
        SetValues(FactoryPresetValues[preset.number].preset);
      }
    }
  }
}
