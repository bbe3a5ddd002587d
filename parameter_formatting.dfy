/**
 * Parameter value formatting: the strings that sit between a value and its unit, the
 * `printf`-style formats for display and editing, and the display and editing formatters.
 * Rendering a number under a format (`String(format:)`) is a parameter of the model.
 */
module ParameterFormatting {
  import opened Wrappers

  /** `String(format:_:)`: renders a value under a `printf`-style format. */
  type Render = (string, real) -> string

  const DefaultUnitSeparator: string := " "
  const DefaultDisplayFormat: string := "%.2f"
  const DefaultEditingFormat: string := "%.3f"

  /** The attributes of an `AUParameterFormatting` conformer. */
  datatype Formatting = Formatting(unitSeparator: string, suffix: string, displayFormat: string, editingFormat: string)
  {
    /** `makeFormattingSuffix(from:)`: nothing for a missing or empty unit, else the separator and the unit. */
    function MakeFormattingSuffix(unit: Option<string>): (r: string)
      ensures unit.None? || unit.value == [] ==> r == []
      ensures unit.Some? && unit.value != [] ==> r == unitSeparator + unit.value
      ensures r == [] <==> unit.None? || unit.value == []
    {
      if unit.None? || |unit.value| == 0 then "" else unitSeparator + unit.value
    }

    /** `displayValueFormatter`: the value under the display format, followed by the suffix. */
    function DisplayValue(render: Render, value: real): (r: string)
      ensures |r| >= |suffix| && r[|r| - |suffix|..] == suffix
      ensures r[..|r| - |suffix|] == render(displayFormat, value)
    {
      render(displayFormat, value) + suffix
    }

    /** `editingValueFormatter`: the value under the editing format, with no suffix. */
    function EditingValue(render: Render, value: real): (r: string)
      ensures r == render(editingFormat, value)
      ensures displayFormat == editingFormat ==> DisplayValue(render, value) == r + suffix
    {
      render(editingFormat, value)
    }
  }

  /** A conformer that only supplies a suffix and takes every default. */
  function WithDefaults(suffix: string): (f: Formatting)
    ensures f.suffix == suffix
    ensures f.unitSeparator == " " && f.displayFormat == "%.2f" && f.editingFormat == "%.3f"
  {
    Formatting(DefaultUnitSeparator, suffix, DefaultDisplayFormat, DefaultEditingFormat)
  }

  /** Display and editing text differ only by the suffix when the two formats agree. */
  lemma DisplayIsEditingPlusSuffix(f: Formatting, render: Render, value: real)
    requires f.displayFormat == f.editingFormat
    ensures f.DisplayValue(render, value) == f.EditingValue(render, value) + f.suffix
  {
  }

  /** The demo's `AUParameter` formatting: no separator, the unit name as suffix, two decimals for display. */
  function AUParameterFormatting(unitName: Option<string>): (f: Formatting)
    ensures f.unitSeparator == "" && f.displayFormat == "%.2f" && f.editingFormat == "%.3f"
    ensures f.suffix == f.MakeFormattingSuffix(unitName)
  {
    var base := Formatting("", "", DefaultDisplayFormat, DefaultEditingFormat);
    base.(suffix := base.MakeFormattingSuffix(unitName))
  }

  /** With no separator the demo's suffix is the unit name itself, or nothing. */
  lemma AUParameterSuffixIsUnitName(unitName: Option<string>)
    ensures AUParameterFormatting(unitName).suffix == unitName.GetOr("")
  {
  }
}
