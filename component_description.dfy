/**
 * `AudioComponentDescription`: the five fields that identify an audio component, a
 * three-string initializer, a textual description and field-wise equality.
 */
module ComponentDescription {
  import opened Text

  /**
   * A four-character code. The packing of the characters into a 32-bit integer is not part of
   * the model: a code is known by the string it was made from, and `stringValue` gives it back.
   */
  datatype FourCharCode = FourCharCode(stringValue: string)

  datatype AudioComponentDescription = AudioComponentDescription(
    componentType: FourCharCode,
    componentSubType: FourCharCode,
    componentManufacturer: FourCharCode,
    componentFlags: nat,
    componentFlagsMask: nat)

  /** The three-string initializer: codes from the strings, no flags, no mask. */
  function FromStrings(componentType: string, componentSubType: string, componentManufacturer: string): (d: AudioComponentDescription)
    ensures d.componentType.stringValue == componentType
    ensures d.componentSubType.stringValue == componentSubType
    ensures d.componentManufacturer.stringValue == componentManufacturer
    ensures d.componentFlags == 0 && d.componentFlagsMask == 0
  {
    AudioComponentDescription(FourCharCode(componentType), FourCharCode(componentSubType), FourCharCode(componentManufacturer), 0, 0)
  }

  /** The opening of every description, up to the type code. */
  const TypeLabel: string := "<AudioComponentDescription type: '"

  /**
   * `description`: the three codes quoted, then the flags and mask in decimal. It opens with the
   * type code and closes with the mask's digits and '>'.
   */
  function Description(d: AudioComponentDescription): (r: string)
    ensures |r| > |TypeLabel| + |d.componentType.stringValue|
    ensures r[..|TypeLabel|] == TypeLabel
    ensures r[|TypeLabel|..|TypeLabel| + |d.componentType.stringValue|] == d.componentType.stringValue
    ensures r[|r| - 1] == '>'
    ensures |r| > |Decimal(d.componentFlagsMask)|
            && r[|r| - 1 - |Decimal(d.componentFlagsMask)|..|r| - 1] == Decimal(d.componentFlagsMask)
  {
    var head := TypeLabel + d.componentType.stringValue + "' ";
    var middle := "subtype: '" + d.componentSubType.stringValue + "' "
                  + "manufacturer: '" + d.componentManufacturer.stringValue + "' ";
    var tail := "flags: " + Decimal(d.componentFlags) + " mask: " + Decimal(d.componentFlagsMask) + ">";
    var r := head + middle + tail;
    assert r[..|head|] == head && head[..|TypeLabel|] == TypeLabel;
    assert r[|r| - |tail|..] == tail;
    r
  }

  /** Every description quotes the subtype, then the manufacturer, then gives the flags in decimal. */
  lemma DescriptionLayout(d: AudioComponentDescription)
    ensures var r := Description(d);
            var t := d.componentType.stringValue;
            var s := d.componentSubType.stringValue;
            var m := d.componentManufacturer.stringValue;
            var o1 := |TypeLabel| + |t| + |"' subtype: '"|;
            var o2 := o1 + |s| + |"' manufacturer: '"|;
            var o3 := o2 + |m| + |"' flags: "|;
            && |r| >= o3 + |Decimal(d.componentFlags)|
            && r[o1..o1 + |s|] == s
            && r[o2..o2 + |m|] == m
            && r[o3..o3 + |Decimal(d.componentFlags)|] == Decimal(d.componentFlags)
  {
    var head := TypeLabel + d.componentType.stringValue + "' ";
    var middle := "subtype: '" + d.componentSubType.stringValue + "' "
                  + "manufacturer: '" + d.componentManufacturer.stringValue + "' ";
    var tail := "flags: " + Decimal(d.componentFlags) + " mask: " + Decimal(d.componentFlagsMask) + ">";
    assert Description(d) == head + middle + tail;
  }

  /** The mask can be read back from the end of any description. */
  lemma DescriptionReadsBackMask(d: AudioComponentDescription)
    ensures var r := Description(d);
            var digits := r[|r| - 1 - |Decimal(d.componentFlagsMask)|..|r| - 1];
            (forall i :: 0 <= i < |digits| ==> IsDigit(digits[i])) && DecimalValue(digits) == d.componentFlagsMask
  {
    DecimalRoundTrip(d.componentFlagsMask);
  }

  /** `==`: every field agrees. */
  function Equal(lhs: AudioComponentDescription, rhs: AudioComponentDescription): (r: bool)
    ensures r <==> lhs == rhs
  {
    && lhs.componentType == rhs.componentType
    && lhs.componentSubType == rhs.componentSubType
    && lhs.componentManufacturer == rhs.componentManufacturer
    && lhs.componentFlags == rhs.componentFlags
    && lhs.componentFlagsMask == rhs.componentFlagsMask
  }

  /** Equality is reflexive and symmetric. */
  lemma EqualIsReflexiveAndSymmetric(a: AudioComponentDescription, b: AudioComponentDescription)
    ensures Equal(a, a)
    ensures Equal(a, b) == Equal(b, a)
  {
  }

  /** Changing any single field, even the case of one code character, breaks equality. */
  lemma SingleFieldChangeBreaksEquality(a: AudioComponentDescription, t: string, s: string, m: string, flags: nat, mask: nat)
    ensures t != a.componentType.stringValue ==> !Equal(a, a.(componentType := FourCharCode(t)))
    ensures s != a.componentSubType.stringValue ==> !Equal(a, a.(componentSubType := FourCharCode(s)))
    ensures m != a.componentManufacturer.stringValue ==> !Equal(a, a.(componentManufacturer := FourCharCode(m)))
    ensures flags != a.componentFlags ==> !Equal(a, a.(componentFlags := flags))
    ensures mask != a.componentFlagsMask ==> !Equal(a, a.(componentFlagsMask := mask))
    ensures !Equal(FromStrings("aufx", "abcd", "appl"), FromStrings("aufx", "abcD", "appl"))
  {
    assert "abcd"[3] != "abcD"[3];
  }

  /** The description of `aufx` / `abcd` / `appl` with flags 1 and mask 2. */
  lemma DescriptionExample()
    ensures Description(AudioComponentDescription(FourCharCode("aufx"), FourCharCode("abcd"), FourCharCode("appl"), 1, 2))
            == "<AudioComponentDescription type: 'aufx' " + "subtype: 'abcd' manufacturer: 'appl' " + "flags: 1 mask: 2>"
  {
    assert Decimal(1) == "1" && Decimal(2) == "2" by {
      assert DigitChar(1) == '1' && DigitChar(2) == '2';
    }
    assert TypeLabel + "aufx" + "' " == "<AudioComponentDescription type: 'aufx' ";
    assert "subtype: '" + "abcd" + "' " + "manufacturer: '" + "appl" + "' " == "subtype: 'abcd' manufacturer: 'appl' ";
    assert "flags: " + "1" + " mask: " + "2" + ">" == "flags: 1 mask: 2>";
  }
}
