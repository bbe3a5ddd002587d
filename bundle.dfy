/**
 * Bundle information of an app extension: values read from its info dictionary, the build
 * scheme read from its identifier, and the version strings built from them.
 */
module BundleInfo {
  import opened Wrappers
  import opened Text
  import opened ComponentDescription

  /** A value of an info dictionary: a string, or anything else. */
  datatype InfoValue = PString(s: string) | POther

  type InfoDictionary = map<string, InfoValue>

  /** A conformer of `AppExtensionBundleInfo`: its (already lowered) identifier and its info dictionary, if any. */
  datatype AppExtensionBundle = AppExtensionBundle(bundleID: string, infoDictionary: Option<InfoDictionary>)
  {
    /** `info(for:)`: the string under the key, or "" when the key is missing or holds no string. */
    function Info(key: string): (r: string)
      ensures infoDictionary.Some? && key in infoDictionary.value && infoDictionary.value[key].PString?
              ==> r == infoDictionary.value[key].s
      ensures !(infoDictionary.Some? && key in infoDictionary.value && infoDictionary.value[key].PString?) ==> r == ""
    {
      if infoDictionary.Some? && key in infoDictionary.value && infoDictionary.value[key].PString?
      then infoDictionary.value[key].s
      else ""
    }

    /** `scheme`: " Dev" for a development bundle (checked first), " Staging" for a staging one, else nothing. */
    function Scheme(): (r: string)
      ensures r == " Dev" <==> Contains(bundleID, ".dev")
      ensures r == " Staging" <==> !Contains(bundleID, ".dev") && Contains(bundleID, ".staging")
      ensures r == "" <==> !Contains(bundleID, ".dev") && !Contains(bundleID, ".staging")
    {
      if Contains(bundleID, ".dev") then " Dev"
      else if Contains(bundleID, ".staging") then " Staging"
      else ""
    }

    function ReleaseVersionNumber(): string { Info("CFBundleShortVersionString") }

    function BuildVersionNumber(): string { Info("CFBundleVersion") }

    /** `versionTag`: the release version, with a leading "v" added unless it has one. */
    function VersionTag(): (r: string)
      ensures |r| > 0 && r[0] == 'v'
      ensures |ReleaseVersionNumber()| > 0 && ReleaseVersionNumber()[0] == 'v' ==> r == ReleaseVersionNumber()
      ensures !(|ReleaseVersionNumber()| > 0 && ReleaseVersionNumber()[0] == 'v') ==> r == "v" + ReleaseVersionNumber()
      ensures r[1..] == ReleaseVersionNumber() || r == ReleaseVersionNumber()
    {
      var version := ReleaseVersionNumber();
      if |version| > 0 && version[0] == 'v' then version else "v" + version
    }

    /** `versionString`: "Version " then release and build joined by a dot, then the scheme. */
    function VersionString(): string
    {
      "Version " + ReleaseVersionNumber() + "." + BuildVersionNumber() + Scheme()
    }

    function AuBaseName(): string { Info("AU_BASE_NAME") }
    function AuComponentName(): string { Info("AU_COMPONENT_NAME") }
    function AuComponentTypeString(): string { Info("AU_COMPONENT_TYPE") }
    function AuComponentSubtypeString(): string { Info("AU_COMPONENT_SUBTYPE") }
    function AuComponentManufacturerString(): string { Info("AU_COMPONENT_MANUFACTURER") }
    function AuComponentType(): FourCharCode { FourCharCode(AuComponentTypeString()) }
    function AuComponentSubtype(): FourCharCode { FourCharCode(AuComponentSubtypeString()) }
    function AuComponentManufacturer(): FourCharCode { FourCharCode(AuComponentManufacturerString()) }

    /** `auExtensionName`: the base name followed by "AU.appex". */
    function AuExtensionName(): (r: string)
      ensures |r| == |AuBaseName()| + 8 && r[..|AuBaseName()|] == AuBaseName() && r[|AuBaseName()|..] == "AU.appex"
    {
      AuBaseName() + "AU.appex"
    }

    function AppStoreId(): string { Info("APP_STORE_ID") }
  }

  /** `Bundle.bundleID`: the bundle identifier lowercased, or "" without one. */
  function BundleID(identifier: Option<string>): (r: string)
    ensures identifier.None? ==> r == ""
    ensures identifier.Some? ==> |r| == |identifier.value|
                                 && forall i :: 0 <= i < |r| ==> r[i] == LowerChar(identifier.value[i])
    ensures forall i :: 0 <= i < |r| ==> !IsUpper(r[i])
  {
    if identifier.Some? then
      LowercasedIsLower(identifier.value);
      Lowercased(identifier.value)
    else ""
  }

  /**
   * `Bundle` as an `AppExtensionBundleInfo`: the identifier lowercased (or "" without one), and
   * `info(for:)` reading the bundle's own info dictionary.
   */
  function FromBundle(identifier: Option<string>, infoDictionary: Option<InfoDictionary>): (b: AppExtensionBundle)
    ensures identifier.None? ==> b.bundleID == ""
    ensures identifier.Some? ==> |b.bundleID| == |identifier.value|
                                 && forall i :: 0 <= i < |b.bundleID| ==> b.bundleID[i] == LowerChar(identifier.value[i])
    ensures forall key :: b.Info(key) == (if infoDictionary.Some? && key in infoDictionary.value
                                              && infoDictionary.value[key].PString?
                                           then infoDictionary.value[key].s else "")
  {
    AppExtensionBundle(BundleID(identifier), infoDictionary)
  }

  /** Each accessor reads its own key of the info dictionary, and each code is made from the string under its key. */
  lemma AccessorsReadTheirKeys(b: AppExtensionBundle, d: InfoDictionary)
    requires b.infoDictionary == Some(d)
    ensures "CFBundleShortVersionString" in d && d["CFBundleShortVersionString"].PString? ==>
              b.ReleaseVersionNumber() == d["CFBundleShortVersionString"].s
    ensures "CFBundleVersion" in d && d["CFBundleVersion"].PString? ==> b.BuildVersionNumber() == d["CFBundleVersion"].s
    ensures "AU_BASE_NAME" in d && d["AU_BASE_NAME"].PString? ==> b.AuBaseName() == d["AU_BASE_NAME"].s
    ensures "AU_COMPONENT_NAME" in d && d["AU_COMPONENT_NAME"].PString? ==> b.AuComponentName() == d["AU_COMPONENT_NAME"].s
    ensures "AU_COMPONENT_TYPE" in d && d["AU_COMPONENT_TYPE"].PString? ==>
              b.AuComponentTypeString() == d["AU_COMPONENT_TYPE"].s
              && b.AuComponentType().stringValue == d["AU_COMPONENT_TYPE"].s
    ensures "AU_COMPONENT_SUBTYPE" in d && d["AU_COMPONENT_SUBTYPE"].PString? ==>
              b.AuComponentSubtypeString() == d["AU_COMPONENT_SUBTYPE"].s
              && b.AuComponentSubtype().stringValue == d["AU_COMPONENT_SUBTYPE"].s
    ensures "AU_COMPONENT_MANUFACTURER" in d && d["AU_COMPONENT_MANUFACTURER"].PString? ==>
              b.AuComponentManufacturerString() == d["AU_COMPONENT_MANUFACTURER"].s
              && b.AuComponentManufacturer().stringValue == d["AU_COMPONENT_MANUFACTURER"].s
    ensures "APP_STORE_ID" in d && d["APP_STORE_ID"].PString? ==> b.AppStoreId() == d["APP_STORE_ID"].s
    ensures "AU_BASE_NAME" !in d ==> b.AuBaseName() == "" && b.AuExtensionName() == "AU.appex"
  {
  }

  /** A bundle without info dictionary answers "" for every key, and without identifier has no scheme. */
  lemma EmptyBundle(key: string)
    ensures FromBundle(None, None).Info(key) == ""
    ensures FromBundle(None, None).bundleID == ""
    ensures FromBundle(None, None).Scheme() == ""
    ensures FromBundle(None, None).VersionString() == "Version ."
  {
  }

  /** The layout of every version string: the label, the release version, a dot, and the scheme at the end. */
  lemma VersionStringLayout(b: AppExtensionBundle)
    ensures var r := b.VersionString();
            var release := b.ReleaseVersionNumber();
            && |r| == |"Version "| + |release| + 1 + |b.BuildVersionNumber()| + |b.Scheme()|
            && r[..|"Version "|] == "Version "
            && r[|"Version "|..|"Version "| + |release|] == release
            && r[|"Version "| + |release|] == '.'
            && r[|"Version "| + |release| + 1..|r| - |b.Scheme()|] == b.BuildVersionNumber()
            && r[|r| - |b.Scheme()|..] == b.Scheme()
  {
  }

  /** The strings built from the info dictionary of a development build of a chorus effect. */
  lemma VersionStringsExample()
    ensures var info := map["CFBundleShortVersionString" := PString("1.1.0"),
                            "CFBundleVersion" := PString("20220215161008"),
                            "AU_BASE_NAME" := PString("SimplyChorus")];
            var b := AppExtensionBundle("one.two.three.four.dev", Some(info));
            && b.Scheme() == " Dev"
            && b.VersionString() == "Version 1.1.0.20220215161008 Dev"
            && b.VersionTag() == "v1.1.0"
            && b.AuExtensionName() == "SimplyChorusAU.appex"
  {
    var info := map["CFBundleShortVersionString" := PString("1.1.0"),
                    "CFBundleVersion" := PString("20220215161008"),
                    "AU_BASE_NAME" := PString("SimplyChorus")];
    var b := AppExtensionBundle("one.two.three.four.dev", Some(info));
    assert b.Scheme() == " Dev" by {
      SchemeOfDevelopment();
    }
    assert b.VersionString() == "Version 1.1.0.20220215161008 Dev" by {
      assert b.ReleaseVersionNumber() == "1.1.0";
      assert b.BuildVersionNumber() == "20220215161008";
    }
    assert b.VersionTag() == "v1.1.0" by {
      assert b.ReleaseVersionNumber() == "1.1.0";
    }
    assert b.AuExtensionName() == "SimplyChorusAU.appex" by {
      assert b.AuBaseName() == "SimplyChorus";
    }
  }

  /** The scheme of a release, a development and a staging identifier. */
  lemma SchemeOfRelease(b: AppExtensionBundle)
    requires b.bundleID == "one.two.three.four"
    ensures b.Scheme() == ""
  {
    var s := b.bundleID;
    assert forall i :: 0 <= i < |s| - 1 && s[i] == '.' ==> s[i + 1] != 'd' && s[i + 1] != 's';
    NoDotFollowedBy(s, 'd', ".dev");
    NoDotFollowedBy(s, 's', ".staging");
  }

  lemma SchemeOfDevelopment()
    ensures AppExtensionBundle("one.two.three.four.dev", None).Scheme() == " Dev"
  {
    assert OccursAt("one.two.three.four.dev", ".dev", 18);
  }

  lemma SchemeOfStaging()
    ensures AppExtensionBundle("one.two.three.four.staging", None).Scheme() == " Staging"
  {
    assert OccursAt("one.two.three.four.staging", ".staging", 18);
    NoDotFollowedBy("one.two.three.four.staging", 'd', ".dev");
  }

  /** A pattern that starts with a dot and `c` does not occur where no dot is followed by `c`. */
  lemma NoDotFollowedBy(s: string, c: char, pattern: string)
    requires |pattern| >= 2 && pattern[0] == '.' && pattern[1] == c
    requires forall i :: 0 <= i < |s| - 1 && s[i] == '.' ==> s[i + 1] != c
    ensures !Contains(s, pattern)
  {
    forall i: nat ensures !OccursAt(s, pattern, i) {
      if i + |pattern| <= |s| {
        assert s[i..i + |pattern|][1] == s[i + 1];
      }
    }
  }
}
