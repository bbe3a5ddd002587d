/** The errors the audio unit loader reports, and their descriptions. */
module LoaderError {

  datatype AudioUnitLoaderError =
    | NilAudioUnit
    | NilViewController
    | ComponentNotFound
    | Framework(error: string)

  const FrameworkPrefix: string := "Framework error: "

  /**
   * `description`: a fixed message per case; a framework error carries its own text after a prefix.
   * Each fixed message is written as two shorter literals so that the verifier can look at its
   * characters; a single literal of this length stays opaque to it.
   */
  function Description(e: AudioUnitLoaderError): (r: string)
    ensures e.Framework? <==> |r| >= |FrameworkPrefix| && r[..|FrameworkPrefix|] == FrameworkPrefix
    ensures e.Framework? ==> r[|FrameworkPrefix|..] == e.error
  {
    match e
    case NilAudioUnit =>
      var m := "Failed to obtain a usable " + "audio unit instance.";
      assert m[1] == 'a' && FrameworkPrefix[1] == 'r';
      m
    case NilViewController =>
      var m := "Failed to obtain a view " + "controller from the audio unit.";
      assert m[1] == 'a' && FrameworkPrefix[1] == 'r';
      m
    case ComponentNotFound =>
      var m := "Failed to locate the AUv3 " + "component to instantiate.";
      assert m[1] == 'a' && FrameworkPrefix[1] == 'r';
      m
    case Framework(err) => FrameworkPrefix + err
  }

  /** Different errors never describe alike, so a description identifies its error. */
  lemma DescriptionIsInjective(a: AudioUnitLoaderError, b: AudioUnitLoaderError)
    requires Description(a) == Description(b)
    ensures a == b
  {
  }
}
