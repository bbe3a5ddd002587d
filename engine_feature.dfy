/**
 * The engine feature: play / stop and bypass controls for the audio engine that feeds a
 * sample loop through the loaded effect. The engine is reduced to what the feature relies
 * on: it toggles between running and stopped, records the bypass setting and the connected
 * effect, and reports whether a sample loop could be loaded.
 */
module EngineFeature {
  import opened Wrappers

  /** What `setSampleLoop` did: loaded the loop, refused it, or threw. */
  datatype SampleLoopOutcome = Loaded | Refused | Threw

  /** The simple play engine, as the feature sees it. */
  class Engine {
    var running: bool
    var bypassed: bool
    var effect: Option<nat>

    constructor ()
      ensures !running && !bypassed && effect.None?
    {
      running := false;
      bypassed := false;
      effect := None;
    }

    /** `startStop`: toggles the engine and reports whether it now plays. */
    method StartStop() returns (playing: bool)
      modifies this`running
      ensures running == !old(running) && playing == running
    {
      running := !running;
      playing := running;
    }

    method Stop()
      modifies this`running
      ensures !running
    {
      running := false;
    }

    method SetBypass(value: bool)
      modifies this`bypassed
      ensures bypassed == value
    {
      bypassed := value;
    }

    method ConnectEffect(audioUnit: nat)
      modifies this`effect
      ensures effect == Some(audioUnit)
    {
      effect := Some(audioUnit);
    }
  }

  datatype Action =
    | BypassButtonTapped
    | PlayButtonTapped
    | ConnectEffect(audioUnit: nat, outcome: SampleLoopOutcome)

  /** `EngineFeature.State`. */
  class State {
    var isEnabled: bool
    var isPlaying: bool
    var isBypassed: bool

    /** All three flags start false. */
    constructor ()
      ensures !isEnabled && !isPlaying && !isBypassed
      ensures Valid()
    {
      isEnabled := false;
      isPlaying := false;
      isBypassed := false;
    }

    /** The effect can only be bypassed while playing. */
    predicate Valid()
      reads this
    {
      isBypassed ==> isPlaying
    }

    function PlayButtonImageName(): (r: string)
      reads this
      ensures r == "stop.fill" <==> isPlaying
      ensures r == "play.fill" <==> !isPlaying
    {
      if isPlaying then "stop.fill" else "play.fill"
    }

    function BypassButtonImageName(): (r: string)
      reads this
      ensures r == "minus" <==> isBypassed
      ensures r == "waveform" <==> !isBypassed
    {
      if isBypassed then "minus" else "waveform"
    }

    /** `bypassButtonTapped`: while playing, flip the bypass and tell the engine; otherwise nothing. */
    method BypassButtonTapped(engine: Engine)
      modifies this`isBypassed, engine`bypassed
      ensures old(isPlaying) ==> isBypassed == !old(isBypassed) && engine.bypassed == isBypassed
      ensures !old(isPlaying) ==> isBypassed == old(isBypassed) && engine.bypassed == old(engine.bypassed)
      ensures old(Valid()) ==> Valid()
    {
      if isPlaying {
        isBypassed := !isBypassed;
        engine.SetBypass(isBypassed);
      }
    }

    /** `playButtonTapped`: playing follows the engine's toggle; stopping also ends the bypass. */
    method PlayButtonTapped(engine: Engine)
      modifies this`isPlaying, this`isBypassed, engine`running
      ensures isPlaying == engine.running && engine.running == !old(engine.running)
      ensures !isPlaying ==> !isBypassed
      ensures isPlaying ==> isBypassed == old(isBypassed)
      ensures Valid()
    {
      isPlaying := engine.StartStop();
      if !isPlaying {
        isBypassed := false;
      }
    }

    /**
     * `connectEffect`: stop the engine; then, only when the sample loop loaded, connect the
     * effect and enable the controls.
     */
    method ConnectEffect(engine: Engine, audioUnit: nat, outcome: SampleLoopOutcome)
      modifies this`isEnabled, engine`running, engine`effect
      ensures !engine.running
      ensures outcome == Loaded ==> isEnabled && engine.effect == Some(audioUnit)
      ensures outcome != Loaded ==> isEnabled == old(isEnabled) && engine.effect == old(engine.effect)
    {
      engine.Stop();
      if outcome != Loaded {
        return;
      }
      engine.ConnectEffect(audioUnit);
      isEnabled := true;
    }

    /** The reducer keeps "bypassed only while playing". */
    method Reduce(action: Action, engine: Engine)
      modifies this, engine
      ensures old(Valid()) ==> Valid()
    {
      match action
      case BypassButtonTapped => BypassButtonTapped(engine);
      case PlayButtonTapped => PlayButtonTapped(engine);
      case ConnectEffect(audioUnit, outcome) => ConnectEffect(engine, audioUnit, outcome);
    }
  }
}
