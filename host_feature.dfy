/**
 * The host feature: loads one audio unit, wires it into the engine and the presets feature,
 * and shows an initial notice and load failures. The child features (engine, loader,
 * presets) reduce their own actions first; the host then reacts to the loader's outcome.
 */
module HostFeature {
  import opened Wrappers
  import ComponentDescription
  import LoaderError
  import PresetsFacade
  import PresetsFeature
  import EngineFeature
  import LoaderFeature

  /** The user defaults, reduced to the one flag the host reads and writes. */
  class Defaults {
    var seenInitialNotice: bool

    constructor (seenInitialNotice: bool)
      ensures this.seenInitialNotice == seenInitialNotice
    {
      this.seenInitialNotice := seenInitialNotice;
    }
  }

  /** The parts of `HostConfig` the feature uses (colours are left out). */
  datatype HostConfig = HostConfig(
    componentDescription: ComponentDescription.AudioComponentDescription,
    maxWait: nat,
    sampleLoop: nat,
    version: string,
    appStoreId: string,
    initialNotice: Option<string>,
    alwaysShowNotice: bool)

  datatype Action =
    | DismissNotice
    | Engine(engineAction: EngineFeature.Action)
    | Loader(loaderAction: LoaderFeature.Action)
    | Presets(presetsAction: PresetsFeature.Action)
    | VersionButtonTapped

  /** The fields the host reducer itself assigns. */
  datatype HostFields = HostFields(
    audioUnit: Option<nat>,
    auViewController: Option<nat>,
    failureError: Option<string>,
    initialNotice: Option<string>,
    showNotice: bool)

  const AppStoreLinkPrefix: string := "https://itunes.apple.com/" + "us/app/apple-store/id"
  const AppStoreLinkSuffix: string := "?mt=8"

  /** The App Store page opened by the version button: the app's id between a fixed prefix and suffix. */
  function AppStoreLink(appStoreId: string): (r: string)
    ensures |r| == |AppStoreLinkPrefix| + |appStoreId| + |AppStoreLinkSuffix|
    ensures r[..|AppStoreLinkPrefix|] == AppStoreLinkPrefix
    ensures r[|AppStoreLinkPrefix|..|r| - |AppStoreLinkSuffix|] == appStoreId
    ensures r[|r| - |AppStoreLinkSuffix|..] == AppStoreLinkSuffix
  {
    var r := AppStoreLinkPrefix + appStoreId + AppStoreLinkSuffix;
    assert r[|AppStoreLinkPrefix|..|r| - |AppStoreLinkSuffix|] == appStoreId;
    r
  }

  /** Different ids open different pages. */
  lemma AppStoreLinkIsInjective(a: string, b: string)
    requires AppStoreLink(a) == AppStoreLink(b)
    ensures a == b
  {
    var r := AppStoreLink(a);
    assert a == r[|AppStoreLinkPrefix|..|r| - |AppStoreLinkSuffix|];
  }

  /** The notice to show: the configured one unless it was seen before and is not forced. */
  function NoticeToShow(config: HostConfig, seenNotice: bool): (r: Option<string>)
    ensures r == config.initialNotice <==> !seenNotice || config.alwaysShowNotice || config.initialNotice.None?
    ensures r.Some? ==> r == config.initialNotice
  {
    if !seenNotice || config.alwaysShowNotice then config.initialNotice else None
  }

  /** `HostFeature.State`. */
  class State {
    const sampleLoop: nat
    const version: string
    const appStoreId: string
    const engine: EngineFeature.State
    const loader: LoaderFeature.State
    const presets: PresetsFeature.State
    var audioUnit: Option<nat>
    var auViewController: Option<nat>
    var failureError: Option<string>
    var initialNotice: Option<string>
    var showNotice: bool

    function Fields(): HostFields
      reads this
    {
      HostFields(audioUnit, auViewController, failureError, initialNotice, showNotice)
    }

    /**
     * `init(config:)`: decide on the notice from the defaults' flag, then record that it was
     * seen; children start fresh and the presets have no source.
     */
    constructor (config: HostConfig, defaults: Defaults)
      modifies defaults
      ensures initialNotice == NoticeToShow(config, old(defaults.seenInitialNotice))
      ensures defaults.seenInitialNotice
      ensures !showNotice && failureError.None? && audioUnit.None? && auViewController.None?
      ensures sampleLoop == config.sampleLoop && version == config.version && appStoreId == config.appStoreId
      ensures fresh(engine) && fresh(loader) && fresh(presets)
      ensures !engine.isEnabled && !engine.isPlaying && !engine.isBypassed
      ensures !loader.finished && loader.status == LoaderFeature.SearchingStatus(config.componentDescription)
      ensures loader.componentDescription == config.componentDescription && loader.maxWait == config.maxWait
      ensures presets.source == null && presets.currentPresetNumber == PresetsFeature.UnsetPresetNumber
    {
      var seenNotice := defaults.seenInitialNotice;
      defaults.seenInitialNotice := true;
      sampleLoop := config.sampleLoop;
      version := config.version;
      appStoreId := config.appStoreId;
      initialNotice := if !seenNotice || config.alwaysShowNotice then config.initialNotice else None;
      loader := new LoaderFeature.State(config.componentDescription, config.maxWait);
      engine := new EngineFeature.State();
      presets := new PresetsFeature.State(null);
      audioUnit := None;
      auViewController := None;
      failureError := None;
      showNotice := false;
    }

    /** `dismissNotice`: hide the notice and forget any failure. */
    method DismissNotice()
      modifies this`showNotice, this`failureError
      ensures !showNotice && failureError.None?
    {
      showNotice := false;
      failureError := None;
    }

    /**
     * `loaderFoundComponent`: keep the audio unit and its view, show the notice if there is one,
     * connect the effect to the engine and hand the audio unit to the presets feature.
     */
    method LoaderFoundComponent(success: LoaderFeature.AudioUnitLoaderSuccess, player: EngineFeature.Engine,
                                outcome: EngineFeature.SampleLoopOutcome, auAudioUnit: PresetsFacade.Facade)
      modifies this`audioUnit, this`auViewController, this`showNotice, engine, player, presets
      ensures audioUnit == Some(success.audioUnit) && auViewController == Some(success.viewController)
      ensures showNotice == (initialNotice.Some? || old(showNotice))
      ensures !player.running
      ensures engine.isEnabled == (outcome == EngineFeature.Loaded || old(engine.isEnabled))
      ensures engine.isPlaying == old(engine.isPlaying) && engine.isBypassed == old(engine.isBypassed)
      ensures outcome == EngineFeature.Loaded ==> player.effect == Some(success.audioUnit)
      ensures outcome != EngineFeature.Loaded ==> player.effect == old(player.effect)
      ensures presets.source == auAudioUnit
      ensures presets.activePrompt == old(presets.activePrompt)
      ensures presets.currentPresetNumber == old(presets.currentPresetNumber)
      ensures presets.currentPresetName == old(presets.currentPresetName)
    {
      audioUnit := Some(success.audioUnit);
      auViewController := Some(success.viewController);
      if initialNotice.Some? {
        showNotice := true;
      }
      engine.ConnectEffect(player, success.audioUnit, outcome);
      presets.SetSource(auAudioUnit);
    }

    /** `loaderFailed`: show the error's description. */
    method LoaderFailed(error: LoaderError.AudioUnitLoaderError)
      modifies this`failureError
      ensures failureError == Some(LoaderError.Description(error))
    {
      failureError := Some(LoaderError.Description(error));
    }

    /**
     * The composed reducer. `player` is the engine dependency, `outcome` what loading the sample
     * loop into it does, and `auAudioUnit` the loaded unit's presets; the version button's
     * effect is the link it opens.
     */
    method Reduce(action: Action, player: EngineFeature.Engine, outcome: EngineFeature.SampleLoopOutcome,
                  auAudioUnit: PresetsFacade.Facade) returns (visit: Option<string>, effects: seq<LoaderFeature.Effect>)
      modifies this, engine, loader, presets, presets.source, player
      ensures action.DismissNotice? ==> Fields() == old(Fields()).(showNotice := false, failureError := None)
      ensures action.Loader? && action.loaderAction.DelegateAction? && action.loaderAction.delegate.Found? ==>
                var success := action.loaderAction.delegate.success;
                && Fields() == old(Fields()).(audioUnit := Some(success.audioUnit), auViewController := Some(success.viewController),
                                              showNotice := old(initialNotice).Some? || old(showNotice))
                && presets.source == auAudioUnit
                && presets.currentPresetNumber == old(presets.currentPresetNumber)
                && engine.isEnabled == (outcome == EngineFeature.Loaded || old(engine.isEnabled))
                && (outcome == EngineFeature.Loaded ==> player.effect == Some(success.audioUnit))
      ensures action.Loader? && action.loaderAction.DelegateAction? && action.loaderAction.delegate.Failed? ==>
                Fields() == old(Fields()).(failureError := Some(LoaderError.Description(action.loaderAction.delegate.failure)))
      ensures action.Engine? || action.Presets? || (action.Loader? && !action.loaderAction.DelegateAction?) ==>
                Fields() == old(Fields())
      ensures action.VersionButtonTapped? ==> Fields() == old(Fields()) && visit == Some(AppStoreLink(appStoreId))
      ensures !action.VersionButtonTapped? ==> visit.None?
      ensures !action.Loader? ==> effects == []
      ensures action.Loader? && action.loaderAction.DelegateAction? ==> effects == []
      ensures action.Loader? && action.loaderAction.StopScanning? ==> effects == LoaderFeature.CancelTasks()
      ensures action.Loader? && action.loaderAction.Task? ==>
                effects == [LoaderFeature.RunMaxWait(loader.maxWait), LoaderFeature.RunScanning(loader.componentDescription)]
      ensures action.Loader? && action.loaderAction.MaxWaitReached? ==>
                loader.finished
                && effects == (if old(loader.finished) then [] else LoaderFeature.FinishEffects(LoaderFeature.Failed(LoaderError.ComponentNotFound)))
      ensures action.Loader? && action.loaderAction.AudioUnitCreated? ==>
                loader.finished
                && effects == (if old(loader.finished) then [] else LoaderFeature.FinishEffects(LoaderFeature.Found(action.loaderAction.success)))
      ensures old(engine.Valid()) ==> engine.Valid()
    {
      visit := None;
      effects := [];
      match action
      case DismissNotice => DismissNotice();
      case Engine(a) => engine.Reduce(a, player);
      case Loader(a) =>
        effects := loader.Reduce(a);
        if a.DelegateAction? {
          match a.delegate
          case Found(success) => LoaderFoundComponent(success, player, outcome, auAudioUnit);
          case Failed(error) => LoaderFailed(error);
        }
      case Presets(a) => presets.Reduce(a);
      case VersionButtonTapped => visit := Some(AppStoreLink(appStoreId));
    }
  }
}
