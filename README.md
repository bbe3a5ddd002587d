# auv3-support, modelled in Dafny

auv3-support is a Swift package for building AUv3 audio-unit extensions and the small host
applications that load them. This project models the logic in its core that does not depend on
the audio frameworks. Everything is proved with the Dafny verifier.

- **Presets facade** (`presets_facade.dfy`). An `AUAudioUnitPresetsFacade` is modelled as a
  class that owns:
  - factory presets and user presets;
  - a current preset;
  - a "supports user presets" flag.

  Saving a user preset replaces the preset with the same number, or appends one. Deleting
  removes every preset with that number. Clearing drops a current preset only when it is a
  factory preset. Factory presets have numbers `>= 0`; user presets have numbers `< 0`.
- **Preset ordering** (`preset_ordering.dfy`). Lists are sorted by number (descending), or by
  name with the `AUAudioUnitPreset` `<` comparison. The sort is a stable insertion sort. Proved:
  - it is a permutation;
  - it is sorted under any total preorder;
  - it keeps numbers distinct.
- **Presets feature** (`presets_feature.dfy`). The host's presets reducer is a `State` class. It
  holds:
  - the facade;
  - the active name prompt;
  - the selected preset number and name.

  Each action handler is a method. The key operation is `nextNumber`, which allocates a fresh
  user number: the topmost gap below zero. Every handler that edits the user list keeps two
  facts: the user numbers are distinct, and they are all negative. The one exception is a
  rename while a factory preset is current: `doRename` re-saves that preset under its factory
  number.
- **Parameter source** (`parameter_source.dfy`). `storeParameters(into:)` writes each
  parameter's value into a state dictionary. `useUserPreset(from:)` reads the values back. Both
  round trips are proved.
- **Demo parameters** (`demo_parameters.dfy`). The demo extension has one gain parameter and
  four factory presets (Default 0.34, None 0.0, Full 1.0, Half 0.5).
- **Audio unit adapter** (`audio_unit_adapter.dfy`). This models the `AUAudioUnit` subclass:
  - the observer on `currentPreset`, which applies a factory preset or a user preset's saved
    state;
  - the `fullState` getter, which records the preset name and number, and its setter, which
    restores the preset;
  - the checks in `allocateRenderResources`;
  - `parametersForOverview`.
- **Parameter formatting** (`parameter_formatting.dfy`): the `AUParameterFormatting` defaults,
  and the demo's overrides for `AUParameter`.
- **Bundle info** (`bundle.dfy`): the `AppExtensionBundleInfo` accessors. These cover the info
  dictionary lookup, the build scheme, the version tag and the version string.
- **Component description** (`component_description.dfy`): the three-string initializer,
  `description`, and field-wise equality of `AudioComponentDescription`.
- **Loader** (`loader_error.dfy`, `loader_feature.dfy`): the loader's errors and their
  messages, and the loader reducer. The first outcome finishes the search; later outcomes are
  ignored; both tasks are cancelled.
- **Engine and host** (`engine_feature.dfy`, `host_feature.dfy`): the play and bypass buttons,
  connecting an effect, and the host reducer that wires the features together.

Shared helpers:
- `text.dfy` holds substring search, ASCII lower-casing and decimal rendering.
- `wrappers.dfy` holds `Option`.

Source paths below are relative to the root of the Swift repository.

## Model

| member | source | states |
|---|---|---|
| Text.Contains | Sources/AUv3Shared/Bundle.swift:20-24 | `contains` is true exactly when the pattern occurs at some index of the string |
| Text.Lowercased | Sources/AUv3Shared/Bundle.swift:66 | lower-casing keeps the length and lowers each character in place |
| Text.LowercasedIsLower | Sources/AUv3Shared/Bundle.swift:66 | a lowered identifier has no upper-case letter, and lowering twice equals lowering once |
| Text.Decimal | Sources/AUv3Shared/AudioComponentDescription.swift:21-26 | a count renders as a non-empty string of digits with no leading zero |
| Text.DecimalRoundTrip | Sources/AUv3Shared/AudioComponentDescription.swift:21-26 | reading back the decimal rendering of a flag or mask gives the number |
| PresetsFacade.Numbers | Sources/AUv3Host/PresetsFeature.swift:82-92 | the mapped numbers line up with the presets one for one |
| PresetsFacade.FirstIndex | Sources/AUv3Host/PresetsFeature.swift:436-441 | the index found holds the number and no earlier preset does; there is none exactly when no preset has the number |
| PresetsFacade.FirstIndexIsFirst | Sources/AUv3Host/PresetsFeature.swift:436-441 | any position that holds the number with none before it is the index `firstIndex` returns |
| PresetsFacade.FirstWithNumber | Sources/AUv3Host/PresetsFeature.swift:94-96 | `first { $0.number == n }` returns a member with that number, and none exactly when no member has it |
| PresetsFacade.Upserted | Sources/AUv3Host/PresetsFeature.swift:434-442 | a save puts the preset in the list, grows it by at most one, and keeps every preset with another number at its position |
| PresetsFacade.WithoutNumber | Sources/AUv3Host/PresetsFeature.swift:444-446 | `removeAll` keeps exactly the presets with another number and never grows the list |
| PresetsFacade.UpsertedFinds | Sources/AUv3Host/PresetsFeature.swift:434-442 | after a save, a lookup of the saved number finds the saved preset |
| PresetsFacade.UpsertedSize | Sources/AUv3Host/PresetsFeature.swift:434-442 | a save grows the list by one exactly when the number was new; presets with other numbers stay; nothing else is added |
| PresetsFacade.UpsertedKeepsInvariant | Sources/AUv3Host/PresetsFeature.swift:434-442 | a save keeps user numbers distinct, and negative when the saved preset is a user preset |
| PresetsFacade.WithoutNumberKeepsInvariant | Sources/AUv3Host/PresetsFeature.swift:444-446 | a delete keeps user numbers distinct and negative |
| PresetsFacade.DeleteUndoesNewSave | Sources/AUv3Host/PresetsFeature.swift:434-446 | deleting a preset just saved under a new number restores the list exactly |
| PresetsFacade.WithoutNumberOfAbsent | Sources/AUv3Host/PresetsFeature.swift:444-446 | deleting a number no preset has leaves the list unchanged |
| PresetsFacade.WithoutNumberAppend | Sources/AUv3Host/PresetsFeature.swift:444-446 | deletion distributes over concatenation, so the kept presets stay in their order |
| PresetsFacade.ClearedIfFactory | Sources/AUv3Component/Protocols/AUAudioUnitPresetsFacade.swift:47-51 | clearing gives none or the same preset; what stays is a user preset; a current user preset is kept |
| PresetsFacade.ClearedIfFactoryFacts | Sources/AUv3Component/Protocols/AUAudioUnitPresetsFacade.swift:47-51 | after clearing, no factory preset is current; a current user preset is kept; clearing twice is clearing once |
| PresetsFacade.Facade.constructor | Sources/AUv3Host/PresetsFeature.swift:407-424 | the facade starts with the given lists, current preset and flag |
| PresetsFacade.Facade.FactoryPresetsNonNil | Sources/AUv3Component/Protocols/AUAudioUnitPresetsFacade.swift:44 | the factory list, or the empty list when the audio unit offers none |
| PresetsFacade.Facade.ClearCurrentPresetIfFactoryPreset | Sources/AUv3Component/Protocols/AUAudioUnitPresetsFacade.swift:47-51 | the current preset becomes the cleared value of the old one; nothing else changes |
| PresetsFacade.Facade.SaveUserPreset | Sources/AUv3Host/PresetsFeature.swift:434-442 | the loop replaces the first preset with the same number, or appends the preset |
| PresetsFacade.Facade.DeleteUserPreset | Sources/AUv3Host/PresetsFeature.swift:444-446 | the loop removes every preset with that number and keeps the rest in order |
| PresetOrdering.Insert | Sources/AUv3Host/PresetsFeature.swift:75-77 | inserting adds exactly the one element |
| PresetOrdering.SortBy | Sources/AUv3Host/PresetsFeature.swift:75-77 | sorting is a permutation of its input |
| PresetOrdering.InsertSorted | Sources/AUv3Host/PresetsFeature.swift:75-77 | inserting into a sorted list under a total preorder gives a sorted list |
| PresetOrdering.SortBySorted | Sources/AUv3Host/PresetsFeature.swift:75-77 | the sorted list is ordered under any total preorder |
| PresetOrdering.InsertDistinct | Sources/AUv3Host/PresetsFeature.swift:82-92 | inserting a new number keeps numbers distinct |
| PresetOrdering.SortByDistinct | Sources/AUv3Host/PresetsFeature.swift:82-92 | sorting keeps numbers distinct |
| PresetOrdering.OrdersArePreorders | Sources/AUv3Host/Extensions/AudioUnitPreset.swift:5-9 | descending by number is a total preorder; by name it is one whenever the name comparison is a strict weak order |
| PresetsFeature.NextUserNumberUnique | Sources/AUv3Host/PresetsFeature.swift:82-92 | at most one number is the topmost unused user number |
| PresetsFeature.NextUserNumberExamples | Tests/AUv3HostTests/PresetsFeature.swift:143-163 | the empty list gives -1; {-1,-3,-6,-2,-5} gives -4; {-2,-1} gives -3; {-2} gives -1 |
| PresetsFeature.RenameKeepsInvariant | Sources/AUv3Host/PresetsFeature.swift:210-220 | re-adding a renamed preset under a number the list no longer uses keeps the numbers distinct and negative |
| PresetsFeature.SameMembers | Sources/AUv3Host/PresetsFeature.swift:82-92 | a permutation has the same members as its source |
| PresetsFeature.NumberUsed | Sources/AUv3Host/PresetsFeature.swift:82-92 | a member's number counts as used |
| PresetsFeature.State.HasPresets | Sources/AUv3Host/PresetsFeature.swift:69-73 | there are presets exactly when a source offers factory presets or supports user presets |
| PresetsFeature.State.UserPresetsOrderedByName | Sources/AUv3Host/PresetsFeature.swift:75-77 | the user presets by name are a permutation of the user presets |
| PresetsFeature.State.FactoryPresetsOrderedByName | Sources/AUv3Host/PresetsFeature.swift:75-77 | the factory presets by name are a permutation of the factory presets |
| PresetsFeature.State.Find | Sources/AUv3Host/PresetsFeature.swift:94-96 | a found preset has the number and comes from the factory list (number >= 0) or the user list (number < 0); none exactly when that list lacks the number |
| PresetsFeature.State.constructor | Sources/AUv3Host/PresetsFeature.swift:98-106 | no prompt, the unset number, and the name of the source's current preset |
| PresetsFeature.State.SetCurrentPresetNumber | Sources/AUv3Host/PresetsFeature.swift:60-65 | setting the number makes the source's current preset the one found for it and shows its name; user presets are untouched |
| PresetsFeature.State.NextNumber | Sources/AUv3Host/PresetsFeature.swift:82-92 | with negative user numbers the result is negative and every number between it and zero is in use; with distinct numbers the result is unused |
| PresetsFeature.State.UpdateForCurrentPresetChange | Sources/AUv3Host/PresetsFeature.swift:171-174 | a cleared preset resets the selection to the unset number; any other change leaves the state alone; the source's factory list and user-preset flag are untouched |
| PresetsFeature.State.ClearPrompt | Sources/AUv3Host/PresetsFeature.swift:176-178 | the prompt is dismissed |
| PresetsFeature.State.DeleteButtonTapped | Sources/AUv3Host/PresetsFeature.swift:185-193 | a current user preset is deleted and the selection cleared; otherwise nothing changes; the invariant on user numbers is kept; the source's factory list and user-preset flag are untouched |
| PresetsFeature.State.PromptCancelButtonTapped | Sources/AUv3Host/PresetsFeature.swift:195-198 | the prompt is dismissed |
| PresetsFeature.State.DoNew | Sources/AUv3Host/PresetsFeature.swift:200-208 | the preset is saved under the next user number, which becomes current; the list grows by one and keeps its invariant; the source's factory list and user-preset flag are untouched |
| PresetsFeature.State.DoRename | Sources/AUv3Host/PresetsFeature.swift:210-220 | the current preset is replaced by one with the new name and the same number, and becomes current; the source's factory list and user-preset flag are untouched |
| PresetsFeature.State.PresetNumberSelected | Sources/AUv3Host/PresetsFeature.swift:222-235 | in both `factoryPresetPicked` and `presetNumberSelected` (which share one body), a number that some preset has is selected; otherwise the selection is cleared to the unset number; the source's factory list and user-preset flag are untouched |
| PresetsFeature.State.NewButtonTapped | Sources/AUv3Host/PresetsFeature.swift:227-230 | the prompt asks for a new name, starting from the shown name |
| PresetsFeature.State.RenameTapped | Sources/AUv3Host/PresetsFeature.swift:237-242 | the rename prompt opens only for a current user preset |
| PresetsFeature.State.UpdateTapped | Sources/AUv3Host/PresetsFeature.swift:244-252 | the current user preset is re-saved in place; the selection and the invariant are kept; the source's factory list and user-preset flag are untouched |
| PresetsFeature.State.SetSource | Sources/AUv3Host/PresetsFeature.swift:148-153 | the presets now come from the given audio unit |
| PresetsFeature.State.Reduce | Sources/AUv3Host/PresetsFeature.swift:131-146 | every action except renaming a factory preset keeps user numbers distinct and negative; no action touches the source's factory list or user-preset flag |
| ParameterSource.Parameter.constructor | Sources/AUv3Component/ParameterSource.swift:16 | a parameter starts with its identifier, address and value |
| ParameterSource.Identifiers | Sources/AUv3Component/ParameterSource.swift:43-47 | one identifier per parameter, in order |
| ParameterSource.Values | Sources/AUv3Component/ParameterSource.swift:43-47 | one value per parameter, in order |
| ParameterSource.Stored | Sources/AUv3Component/ParameterSource.swift:43-47 | the keys are the old keys plus every identifier; other keys keep their values |
| ParameterSource.StoredHoldsLast | Sources/AUv3Component/ParameterSource.swift:43-47 | each identifier holds the value of its last occurrence |
| ParameterSource.AppliedAll | Sources/AUv3Component/ParameterSource.swift:49-55 | each parameter takes the dictionary's value under its identifier when it is an `AUValue`, else keeps its own |
| ParameterSource.StoreParameters | Sources/AUv3Component/ParameterSource.swift:43-47 | the loop writes every parameter's value into the dictionary |
| ParameterSource.UseUserPreset | Sources/AUv3Component/ParameterSource.swift:49-55 | the loop gives every parameter its applied value and changes nothing else |
| ParameterSource.StoredHoldsEveryValue | Sources/AUv3Component/ParameterSource.swift:43-47 | with distinct identifiers, each identifier holds its own parameter's value |
| ParameterSource.UseThenStore | Sources/AUv3Component/ParameterSource.swift:43-55 | applying a dictionary and then storing it back changes nothing under a key that held an `AUValue` |
| ParameterSource.StoreThenUse | Sources/AUv3Component/ParameterSource.swift:43-55 | storing and then applying gives back every parameter value |
| DemoParameters.FactoryPresets | AUv3Demo/AUv3DemoExtension/Parameters/Parameters.swift:23-25 | preset `i` has number `i` and the name of the `i`th value set |
| DemoParameters.FactoryPresetsFacts | AUv3Demo/AUv3DemoExtension/Parameters/Parameters.swift:15-25 | the factory presets are Default, None, Full and Half, numbered 0 to 3; each number finds its preset |
| DemoParameters.Parameters.constructor | AUv3Demo/AUv3DemoExtension/Parameters/Parameters.swift:10-12 | one parameter per address, with the gain at the gain address |
| DemoParameters.Parameters.SetValues | AUv3Demo/AUv3DemoExtension/Parameters/Parameters.swift:82 | the gain takes the preset's gain |
| DemoParameters.Parameters.UseFactoryPreset | AUv3Demo/AUv3DemoExtension/Parameters/Parameters.swift:50-54 | a factory number sets the gain from that value set; a user number leaves the gain alone |
| Adapter.TruncatedToInt | Sources/AUv3Component/AudioUnitAdapter.swift:188-189 | `intValue` truncates toward zero, to within one of the value |
| Adapter.NumberValue | Sources/AUv3Component/AudioUnitAdapter.swift:187 | an entry reads as a number exactly when it is an integer or an `AUValue`; an integer reads as itself and an `AUValue` float as its value truncated toward zero, as `intValue` does |
| Adapter.StoredPreset | Sources/AUv3Component/AudioUnitAdapter.swift:185-187 | a state names a preset exactly when it holds a string name and a numeric number |
| Adapter.PresetAfterWrite | Sources/AUv3Component/AudioUnitAdapter.swift:183-195 | no named preset clears the current preset; the same number keeps it; another number replaces it |
| Adapter.WithPreset | Sources/AUv3Component/AudioUnitAdapter.swift:174-180 | the current preset's name and number are recorded under the two keys; every other key is untouched |
| Adapter.FullStateValue | Sources/AUv3Component/AudioUnitAdapter.swift:166-182 | the read state holds the base keys and every identifier; base entries not overwritten keep their values; each parameter's last value is stored; a current preset is recorded under both keys |
| Adapter.FullStateRecordsPreset | Sources/AUv3Component/AudioUnitAdapter.swift:166-182 | the state read back names the current preset whenever there is one; with none it names none when the base state and identifiers avoid the preset keys |
| Adapter.WriteBackKeepsPreset | Sources/AUv3Component/AudioUnitAdapter.swift:166-195 | writing back the state just read leaves a current preset unchanged; with none, it stays none when the base state and identifiers avoid the preset keys |
| Adapter.StaleKeysSelectPreset | Sources/AUv3Component/AudioUnitAdapter.swift:166-195 | with no current preset, preset keys left in the base state survive the read, and writing the state back selects the preset they name |
| Adapter.Observed | Sources/AUv3Component/AudioUnitAdapter.swift:151-163 | only a user preset with loaded state can change the stored preset: a state naming no preset clears it, one naming the same number keeps it, and one naming another number replaces it with the preset it names |
| Adapter.AudioUnitAdapter.constructor | Sources/AUv3Component/AudioUnitAdapter.swift:69-78 | stereo busses, nothing configured, no preset |
| Adapter.AudioUnitAdapter.FactoryPresetList | Sources/AUv3Component/AudioUnitAdapter.swift:141 | the factory presets are those of the parameter source |
| Adapter.AudioUnitAdapter.SetCurrentPreset | Sources/AUv3Component/AudioUnitAdapter.swift:151-163 | a factory preset sets the parameters from its value set; a user preset with saved state applies that state; the preset is stored |
| Adapter.AudioUnitAdapter.Configure | Sources/AUv3Component/AudioUnitAdapter.swift:96-111 | after configuring, the first factory preset is current and applied |
| Adapter.AudioUnitAdapter.FullState | Sources/AUv3Component/AudioUnitAdapter.swift:166-182 | the state is the base state with every parameter value stored and the current preset recorded |
| Adapter.AudioUnitAdapter.SetFullState | Sources/AUv3Component/AudioUnitAdapter.swift:183-195 | the current preset becomes the one the state names; only when it changed does the observer run, setting the gain for a factory preset or applying a user preset's loaded state |
| Adapter.AudioUnitAdapter.AllocateRenderResources | Sources/AUv3Component/AudioUnitAdapter.swift:212-235 | without a kernel it fails with -10875; with mismatched channel counts it fails; otherwise resources are allocated |
| Adapter.AudioUnitAdapter.ParametersForOverview | Sources/AUv3Component/AudioUnitAdapter.swift:255-257 | the addresses of the first `max(1, min(n, count))` parameters, in order |
| ParameterFormatting.Formatting.MakeFormattingSuffix | Sources/AUv3Component/Protocols/AUParameterFormatting.swift:44-47 | no unit or an empty unit gives no suffix; otherwise the separator then the unit |
| ParameterFormatting.Formatting.DisplayValue | Sources/AUv3Component/Protocols/AUParameterFormatting.swift:35-37 | the display text is the rendered value followed by the suffix |
| ParameterFormatting.Formatting.EditingValue | Sources/AUv3Component/Protocols/AUParameterFormatting.swift:40-42 | the editing text is the value under the editing format with no suffix, so it is the display text without the suffix when the formats agree |
| ParameterFormatting.WithDefaults | Sources/AUv3Component/Protocols/AUParameterFormatting.swift:28-32 | the default separator is a space, and the formats are "%.2f" and "%.3f" |
| ParameterFormatting.DisplayIsEditingPlusSuffix | Sources/AUv3Component/Protocols/AUParameterFormatting.swift:35-42 | with equal formats, display text is editing text plus the suffix |
| ParameterFormatting.AUParameterFormatting | AUv3Demo/AUv3DemoExtension/Parameters/Parameters.swift:87-93 | no separator, the suffix built from the unit name, two decimals for display |
| ParameterFormatting.AUParameterSuffixIsUnitName | AUv3Demo/AUv3DemoExtension/Parameters/Parameters.swift:87-93 | the demo's suffix is the unit name itself, or nothing |
| BundleInfo.AppExtensionBundle.Info | Sources/AUv3Shared/Bundle.swift:70 | the string under the key, or "" when the key is missing or holds no string |
| BundleInfo.AppExtensionBundle.Scheme | Sources/AUv3Shared/Bundle.swift:20-24 | " Dev" exactly when the identifier contains ".dev"; " Staging" exactly when it contains ".staging" but not ".dev"; "" otherwise |
| BundleInfo.AppExtensionBundle.VersionTag | Sources/AUv3Shared/Bundle.swift:28-31 | the tag always starts with "v": the release version when it already does, otherwise "v" followed by it |
| BundleInfo.VersionStringLayout | Sources/AUv3Shared/Bundle.swift:36 | every version string is "Version ", the release version and a dot, then the build version, and ends with the scheme; each segment is stated by its contents |
| BundleInfo.AppExtensionBundle.AuExtensionName | Sources/AUv3Shared/Bundle.swift:59 | the base name followed by "AU.appex" |
| BundleInfo.AccessorsReadTheirKeys | Sources/AUv3Shared/Bundle.swift:26-61 | each accessor returns the string under its own info key, and each four-character code is made from the string under its key |
| BundleInfo.FromBundle | Sources/AUv3Shared/Bundle.swift:64-71 | a `Bundle` conforms with its identifier lowercased ("" without one), and `info(for:)` reads the string under the key of its own info dictionary, or "" when the dictionary, the key or a string value is missing |
| BundleInfo.BundleID | Sources/AUv3Shared/Bundle.swift:66 | the identifier lowered character by character, with no upper-case letter left; "" without one |
| BundleInfo.EmptyBundle | Sources/AUv3Shared/Bundle.swift:66-70 | a bundle with no identifier and no dictionary answers "" to every key, has no scheme, and shows "Version ." |
| BundleInfo.VersionStringsExample | Tests/AUv3SharedTests/Bundle.swift:33-52 | the accessors of a sample info dictionary give the expected names, codes and version strings |
| BundleInfo.SchemeOfRelease | Tests/AUv3SharedTests/Bundle.swift:56-66 | a release identifier has no scheme |
| BundleInfo.SchemeOfDevelopment | Tests/AUv3SharedTests/Bundle.swift:56-66 | a ".dev" identifier has the " Dev" scheme |
| BundleInfo.SchemeOfStaging | Tests/AUv3SharedTests/Bundle.swift:56-66 | a ".staging" identifier has the " Staging" scheme |
| BundleInfo.NoDotFollowedBy | Sources/AUv3Shared/Bundle.swift:20-24 | a pattern made of a dot and a letter cannot occur where no dot is followed by that letter |
| ComponentDescription.FromStrings | Sources/AUv3Shared/AudioComponentDescription.swift:7-19 | the codes come from the three strings, with no flags and no mask |
| ComponentDescription.Description | Sources/AUv3Shared/AudioComponentDescription.swift:21-26 | every description opens with the type label and the type code, and ends with the mask's digits and ">" |
| ComponentDescription.DescriptionLayout | Sources/AUv3Shared/AudioComponentDescription.swift:21-26 | every description quotes the subtype code after "' subtype: '", the manufacturer code after "' manufacturer: '", and gives the flags in decimal after "' flags: " |
| ComponentDescription.DescriptionReadsBackMask | Sources/AUv3Shared/AudioComponentDescription.swift:21-26 | the digits before the closing ">" of any description read back as the mask |
| ComponentDescription.Equal | Sources/AUv3Shared/AudioComponentDescription.swift:30-36 | two descriptions are equal exactly when all five fields agree |
| ComponentDescription.EqualIsReflexiveAndSymmetric | Sources/AUv3Shared/AudioComponentDescription.swift:30-36 | equality is reflexive and symmetric |
| ComponentDescription.SingleFieldChangeBreaksEquality | Tests/AUv3SharedTests/AudioComponentDescription.swift:19-70 | changing any one field, even the case of one code character, breaks equality |
| ComponentDescription.DescriptionExample | Tests/AUv3SharedTests/AudioComponentDescription.swift:5-17 | the description quotes the three codes and prints the flags and mask |
| LoaderError.Description | Sources/AUv3Host/AudioUnitLoaderError.swift:19-26 | a message starts with "Framework error: " exactly for framework errors, and then carries the framework's text |
| LoaderError.DescriptionIsInjective | Sources/AUv3Host/AudioUnitLoaderError.swift:19-26 | different errors never have the same description |
| LoaderFeature.FinishedStatus | Sources/AUv3Host/AudioUnitLoaderFeature.swift:76-102 | the status is empty on success and the error's description on failure |
| LoaderFeature.SearchingStatus | Sources/AUv3Host/AudioUnitLoaderFeature.swift:26-29 | the status opens with "Searching for audio unit '", then the subtype code, the separator "' / '", and ends with the manufacturer code and "'…" |
| LoaderFeature.CancelTasks | Sources/AUv3Host/AudioUnitLoaderFeature.swift:63-74 | one cancellation for each of the two tasks, and nothing else |
| LoaderFeature.FinishEffects | Sources/AUv3Host/AudioUnitLoaderFeature.swift:76-102 | the first finish reports the outcome, then cancels both tasks |
| LoaderFeature.FinishedStatusDistinguishes | Sources/AUv3Host/AudioUnitLoaderFeature.swift:76-102 | success and failure never leave the same status |
| LoaderFeature.State.constructor | Sources/AUv3Host/AudioUnitLoaderFeature.swift:17-30 | not finished, with the status showing what is searched for |
| LoaderFeature.State.Finish | Sources/AUv3Host/AudioUnitLoaderFeature.swift:76-102 | the first outcome sets the status and emits effects; later ones change nothing and emit nothing |
| LoaderFeature.State.Reduce | Sources/AUv3Host/AudioUnitLoaderFeature.swift:49-60 | a creation result or the timeout finishes the search (the timeout as "component not found"); stopping cancels both tasks; delegate actions do nothing |
| EngineFeature.Engine.StartStop | Sources/AUv3Host/EngineFeature.swift:47-52 | the engine toggles and reports whether it now plays |
| EngineFeature.Engine.Stop | Sources/AUv3Host/EngineFeature.swift:59 | the engine no longer runs |
| EngineFeature.Engine.SetBypass | Sources/AUv3Host/EngineFeature.swift:40 | the engine's bypass takes the given value |
| EngineFeature.Engine.ConnectEffect | Sources/AUv3Host/EngineFeature.swift:70 | the engine's effect is the given audio unit |
| EngineFeature.State.constructor | Sources/AUv3Host/EngineFeature.swift:16-22 | all three flags start false |
| EngineFeature.State.PlayButtonImageName | Sources/AUv3Host/EngineFeature.swift:20 | "stop.fill" exactly while playing, "play.fill" otherwise |
| EngineFeature.State.BypassButtonImageName | Sources/AUv3Host/EngineFeature.swift:21 | "minus" exactly while bypassed, "waveform" otherwise |
| EngineFeature.State.BypassButtonTapped | Sources/AUv3Host/EngineFeature.swift:37-42 | while playing, the bypass flips and the engine follows; otherwise nothing changes |
| EngineFeature.State.PlayButtonTapped | Sources/AUv3Host/EngineFeature.swift:47-52 | playing follows the engine's toggle, and stopping ends the bypass |
| EngineFeature.State.ConnectEffect | Sources/AUv3Host/EngineFeature.swift:57-74 | the engine stops; a loaded sample loop connects the effect and enables the controls; otherwise nothing else changes |
| EngineFeature.State.Reduce | Sources/AUv3Host/EngineFeature.swift:32-55 | every action keeps "bypassed only while playing" |
| HostFeature.NoticeToShow | Sources/AUv3Host/HostFeature.swift:39-48 | the configured notice is shown unless it was seen before and is not forced |
| HostFeature.AppStoreLink | Sources/AUv3Host/HostFeature.swift:89 | the link is the fixed App Store prefix, the app's id, then "?mt=8" |
| HostFeature.AppStoreLinkIsInjective | Sources/AUv3Host/HostFeature.swift:89 | different ids give different links |
| HostFeature.State.constructor | Sources/AUv3Host/HostFeature.swift:39-53 | the notice is chosen and marked as seen; the child features start fresh; the presets have no source |
| HostFeature.State.DismissNotice | Sources/AUv3Host/HostFeature.swift:70-73 | the notice is hidden and any failure forgotten |
| HostFeature.State.LoaderFoundComponent | Sources/AUv3Host/HostFeature.swift:99-111 | the audio unit and its view are kept; the notice shows if there is one; the engine stops, and a loaded sample loop connects the effect and enables the controls; the presets take the new audio unit as source and keep their prompt and selection |
| HostFeature.State.LoaderFailed | Sources/AUv3Host/HostFeature.swift:113-116 | the failure shows the error's description |
| HostFeature.State.Reduce | Sources/AUv3Host/HostFeature.swift:63-82 | each action changes only its own fields; only the version button asks to open the App Store page; loader actions return the loader's effects; the engine invariant is kept |

## Left out

- Views, previews, menus and segmented controls are presentation only. Colours and themes in
  `HostConfig` are not modelled.
- The key-value observation of `currentPreset` that feeds `updateForCurrentPresetChange`
  (`Sources/AUv3Host/PresetsFeature.swift:155-169`) is asynchronous and not modelled. The
  handler it sends to is modelled.
- `PresetsFeature.State.SetSource`: only the assignment of the source is modelled, not the
  monitoring effect it starts.
- The loader's component scan and its timeout task
  (`Sources/AUv3Host/AudioUnitLoaderFeature.swift:104-152`) are concurrent and rely on system
  services. Effects are modelled as tokens: send, cancel, start. The actions the tasks send are
  reduced like any other action.
- Sleep durations, clocks and the App Store linker are not modelled. On macOS the version
  button opens nothing; only the iOS link format is modelled.
- `super.fullState` (read by the getter) and `presetState(for:)` belong to the audio
  framework. They are passed in as parameters.
- `Adapter.AudioUnitAdapter.SetFullState`: its first step, `super.fullState = newValue`, is
  not modelled. In the framework that call restores the parameter tree from the written state,
  so the clauses that keep the parameter values unchanged cover only this override's own
  code.
- `Adapter.AudioUnitAdapter.SetFullState`: the nested re-entry of the `fullState` setter from
  the `currentPreset` observer is not re-run. The user preset's loaded state is applied to the
  parameters once.
- `Adapter.AudioUnitAdapter.SetCurrentPreset`: a factory preset number must index the demo's
  value sets. The demo would trap on any other number.
- `Adapter.AudioUnitAdapter.AllocateRenderResources`: it assumes
  `super.allocateRenderResources()` succeeds. The kernel's render setup, the render block shim,
  `deallocateRenderResources`, `internalRenderBlock` and `shouldBypassEffect` belong to the DSP
  bridge and are not modelled.
- The adapter is modelled over the demo's `Parameters`. The generic `ParameterSource` protocol
  is modelled in `parameter_source.dfy`.
- `AUValue` is a 32-bit float, modelled as a `real`. `String(format:)` is an abstract rendering
  function, so the exact digits of "%.2f" are not modelled.
- `Adapter.WriteBackKeepsPreset`: with no current preset, the round trip holds only when
  `super.fullState` carries neither the "name" key nor the "preset-number" key.
  `Adapter.StaleKeysSelectPreset` shows that such leftover keys select their preset on write-back.
- `Text.Lowercased`: only the ASCII letters are lowered.
- `BundleInfo.BundleID`: `lowercased()` is modelled for the ASCII letters only. Unicode case
  mapping is left out.
- `FourCharCode(_:)` packs four characters into a 32-bit code. It is modelled by its source
  string, so equality of codes is equality of strings.
- `PresetOrdering.OrdersArePreorders`: `localizedCaseInsensitiveCompare` depends on the locale.
  It is an abstract name comparison, and ordering by name is proved sorted only when that
  comparison is a strict weak order.
- `PresetsFeature.State.Find`: the unset number 100000 finds nothing only when no factory preset
  has that number. The source assumes no factory list is that long.
- `PresetsFeature.State.DoRename`: renaming a current factory preset saves a preset with a
  factory number into the user list. The invariant on user numbers is proved for every other
  case.
- `ParameterSource.AppliedAll`: only `AUValue` entries are applied.
- `ParameterSource.UseUserPreset`: only `AUValue` entries are applied. Bridged `NSNumber`
  values of other numeric types are not.
- `HostFeature.State.Reduce`: the loader's effects are returned. The host's own effects on a
  found component are not: it sends `.engine(.connectEffect)` and `.presets(.setSource)`, and
  the model calls the two handlers directly. The engine's effects are `.none` or an animation,
  and the presets' effects are `.none`, an animation, or the monitoring effect of `setSource`
  left out above; none of them is returned.
- `HostFeature.State.LoaderFoundComponent`: the Swift code sends `.presets(.setSource(...))`,
  but the presets `Action` enumeration (`Sources/AUv3Host/PresetsFeature.swift:118-129`) has no
  such case. The model calls `PresetsFeature.State.SetSource`
  (`Sources/AUv3Host/PresetsFeature.swift:148-153`) directly.
- The demo definition's initial gain value is not modelled. It is a constructor parameter.
- `UserPresetsManager` and `Package.swift` are not part of this model.
