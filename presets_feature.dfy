/**
 * The presets feature: the host's view of an audio unit's presets. It tracks a selected
 * preset number (100_000 stands for "no preset"), writes every change of that number through
 * to the audio unit's current preset, allocates numbers for new user presets, and handles
 * the new / rename / update / delete commands and the name prompt.
 */
module PresetsFeature {
  import opened Wrappers
  import opened PresetsFacade
  import opened PresetOrdering

  /** A preset number that is never used; it stands for "no current preset". */
  const UnsetPresetNumber: int := 100_000

  /** The name shown when there is no current preset. */
  const NoPresetName: string := "(None)"

  /** Why the name prompt is shown. */
  datatype PromptAction = AskForNewName | AskForRename | NoPrompt

  /** The prompt asking for a preset name: its purpose and the text entered so far. */
  datatype PromptState = PromptState(prompt: PromptAction, name: string)

  const ClearedPrompt: PromptState := PromptState(NoPrompt, "")

  /** The name of an optional preset, or "(None)". */
  function NameOrNone(p: Option<Preset>): string
  {
    if p.Some? then p.value.name else NoPresetName
  }

  /** `n` is the number of some preset of the list. */
  predicate UsesNumber(presets: seq<Preset>, n: int)
  {
    n in Numbers(presets)
  }

  /**
   * `r` is the number a new user preset should get: it is a user number, it is unused, and
   * every user number above it is already taken (it fills the topmost gap below 0).
   */
  predicate IsNextUserNumber(presets: seq<Preset>, r: int)
  {
    && IsUserNumber(r)
    && !UsesNumber(presets, r)
    && forall k :: r < k < 0 ==> UsesNumber(presets, k)
  }

  /** At most one number fills the topmost gap. */
  lemma NextUserNumberUnique(presets: seq<Preset>, a: int, b: int)
    requires IsNextUserNumber(presets, a) && IsNextUserNumber(presets, b)
    ensures a == b
  {
  }

  /** The actions the presets feature reduces. */
  datatype Action =
    | DeleteButtonTapped
    | PromptCancelButtonTapped
    | DoNew
    | DoRename
    | FactoryPresetPicked(index: int)
    | NewButtonTapped
    | PresetNumberSelected(number: int)
    | RenameButtonTapped
    | UpdateForCurrentPresetChange(preset: Option<int>)
    | UpdateButtonTapped

  /** `PresetsFeature.State`. */
  class State {
    var source: Facade?
    var activePrompt: PromptState
    var currentPresetNumber: int
    var currentPresetName: string

    /** Factory presets of the source, or none without a source. */
    function FactoryPresets(): seq<Preset>
      reads this, source
    {
      if source == null then [] else source.FactoryPresetsNonNil()
    }

    /** User presets of the source, or none without a source. */
    function UserPresets(): seq<Preset>
      reads this, source
    {
      if source == null then [] else source.userPresets
    }

    /** The source's current preset, or none without a source. */
    function CurrentPreset(): Option<Preset>
      reads this, source
    {
      if source == null then None else source.currentPreset
    }

    function HasFactoryPresets(): bool
      reads this, source
    {
      FactoryPresets() != []
    }

    function HasUserPresets(): bool
      reads this, source
    {
      source != null && source.supportsUserPresets
    }

    /** True when the audio unit offers any presets at all. */
    function HasPresets(): (r: bool)
      reads this, source
      ensures r <==> (source != null && (source.FactoryPresetsNonNil() != [] || source.supportsUserPresets))
    {
      HasFactoryPresets() || HasUserPresets()
    }

    /** User presets ordered by name under the locale's comparison `nameLess`. */
    function UserPresetsOrderedByName(nameLess: (string, string) -> bool): (r: seq<Preset>)
      reads this, source
      ensures multiset(r) == multiset(UserPresets())
    {
      SortBy(UserPresets(), ByName(nameLess))
    }

    /** Factory presets ordered by name under the locale's comparison `nameLess`. */
    function FactoryPresetsOrderedByName(nameLess: (string, string) -> bool): (r: seq<Preset>)
      reads this, source
      ensures multiset(r) == multiset(FactoryPresets())
    {
      SortBy(FactoryPresets(), ByName(nameLess))
    }

    /** `find(number:)`: the first factory preset numbered `n` when `n >= 0`, else the first such user preset. */
    function Find(n: int): (r: Option<Preset>)
      reads this, source
      ensures r.Some? ==> r.value.number == n
      ensures r.Some? && IsFactoryNumber(n) ==> r.value in FactoryPresets()
      ensures r.Some? && IsUserNumber(n) ==> r.value in UserPresets()
      ensures r.None? && IsFactoryNumber(n) <==> IsFactoryNumber(n) && !UsesNumber(FactoryPresets(), n)
      ensures r.None? && IsUserNumber(n) <==> IsUserNumber(n) && !UsesNumber(UserPresets(), n)
    {
      FirstWithNumber(if n >= 0 then FactoryPresets() else UserPresets(), n)
    }

    /** The shown name agrees with the source's current preset. */
    predicate NameShown()
      reads this, source
    {
      currentPresetName == NameOrNone(CurrentPreset())
    }

    /** The source's user presets carry distinct negative numbers. */
    predicate UserNumbersValid()
      reads this, source
    {
      AllUser(UserPresets()) && DistinctNumbers(UserPresets())
    }

    /** `init(source:)`: no prompt, the unset number, and the source's current preset name (no write-through). */
    constructor (source: Facade?)
      ensures this.source == source && activePrompt == ClearedPrompt
      ensures currentPresetNumber == UnsetPresetNumber
      ensures NameShown()
    {
      this.source := source;
      activePrompt := ClearedPrompt;
      currentPresetNumber := UnsetPresetNumber;
      currentPresetName := if source != null && source.currentPreset.Some? then source.currentPreset.value.name else NoPresetName;
    }

    /**
     * Assignment to `currentPresetNumber` with its `didSet`: the source's current preset becomes
     * `find(n)` and the shown name follows it.
     */
    method SetCurrentPresetNumber(n: int)
      modifies this, source
      ensures source == old(source) && activePrompt == old(activePrompt)
      ensures source != null ==> source.userPresets == old(source.userPresets)
                                 && source.factoryPresets == old(source.factoryPresets)
                                 && source.supportsUserPresets == old(source.supportsUserPresets)
      ensures currentPresetNumber == n
      ensures CurrentPreset() == Find(n)
      ensures NameShown()
    {
      currentPresetNumber := n;
      if source != null {
        source.currentPreset := Find(n);
      }
      currentPresetName := NameOrNone(CurrentPreset());
    }

    /** `nextNumber`: walk the user numbers from the top down and stop at the first gap. */
    method NextNumber() returns (number: int)
      ensures AllUser(UserPresets()) ==> IsUserNumber(number)
      ensures AllUser(UserPresets()) ==> forall k :: number < k < 0 ==> UsesNumber(UserPresets(), k)
      ensures DistinctNumbers(UserPresets()) ==> !UsesNumber(UserPresets(), number)
    {
      var user := UserPresets();
      var ordered := SortBy(user, ByNumberDescending);
      OrdersArePreorders((x: string, y: string) => false);
      SortBySorted(user, ByNumberDescending);
      number := if |ordered| > 0 && ordered[0].number > -1 then ordered[0].number else -1;
      ghost var start := number;
      var i := 0;
      while i < |ordered|
        invariant 0 <= i <= |ordered|
        invariant number == start - i
        invariant forall j :: 0 <= j < i ==> ordered[j].number == start - j
      {
        if ordered[i].number != number {
          break;
        }
        number := number - 1;
        i := i + 1;
      }
      SameMembers(user, ordered);
      if AllUser(user) {
        if |ordered| > 0 {
          assert ordered[0] in user;
        }
        forall k | number < k < 0 ensures UsesNumber(user, k) {
          var j := -1 - k;
          assert ordered[j].number == k;
          NumberUsed(user, ordered[j]);
        }
      }
      if DistinctNumbers(user) {
        SortByDistinct(user, ByNumberDescending);
        forall j | 0 <= j < |ordered| ensures ordered[j].number != number {
          if j >= i {
            if i == 0 {
              assert ordered[0].number <= start;
            } else {
              assert ordered[i - 1].number == number + 1;
            }
            assert ordered[i].number < number;
          }
        }
        forall m | 0 <= m < |user| ensures Numbers(user)[m] != number {
          assert user[m] in ordered;
        }
      }
    }

    /** `updateForCurrentPresetChange`: a cleared preset on the audio unit clears the selection; anything else is ignored. */
    method UpdateForCurrentPresetChange(preset: Option<int>)
      modifies this, source
      ensures old(source) != null ==> source == old(source) && source.factoryPresets == old(source.factoryPresets)
                                      && source.supportsUserPresets == old(source.supportsUserPresets)
      ensures source == old(source) && activePrompt == old(activePrompt) && UserPresets() == old(UserPresets())
      ensures preset.None? ==> currentPresetNumber == UnsetPresetNumber && CurrentPreset() == Find(UnsetPresetNumber) && NameShown()
      ensures preset.Some? ==> currentPresetNumber == old(currentPresetNumber) && currentPresetName == old(currentPresetName)
                               && CurrentPreset() == old(CurrentPreset())
    {
      if preset.None? {
        SetCurrentPresetNumber(UnsetPresetNumber);
      }
    }

    /** `clearPrompt`. */
    method ClearPrompt()
      modifies this`activePrompt
      ensures activePrompt == ClearedPrompt
    {
      activePrompt := ClearedPrompt;
    }

    /** `deleteButtonTapped`: delete the current user preset and clear the selection; otherwise do nothing. */
    method DeleteButtonTapped()
      modifies this, source
      ensures old(source) != null ==> source == old(source) && source.factoryPresets == old(source.factoryPresets)
                                      && source.supportsUserPresets == old(source.supportsUserPresets)
      ensures source == old(source) && activePrompt == old(activePrompt)
      ensures old(CurrentPreset()).Some? && IsUserNumber(old(CurrentPreset()).value.number) ==>
                && UserPresets() == WithoutNumber(old(UserPresets()), old(CurrentPreset()).value.number)
                && currentPresetNumber == UnsetPresetNumber
                && CurrentPreset() == Find(UnsetPresetNumber)
                && NameShown()
      ensures !(old(CurrentPreset()).Some? && IsUserNumber(old(CurrentPreset()).value.number)) ==>
                && UserPresets() == old(UserPresets())
                && currentPresetNumber == old(currentPresetNumber)
                && currentPresetName == old(currentPresetName)
                && CurrentPreset() == old(CurrentPreset())
      ensures old(UserNumbersValid()) ==> UserNumbersValid()
    {
      if source != null && source.currentPreset.Some? && source.currentPreset.value.number < 0 {
        var preset := source.currentPreset.value;
        ghost var before := source.userPresets;
        source.DeleteUserPreset(Preset(preset.number, preset.name));
        WithoutNumberKeepsInvariant(before, preset.number);
        SetCurrentPresetNumber(UnsetPresetNumber);
      }
    }

    /** `promptCancelButtonTapped`: dismiss the prompt. */
    method PromptCancelButtonTapped()
      modifies this`activePrompt
      ensures activePrompt == ClearedPrompt
    {
      ClearPrompt();
    }

    /**
     * `doNew`: save a user preset under the next free number with the prompt's name, select it
     * and dismiss the prompt. Without a source nothing happens (the prompt stays).
     */
    method DoNew()
      modifies this, source
      ensures old(source) != null ==> source == old(source) && source.factoryPresets == old(source.factoryPresets)
                                      && source.supportsUserPresets == old(source.supportsUserPresets)
      ensures source == old(source)
      ensures old(source) == null ==> activePrompt == old(activePrompt) && currentPresetNumber == old(currentPresetNumber)
                                      && currentPresetName == old(currentPresetName)
      ensures old(source) != null ==>
                && UserPresets() == Upserted(old(UserPresets()), Preset(currentPresetNumber, old(activePrompt.name)))
                && activePrompt == ClearedPrompt
                && CurrentPreset() == Find(currentPresetNumber)
                && NameShown()
      ensures old(source) != null && old(AllUser(UserPresets())) ==>
                && IsUserNumber(currentPresetNumber)
                && CurrentPreset() == Some(Preset(currentPresetNumber, old(activePrompt.name)))
                && currentPresetName == old(activePrompt.name)
      ensures old(source) != null && old(UserNumbersValid()) ==>
                && IsNextUserNumber(old(UserPresets()), currentPresetNumber)
                && |UserPresets()| == |old(UserPresets())| + 1
                && UserNumbersValid()
    {
      if source != null {
        var number := NextNumber();
        var preset := Preset(number, activePrompt.name);
        ghost var before := UserPresets();
        if AllUser(before) && DistinctNumbers(before) {
          assert IsNextUserNumber(before, number);
        }
        source.SaveUserPreset(preset);
        UpsertedFinds(before, preset);
        UpsertedSize(before, preset);
        if DistinctNumbers(before) {
          UpsertedKeepsInvariant(before, preset);
          assert FirstWithNumber(before, number).None?;
        }
        SetCurrentPresetNumber(preset.number);
        ClearPrompt();
      }
    }

    /**
     * `doRename`: replace the current preset by one with the same number and the prompt's name,
     * select it, and always dismiss the prompt. The number is not checked to be a user number.
     */
    method DoRename()
      modifies this, source
      ensures old(source) != null ==> source == old(source) && source.factoryPresets == old(source.factoryPresets)
                                      && source.supportsUserPresets == old(source.supportsUserPresets)
      ensures source == old(source)
      ensures activePrompt == ClearedPrompt
      ensures old(CurrentPreset()).Some? ==>
                && UserPresets() == WithoutNumber(old(UserPresets()), old(CurrentPreset()).value.number)
                                    + [Preset(old(CurrentPreset()).value.number, old(activePrompt.name))]
                && currentPresetNumber == old(CurrentPreset()).value.number
                && CurrentPreset() == Find(currentPresetNumber)
                && NameShown()
      ensures old(CurrentPreset()).Some? && IsUserNumber(old(CurrentPreset()).value.number) ==>
                && CurrentPreset() == Some(Preset(currentPresetNumber, old(activePrompt.name)))
                && currentPresetName == old(activePrompt.name)
      ensures old(CurrentPreset()).None? ==>
                && UserPresets() == old(UserPresets())
                && currentPresetNumber == old(currentPresetNumber)
                && currentPresetName == old(currentPresetName)
                && CurrentPreset() == old(CurrentPreset())
      ensures old(UserNumbersValid()) && !(old(CurrentPreset()).Some? && IsFactoryNumber(old(CurrentPreset()).value.number))
              ==> UserNumbersValid()
    {
      if source != null && source.currentPreset.Some? {
        var preset := source.currentPreset.value;
        var renamed := Preset(preset.number, activePrompt.name);
        ghost var before := source.userPresets;
        source.DeleteUserPreset(preset);
        ghost var remaining := source.userPresets;
        assert FirstIndex(remaining, renamed.number).None?;
        source.SaveUserPreset(renamed);
        UpsertedFinds(remaining, renamed);
        if AllUser(before) && DistinctNumbers(before) {
          WithoutNumberKeepsInvariant(before, preset.number);
          RenameKeepsInvariant(remaining, renamed);
        }
        SetCurrentPresetNumber(renamed.number);
      }
      ClearPrompt();
    }

    /** `presetNumberSelected` / `factoryPresetPicked`: select `n` if a preset has that number, else clear the selection. */
    method PresetNumberSelected(n: int)
      modifies this, source
      ensures old(source) != null ==> source == old(source) && source.factoryPresets == old(source.factoryPresets)
                                      && source.supportsUserPresets == old(source.supportsUserPresets)
      ensures source == old(source) && activePrompt == old(activePrompt) && UserPresets() == old(UserPresets())
      ensures currentPresetNumber == (if old(Find(n)).Some? then n else UnsetPresetNumber)
      ensures CurrentPreset() == Find(currentPresetNumber)
      ensures old(Find(n)).Some? ==> CurrentPreset() == old(Find(n))
      ensures NameShown()
    {
      var found := Find(n);
      SetCurrentPresetNumber(if found.Some? then found.value.number else UnsetPresetNumber);
    }

    /** `newButtonTapped`: ask for a new name, starting from the current preset's name. */
    method NewButtonTapped()
      modifies this`activePrompt
      ensures activePrompt == PromptState(AskForNewName, currentPresetName)
    {
      activePrompt := PromptState(AskForNewName, currentPresetName);
    }

    /** `renameTapped`: ask for a new name only when the current preset is a user preset. */
    method RenameTapped()
      modifies this`activePrompt
      ensures old(CurrentPreset()).Some? && IsUserNumber(old(CurrentPreset()).value.number) ==>
                activePrompt == PromptState(AskForRename, currentPresetName)
      ensures !(old(CurrentPreset()).Some? && IsUserNumber(old(CurrentPreset()).value.number)) ==>
                activePrompt == old(activePrompt)
    {
      if source != null && source.currentPreset.Some? && source.currentPreset.value.number < 0 {
        activePrompt := PromptState(AskForRename, currentPresetName);
      }
    }

    /** `updateTapped`: re-save the current user preset; the selection does not change. */
    method UpdateTapped()
      modifies source
      ensures old(source) != null ==> source == old(source) && source.factoryPresets == old(source.factoryPresets)
                                      && source.supportsUserPresets == old(source.supportsUserPresets)
      ensures CurrentPreset() == old(CurrentPreset())
      ensures old(CurrentPreset()).Some? && IsUserNumber(old(CurrentPreset()).value.number) ==>
                UserPresets() == Upserted(old(UserPresets()), old(CurrentPreset()).value)
      ensures !(old(CurrentPreset()).Some? && IsUserNumber(old(CurrentPreset()).value.number)) ==>
                UserPresets() == old(UserPresets())
      ensures old(UserNumbersValid()) ==> UserNumbersValid()
    {
      if source != null && source.currentPreset.Some? && source.currentPreset.value.number < 0 {
        var preset := source.currentPreset.value;
        ghost var before := source.userPresets;
        source.SaveUserPreset(Preset(preset.number, preset.name));
        if DistinctNumbers(before) {
          UpsertedKeepsInvariant(before, preset);
        }
      }
    }

    /** `setSource`: attach the audio unit whose presets are managed (the monitoring effect is not modelled). */
    method SetSource(facade: Facade)
      modifies this`source
      ensures source == facade
    {
      source := facade;
    }

    /**
     * The reducer. Every action keeps user preset numbers distinct and negative, except a
     * rename while a factory preset is current: rename does not check the number itself.
     */
    method Reduce(action: Action)
      modifies this, source
      ensures old(source) != null ==> source == old(source) && source.factoryPresets == old(source.factoryPresets)
                                      && source.supportsUserPresets == old(source.supportsUserPresets)
      ensures source == old(source)
      ensures old(UserNumbersValid()) && !(action.DoRename? && old(CurrentPreset()).Some?
                                            && IsFactoryNumber(old(CurrentPreset()).value.number))
              ==> UserNumbersValid()
    {
      match action
      case DeleteButtonTapped => DeleteButtonTapped();
      case PromptCancelButtonTapped => PromptCancelButtonTapped();
      case DoNew => DoNew();
      case DoRename => DoRename();
      case FactoryPresetPicked(index) => PresetNumberSelected(index);
      case NewButtonTapped => NewButtonTapped();
      case PresetNumberSelected(number) => PresetNumberSelected(number);
      case RenameButtonTapped => RenameTapped();
      case UpdateForCurrentPresetChange(preset) => UpdateForCurrentPresetChange(preset);
      case UpdateButtonTapped => UpdateTapped();
    }
  }

  /** A preset appended under a user number that the list no longer uses keeps the list valid. */
  lemma RenameKeepsInvariant(remaining: seq<Preset>, renamed: Preset)
    requires AllUser(remaining) && DistinctNumbers(remaining)
    requires forall q :: q in remaining ==> q.number != renamed.number
    ensures DistinctNumbers(remaining + [renamed])
    ensures IsUserNumber(renamed.number) ==> AllUser(remaining + [renamed])
  {
    forall j | 0 <= j < |remaining| ensures remaining[j].number != renamed.number {
      assert remaining[j] in remaining;
    }
  }

  /** Sorting keeps the presets. */
  lemma SameMembers(user: seq<Preset>, ordered: seq<Preset>)
    requires multiset(ordered) == multiset(user)
    ensures forall p :: p in ordered <==> p in user
  {
    forall p ensures p in ordered <==> p in user {
      assert p in ordered <==> p in multiset(ordered);
      assert p in user <==> p in multiset(user);
    }
  }

  /** A member's number is used. */
  lemma NumberUsed(presets: seq<Preset>, p: Preset)
    requires p in presets
    ensures UsesNumber(presets, p.number)
  {
    var m :| 0 <= m < |presets| && presets[m] == p;
    assert Numbers(presets)[m] == p.number;
  }

  /** The allocation examples: {} gives -1; {-1,-3,-6,-2,-5} gives -4; {-2,-1} gives -3; {-2} gives -1. */
  lemma NextUserNumberExamples()
    ensures IsNextUserNumber([], -1)
    ensures IsNextUserNumber([Preset(-1, "One"), Preset(-3, "Three"), Preset(-6, "Six"),
                              Preset(-2, "Two"), Preset(-5, "Five")], -4)
    ensures IsNextUserNumber([Preset(-2, "Two"), Preset(-1, "One")], -3)
    ensures IsNextUserNumber([Preset(-2, "Two")], -1)
  {
    var five := [Preset(-1, "One"), Preset(-3, "Three"), Preset(-6, "Six"), Preset(-2, "Two"), Preset(-5, "Five")];
    assert Numbers(five) == [-1, -3, -6, -2, -5];
    assert Numbers([Preset(-2, "Two"), Preset(-1, "One")]) == [-2, -1];
    assert Numbers([Preset(-2, "Two")]) == [-2];
  }
}
