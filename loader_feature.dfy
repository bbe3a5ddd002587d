/**
 * The audio unit loader feature: its state shows the progress of the search for an audio
 * unit; the first outcome (created, creation failed, or timeout) finishes the search and is
 * forwarded to the host, later ones are ignored. Effects are returned as tokens; the tasks
 * they start (the timer and the scan loop) are not part of the model.
 */
module LoaderFeature {
  import ComponentDescription
  import opened LoaderError

  /** `AudioUnitLoaderSuccess`: handles of the instantiated audio unit and its view controller. */
  datatype AudioUnitLoaderSuccess = AudioUnitLoaderSuccess(audioUnit: nat, viewController: nat)

  /** The outcome reported to the host. */
  datatype Delegate = Found(success: AudioUnitLoaderSuccess) | Failed(failure: AudioUnitLoaderError)

  datatype Action =
    | AudioUnitCreated(success: AudioUnitLoaderSuccess)
    | AudioUnitCreationFailed(failure: AudioUnitLoaderError)
    | DelegateAction(delegate: Delegate)
    | MaxWaitReached
    | StopScanning
    | Task

  /** Identifiers of the two long-running tasks. */
  datatype CancelId = MaxWait | Scanning

  /** `CancelId.allCases`. */
  const AllCancelIds: seq<CancelId> := [MaxWait, Scanning]

  /** An effect: send an action to the host, cancel a task, or start one of the two tasks. */
  datatype Effect =
    | Send(delegate: Delegate)
    | Cancel(id: CancelId)
    | RunMaxWait(seconds: nat)
    | RunScanning(description: ComponentDescription.AudioComponentDescription)

  /** The default time allowed for the search, in seconds. */
  const DefaultMaxWaitSeconds: nat := 15

  const SearchingLabel: string := "Searching for audio unit '"

  /** The status shown while searching: the subtype and manufacturer codes, quoted. */
  function SearchingStatus(d: ComponentDescription.AudioComponentDescription): (r: string)
    ensures var sub := d.componentSubType.stringValue;
            && |r| == |SearchingLabel| + |sub| + 5 + |d.componentManufacturer.stringValue| + 2
            && r[..|SearchingLabel|] == SearchingLabel
            && r[|SearchingLabel|..|SearchingLabel| + |sub|] == sub
            && r[|SearchingLabel| + |sub|..|SearchingLabel| + |sub| + 5] == "' / '"
            && r[|r| - 2 - |d.componentManufacturer.stringValue|..|r| - 2] == d.componentManufacturer.stringValue
            && r[|r| - 2..] == "'…"
  {
    var sub := d.componentSubType.stringValue;
    var manufacturer := d.componentManufacturer.stringValue;
    var r := SearchingLabel + sub + "' / '" + manufacturer + "'…";
    assert r == (SearchingLabel + sub) + "' / '" + (manufacturer + "'…");
    r
  }

  /** The status once finished: empty on success, the error's description on failure. */
  function FinishedStatus(result: Delegate): (r: string)
    ensures result.Found? ==> r == ""
    ensures result.Failed? ==> r == Description(result.failure)
  {
    match result
    case Found(_) => ""
    case Failed(e) => Description(e)
  }

  /** `cancelTasks`: one cancellation per task identifier. */
  function CancelTasks(): (r: seq<Effect>)
    ensures |r| == |AllCancelIds|
    ensures Cancel(MaxWait) in r && Cancel(Scanning) in r
    ensures forall e :: e in r ==> e.Cancel?
  {
    var r := seq(|AllCancelIds|, i requires 0 <= i < |AllCancelIds| => Cancel(AllCancelIds[i]));
    assert r == [Cancel(MaxWait), Cancel(Scanning)];
    r
  }

  /** The effects of the first finish: the outcome for the host, then both cancellations. */
  function FinishEffects(result: Delegate): (r: seq<Effect>)
    ensures |r| == 3 && r[0] == Send(result) && r[1..] == CancelTasks()
  {
    [Send(result)] + CancelTasks()
  }

  /** A success and a failure never leave the same status: every error describes as a non-empty message. */
  lemma FinishedStatusDistinguishes(s: AudioUnitLoaderSuccess, e: AudioUnitLoaderError)
    ensures FinishedStatus(Found(s)) != FinishedStatus(Failed(e))
  {
    if e.Framework? {
      assert |Description(e)| >= |FrameworkPrefix|;
    } else {
      assert Description(e)[0] == 'F';
    }
  }

  /** `AudioUnitLoaderFeature.State`. */
  class State {
    const componentDescription: ComponentDescription.AudioComponentDescription
    const maxWait: nat
    var finished: bool
    var status: string

    /** `init`: not finished, showing what is being searched for. */
    constructor (componentDescription: ComponentDescription.AudioComponentDescription, maxWait: nat)
      ensures this.componentDescription == componentDescription && this.maxWait == maxWait
      ensures !finished && status == SearchingStatus(componentDescription)
    {
      this.componentDescription := componentDescription;
      this.maxWait := maxWait;
      finished := false;
      status := SearchingStatus(componentDescription);
    }

    /** `finish`: the first outcome finishes the search; any later one changes nothing and emits nothing. */
    method Finish(result: Delegate) returns (effects: seq<Effect>)
      modifies this
      ensures finished
      ensures old(finished) ==> status == old(status) && effects == []
      ensures !old(finished) ==> status == FinishedStatus(result) && effects == FinishEffects(result)
    {
      if finished {
        return [];
      }
      finished := true;
      match result
      case Found(success) =>
        status := "";
        effects := [Send(Found(success))] + CancelTasks();
      case Failed(failure) =>
        status := Description(failure);
        effects := [Send(Failed(failure))] + CancelTasks();
    }

    /** The reducer: creation results and the timeout finish; scanning starts both tasks or stops them. */
    method Reduce(action: Action) returns (effects: seq<Effect>)
      modifies this
      ensures action.AudioUnitCreated? || action.AudioUnitCreationFailed? || action.MaxWaitReached? ==> finished
      ensures !old(finished) && action.MaxWaitReached? ==>
                status == Description(ComponentNotFound) && effects == FinishEffects(Failed(ComponentNotFound))
      ensures !old(finished) && action.AudioUnitCreated? ==>
                status == "" && effects == FinishEffects(Found(action.success))
      ensures !old(finished) && action.AudioUnitCreationFailed? ==>
                status == Description(action.failure) && effects == FinishEffects(Failed(action.failure))
      ensures old(finished) && (action.AudioUnitCreated? || action.AudioUnitCreationFailed? || action.MaxWaitReached?) ==>
                status == old(status) && effects == []
      ensures action.DelegateAction? ==> finished == old(finished) && status == old(status) && effects == []
      ensures action.StopScanning? ==> finished == old(finished) && status == old(status) && effects == CancelTasks()
      ensures action.Task? ==> finished == old(finished) && status == old(status)
                               && effects == [RunMaxWait(maxWait), RunScanning(componentDescription)]
    {
      match action
      case AudioUnitCreated(success) => effects := Finish(Found(success));
      case AudioUnitCreationFailed(failure) => effects := Finish(Failed(failure));
      case DelegateAction(_) => effects := [];
      case MaxWaitReached => effects := Finish(Failed(ComponentNotFound));
      case StopScanning => effects := CancelTasks();
      case Task => effects := [RunMaxWait(maxWait), RunScanning(componentDescription)];
    }
  }
}
