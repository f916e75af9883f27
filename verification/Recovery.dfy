/** services/recovery.py and repositories/recovery.py: how a restart judges an interrupted run, and the rows the service
    itself writes. */
module Recoveries {
  import opened Prelude
  import opened Json

  const FORMAT_VERSION := 1

  const RUN_STATUSES: set<string> := {"queued", "running", "succeeded", "failed", "cancelled"}

  datatype Row = Row(formatVersion: Value, state: Value, checksum: string)

  datatype ActionStatus = IntentRecorded | Started | Confirmed | Failed | Uncertain

  datatype Action = Action(actionType: string, status: ActionStatus)

  datatype Outcome =
    | StoppedNoReplay
    | BlockedUncertainAction(uncertain: seq<string>)
    | BlockedCorruptCheckpoint
    | BlockedNoCheckpoint

  datatype Validity = Sound | Broken | Raises

  /** What reading the run's rows gives: they may fail to decode. */
  datatype Loaded = Undecodable | Decoded(checkpoint: Option<Row>, actions: seq<Action>)

  datatype Assessment = Decided(outcome: Outcome) | Aborted

  /** Lists and dictionaries cannot be looked up in a Python set. */
  predicate Unhashable(v: Value) {
    v.List? || v.Obj?
  }

  ghost predicate HeaderOk(runId: string, row: Row) {
    && row.state.Obj?
    && EqualsInt(row.formatVersion, FORMAT_VERSION)
    && EqualsInt(Get(row.state.fields, "format_version"), FORMAT_VERSION)
    && Get(row.state.fields, "run_id") == Str(runId)
    && Get(row.state.fields, "execution_spec").Obj?
  }

  predicate StatusOk(state: Object) {
    var status := Get(state, "run_status");
    status.Str? && status.s in RUN_STATUSES
  }

  /** `_checkpoint_is_valid`, where `checksum` stands for `checkpoint_checksum`. */
  function CheckpointIsValid(runId: string, row: Row, checksum: Object -> string): Validity {
    if !row.state.Obj? then Broken
    else
      var state := row.state.fields;
      if !EqualsInt(row.formatVersion, FORMAT_VERSION) || !EqualsInt(Get(state, "format_version"), FORMAT_VERSION)
      then Broken
      else
        if Get(state, "run_id") != Str(runId) || !Get(state, "execution_spec").Obj? then Broken
        else if Unhashable(Get(state, "run_status")) then Raises
        else if !StatusOk(state) then Broken
        else if row.checksum == checksum(state) then Sound
        else Broken
  }

  predicate MayHaveHappened(status: ActionStatus) {
    status.IntentRecorded? || status.Started? || status.Uncertain?
  }

  function UncertainTypes(actions: seq<Action>): seq<string> {
    if actions == [] then []
    else
      (if MayHaveHappened(actions[0].status) then [actions[0].actionType] else []) + UncertainTypes(actions[1..])
  }

  /** `_recovery_outcome`. */
  function OutcomeOf(runId: string, checkpoint: Option<Row>, actions: seq<Action>, checksum: Object -> string)
    : Assessment
  {
    if checkpoint.None? then Decided(BlockedNoCheckpoint)
    else
      match CheckpointIsValid(runId, checkpoint.value, checksum)
      case Raises => Aborted
      case Broken => Decided(BlockedCorruptCheckpoint)
      case Sound =>
        var uncertain := UncertainTypes(actions);
        Decided(if uncertain != [] then BlockedUncertainAction(uncertain) else StoppedNoReplay)
  }

  /** `_assess_stale_run`: only a failure to load is caught. */
  function Assess(runId: string, loaded: Loaded, checksum: Object -> string): Assessment {
    match loaded
    case Undecodable => Decided(BlockedCorruptCheckpoint)
    case Decoded(checkpoint, actions) => OutcomeOf(runId, checkpoint, actions, checksum)
  }

  // ---------------------------------------------------------------- when a run counts as stopped

  ghost predicate Settled(action: Action) {
    action.status.Confirmed? || action.status.Failed?
  }

  lemma {:induction false} NoneUncertain(actions: seq<Action>)
    ensures UncertainTypes(actions) == [] <==> forall i :: 0 <= i < |actions| ==> Settled(actions[i])
  {
    if actions != [] {
      NoneUncertain(actions[1..]);
      assert actions == [actions[0]] + actions[1..];
    }
  }

  lemma ValidExactly(runId: string, row: Row, checksum: Object -> string)
    ensures CheckpointIsValid(runId, row, checksum).Sound? <==>
              && HeaderOk(runId, row)
              && StatusOk(row.state.fields)
              && row.checksum == checksum(row.state.fields)
  {
  }

  /** A run counts as stopped without replay exactly when its latest checkpoint is valid and every ledger entry is
      confirmed or failed. */
  lemma StoppedExactly(runId: string, loaded: Loaded, checksum: Object -> string)
    ensures Assess(runId, loaded, checksum) == Decided(StoppedNoReplay) <==>
              && loaded.Decoded?
              && loaded.checkpoint.Some?
              && HeaderOk(runId, loaded.checkpoint.value)
              && StatusOk(loaded.checkpoint.value.state.fields)
              && loaded.checkpoint.value.checksum == checksum(loaded.checkpoint.value.state.fields)
              && (forall i :: 0 <= i < |loaded.actions| ==> Settled(loaded.actions[i]))
  {
    hide CheckpointIsValid, HeaderOk, StatusOk;
    if loaded.Decoded? && loaded.checkpoint.Some? {
      ValidExactly(runId, loaded.checkpoint.value, checksum);
      NoneUncertain(loaded.actions);
    }
  }

  /** The actions reported as uncertain are those that may have happened, in the order of the ledger. */
  lemma {:induction false} UncertainInOrder(actions: seq<Action>, k: nat)
    requires k <= |actions|
    ensures UncertainTypes(actions) == UncertainTypes(actions[..k]) + UncertainTypes(actions[k..])
    ensures k < |actions| && MayHaveHappened(actions[k].status) ==> actions[k].actionType in UncertainTypes(actions)
    ensures k < |actions| ==>
              UncertainTypes([actions[k]]) == if actions[k].status in {IntentRecorded, Started, ActionStatus.Uncertain}
                                              then [actions[k].actionType] else []
  {
    if k == 0 {
      assert actions[..0] == [] && actions[0..] == actions;
    } else {
      UncertainInOrder(actions[1..], k - 1);
      assert actions[..k][1..] == actions[1..][..k - 1] && actions[k..] == actions[1..][k - 1..];
      var head := if MayHaveHappened(actions[0].status) then [actions[0].actionType] else [];
      Associates(head, UncertainTypes(actions[1..][..k - 1]), UncertainTypes(actions[k..]));
    }
  }

  lemma Associates(a: seq<string>, b: seq<string>, c: seq<string>)
    ensures (a + b) + c == a + (b + c)
  {
  }

  // ---------------------------------------------------------------- when the restart itself fails

  /** Judging a run raises exactly when everything before the status is in order and the status is a list or a
      dictionary, which cannot be looked up in the set of statuses; the caller does not catch it. */
  lemma AbortsExactly(runId: string, loaded: Loaded, checksum: Object -> string)
    ensures Assess(runId, loaded, checksum).Aborted? <==>
              && loaded.Decoded?
              && loaded.checkpoint.Some?
              && HeaderOk(runId, loaded.checkpoint.value)
              && Unhashable(Get(loaded.checkpoint.value.state.fields, "run_status"))
  {
  }

  /** The number 1, or what Python takes for it. */
  ghost predicate IsOne(v: Value) {
    v == Int(1) || v == Bool(true) || v == Float(1.0)
  }

  /** The row and its state are of the first format, the state is that of this run, and it holds an execution spec. */
  ghost predicate OfThisRun(runId: string, row: Row) {
    && row.state.Obj? && IsOne(row.formatVersion)
    && var state := row.state.fields;
       && "format_version" in state && IsOne(state["format_version"])
       && "run_id" in state && state["run_id"] == Str(runId)
       && "execution_spec" in state && state["execution_spec"].Obj?
  }

  /** Besides, it names one of the five statuses, and the row's checksum is that of the state. */
  ghost predicate Intact(runId: string, row: Row, checksum: Object -> string) {
    && OfThisRun(runId, row)
    && var state := row.state.fields;
       && "run_status" in state
       && (state["run_status"] == Str("queued") || state["run_status"] == Str("running")
           || state["run_status"] == Str("succeeded") || state["run_status"] == Str("failed")
           || state["run_status"] == Str("cancelled"))
       && row.checksum == checksum(state)
  }

  ghost predicate StatusIsListOrObject(row: Row) {
    && row.state.Obj? && "run_status" in row.state.fields
    && (row.state.fields["run_status"].List? || row.state.fields["run_status"].Obj?)
  }

  ghost predicate MayHaveRun(status: ActionStatus) {
    status == IntentRecorded || status == Started || status == Uncertain
  }

  /** How a restart judges a run, in every case: without a checkpoint, with one that cannot be read or is not intact,
      with one whose status cannot be looked up, with an action that may have happened, and with none. */
  ghost predicate JudgedAs(runId: string, loaded: Loaded, checksum: Object -> string, assessment: Assessment) {
    match assessment
    case Aborted =>
      && loaded.Decoded? && loaded.checkpoint.Some?
      && OfThisRun(runId, loaded.checkpoint.value) && StatusIsListOrObject(loaded.checkpoint.value)
    case Decided(BlockedNoCheckpoint) => loaded.Decoded? && loaded.checkpoint.None?
    case Decided(BlockedCorruptCheckpoint) =>
      loaded.Undecodable?
      || (loaded.checkpoint.Some? && !Intact(runId, loaded.checkpoint.value, checksum)
          && !(OfThisRun(runId, loaded.checkpoint.value) && StatusIsListOrObject(loaded.checkpoint.value)))
    case Decided(BlockedUncertainAction(uncertain)) =>
      && loaded.Decoded? && loaded.checkpoint.Some? && Intact(runId, loaded.checkpoint.value, checksum)
      && (exists i :: 0 <= i < |loaded.actions| && MayHaveRun(loaded.actions[i].status))
      && uncertain == UncertainTypes(loaded.actions)
    case Decided(StoppedNoReplay) =>
      && loaded.Decoded? && loaded.checkpoint.Some? && Intact(runId, loaded.checkpoint.value, checksum)
      && forall i :: 0 <= i < |loaded.actions| ==>
                       loaded.actions[i].status == Confirmed || loaded.actions[i].status == Failed
  }

  lemma JudgedExactly(runId: string, loaded: Loaded, checksum: Object -> string, assessment: Assessment)
    ensures Assess(runId, loaded, checksum) == assessment <==> JudgedAs(runId, loaded, checksum, assessment)
  {
    hide CheckpointIsValid, Intact, OfThisRun, StatusIsListOrObject;
    if loaded.Decoded? && loaded.checkpoint.Some? {
      IntactExactly(runId, loaded.checkpoint.value, checksum);
      SomeUncertain(loaded.actions);
    }
  }

  lemma SomeUncertain(actions: seq<Action>)
    ensures UncertainTypes(actions) != [] <==> exists i :: 0 <= i < |actions| && MayHaveRun(actions[i].status)
    ensures UncertainTypes(actions) == [] <==>
              forall i :: 0 <= i < |actions| ==> actions[i].status == Confirmed || actions[i].status == Failed
  {
    NoneUncertain(actions);
    hide UncertainTypes;
  }

  lemma IntactExactly(runId: string, row: Row, checksum: Object -> string)
    ensures CheckpointIsValid(runId, row, checksum).Sound? <==> Intact(runId, row, checksum)
    ensures CheckpointIsValid(runId, row, checksum).Raises? <==> OfThisRun(runId, row) && StatusIsListOrObject(row)
  {
    if row.state.Obj? {
      VersionIsOne(row.formatVersion);
      VersionIsOne(Get(row.state.fields, "format_version"));
      KnownStatus(Get(row.state.fields, "run_status"));
      hide EqualsInt;
    }
  }

  lemma KnownStatus(status: Value)
    ensures status.Str? && status.s in RUN_STATUSES <==>
              status == Str("queued") || status == Str("running") || status == Str("succeeded")
              || status == Str("failed") || status == Str("cancelled")
  {
  }

  datatype Decision = Decision(runId: string, outcome: Outcome)

  datatype Recovered = AllRecovered(decisions: seq<Decision>) | NoneRecovered

  datatype Stale = Stale(runId: string, loaded: Loaded)

  /** The one transaction of `recover_stale_runs`: a run that cannot be judged rolls all of them back. */
  method RecoverStaleRuns(stale: seq<Stale>, checksum: Object -> string) returns (result: Recovered)
    ensures result.NoneRecovered? <==>
              exists i :: 0 <= i < |stale| && Assess(stale[i].runId, stale[i].loaded, checksum).Aborted?
    ensures result.AllRecovered? ==>
              && |result.decisions| == |stale|
              && forall i :: 0 <= i < |stale| ==>
                   && result.decisions[i].runId == stale[i].runId
                   && Assess(stale[i].runId, stale[i].loaded, checksum) == Decided(result.decisions[i].outcome)
  {
    hide Assess;
    var decisions: seq<Decision> := [];
    var k := 0;
    while k < |stale|
      invariant k == |decisions| <= |stale|
      invariant forall i :: 0 <= i < k ==>
                  && decisions[i].runId == stale[i].runId
                  && Assess(stale[i].runId, stale[i].loaded, checksum) == Decided(decisions[i].outcome)
    {
      var assessment := Assess(stale[k].runId, stale[k].loaded, checksum);
      if assessment.Aborted? {
        return NoneRecovered;
      }
      decisions := decisions + [Decision(stale[k].runId, assessment.outcome)];
      k := k + 1;
    }
    result := AllRecovered(decisions);
  }

  // ---------------------------------------------------------------- what the service writes

  /** `create_initial_checkpoint` and `create_lifecycle_checkpoint`, through `_create_checkpoint` and the repository. */
  function Written(runId: string, spec: Object, status: string, checksum: Object -> string): Row {
    var state := map["format_version" := Int(FORMAT_VERSION), "run_id" := Str(runId), "execution_spec" := Obj(spec),
                     "run_status" := Str(status)];
    Row(Int(FORMAT_VERSION), Obj(state), checksum(state))
  }

  /** A row the service wrote, if it is left alone, is valid for its own run and for no other. */
  lemma WrittenIsValid(runId: string, otherId: string, spec: Object, status: string, checksum: Object -> string)
    requires status in RUN_STATUSES
    ensures CheckpointIsValid(runId, Written(runId, spec, status, checksum), checksum).Sound?
    ensures var row := Written(runId, spec, status, checksum);
            && row.formatVersion == Int(1) && row.state.Obj?
            && row.state.fields.Keys == {"format_version", "run_id", "execution_spec", "run_status"}
            && row.state.fields["format_version"] == Int(1) && row.state.fields["run_id"] == Str(runId)
            && row.state.fields["execution_spec"] == Obj(spec) && row.state.fields["run_status"] == Str(status)
            && row.checksum == checksum(row.state.fields)
    ensures otherId != runId ==> CheckpointIsValid(otherId, Written(runId, spec, status, checksum), checksum).Broken?
  {
  }

  /** So a run whose latest checkpoint is as the service wrote it is never blocked for a corrupt or missing checkpoint,
      and what decides is the ledger alone. */
  lemma UntouchedRowsDecideByLedger(runId: string, spec: Object, status: string, actions: seq<Action>,
                                    checksum: Object -> string)
    requires status in RUN_STATUSES
    ensures var assessment := Assess(runId, Decoded(Some(Written(runId, spec, status, checksum)), actions), checksum);
            if forall i :: 0 <= i < |actions| ==> Settled(actions[i])
            then assessment == Decided(StoppedNoReplay)
            else assessment == Decided(BlockedUncertainAction(UncertainTypes(actions)))
  {
    hide CheckpointIsValid, Written;
    WrittenIsValid(runId, runId, spec, status, checksum);
    NoneUncertain(actions);
  }

  /** Changing the state without its checksum is noticed whenever the checksum tells the two states apart. */
  lemma TamperingIsNoticed(runId: string, row: Row, state': Object, checksum: Object -> string)
    requires row.state.Obj? && CheckpointIsValid(runId, row, checksum).Sound?
    requires checksum(state') != checksum(row.state.fields)
    ensures !CheckpointIsValid(runId, row.(state := Obj(state')), checksum).Sound?
  {
  }

  /** A written row whose state holds another version, with the checksum of that state. */
  function Reversioned(row: Row, version: Value, checksum: Object -> string): Row
    requires row.state.Obj?
  {
    var state := row.state.fields["format_version" := version];
    row.(state := Obj(state), checksum := checksum(state))
  }

  /** The version in the state is compared as Python compares numbers: besides 1, exactly `true` and 1.0 pass for it. */
  lemma VersionMayBeTrueOrFloat(runId: string, spec: Object, status: string, version: Value,
                                checksum: Object -> string)
    requires status in RUN_STATUSES
    ensures var row := Reversioned(Written(runId, spec, status, checksum), version, checksum);
            CheckpointIsValid(runId, row, checksum).Sound?
            <==> version == Int(1) || version == Bool(true) || version == Float(1.0)
  {
    hide CheckpointIsValid;
    var row := Reversioned(Written(runId, spec, status, checksum), version, checksum);
    ValidExactly(runId, row, checksum);
    VersionIsOne(version);
    hide EqualsInt;
    assert |"format_version"| != |"run_id"| && |"format_version"| != |"run_status"|;
    assert "format_version"[0] != "execution_spec"[0];
  }

  lemma VersionIsOne(version: Value)
    ensures EqualsInt(version, 1) <==> version == Int(1) || version == Bool(true) || version == Float(1.0)
  {
  }
}
