/** The Supervisor's platform self-update: the update helper that applies a
    signed release step by step, and the recovery that runs when a helper was
    killed. Every file operation and every command may fail or be the point at
    which the process dies, so a postcondition that allows `Died` holds at every
    step of the procedure. File operations are atomic: one that reports a failure
    has had no effect. */
module PlatformUpdate {
  import opened Common

  type OperationId = nat

  datatype Images = Images(api: string, web: string, supervisor: string)

  /** A verified release. The Compose override is rendered from it, so the
      override file is modelled by the release it was rendered from. */
  datatype Release = Release(version: string, images: Images)

  datatype Status = Accepted | Running | Succeeded | RolledBack | Failed

  datatype Stage =
    | Waiting | Verifying | Backup | Pulling | Switching | Api | Web | Supervisor
    | Completed | Reverted | Interrupted | RecoveryFailed

  datatype Operation = Operation(id: OperationId, status: Status, stage: Stage)

  datatype State = State(currentVersion: string, currentImages: Option<Images>,
                         operation: Option<Operation>)

  /** What an installation is made of: the override file and the recorded release. */
  datatype Installed = Installed(descriptor: Option<Release>, version: string, images: Option<Images>)

  /** What the helper remembers when it leaves its main block. */
  datatype Attempt = Attempt(operation: Option<Operation>, previousState: Option<State>,
                             rooted: bool, hadOverride: bool, overridePrepared: bool)

  predicate InFlight(operation: Operation) {
    operation.status.Accepted? || operation.status.Running?
  }

  /** The stages at which the override file may already have been replaced. */
  predicate Changed(stage: Stage) {
    stage.Switching? || stage.Api? || stage.Web? || stage.Supervisor?
  }

  /** How a completed recovery records the operation it undid. */
  function Undone(operation: Operation): Operation {
    if Changed(operation.stage) then operation.(status := RolledBack, stage := Reverted)
    else operation.(status := Failed, stage := Interrupted)
  }

  function InstalledRelease(release: Release): Installed {
    Installed(Some(release), release.version, Some(release.images))
  }

  predicate AllPulled(pulled: set<string>, images: Images) {
    images.api in pulled && images.web in pulled && images.supervisor in pulled
  }

  predicate AllReady(ready: set<Stage>) { Api in ready && Web in ready && Supervisor in ready }

  /** One run of a procedure: the faults its calls meet. */
  datatype Faults = Faults(files: seq<Fate>, commands: seq<Fate>)

  // ----- how far a sequence of calls gets -----

  /** Where a sequence of calls has got to, and the faults that are left. */
  datatype Stop = Stop(exit: Exit, files: seq<Fate>, commands: seq<Fate>)

  function ExitOf(fate: Fate): Exit {
    match fate
    case Done => Returned
    case Killed => Died
    case _ => Threw
  }

  predicate Fails(fate: Fate) { fate.Refused? || fate.Late? }

  /** One file operation more, or one command, if all calls so far succeeded. */
  function OnFile(s: Stop): Stop {
    if s.exit.Returned? then Stop(ExitOf(Head(s.files)), Tail(s.files), s.commands) else s
  }

  function OnCommand(s: Stop): Stop {
    if s.exit.Returned? then Stop(ExitOf(Head(s.commands)), s.files, Tail(s.commands)) else s
  }

  function OnCommands(s: Stop, n: nat): (stop: Stop)
    ensures !s.exit.Returned? ==> stop == s
  {
    if n == 0 then s else OnCommand(OnCommands(s, n - 1))
  }

  datatype Call = OfFile | OfCommand

  function Next(call: Call, s: Stop): Stop {
    if call.OfFile? then OnFile(s) else OnCommand(s)
  }

  /** A whole sequence of calls. */
  function After(calls: seq<Call>, s: Stop): (stop: Stop)
    ensures !s.exit.Returned? ==> stop == s
    decreases |calls|
  {
    if calls == [] then s else After(calls[1..], Next(calls[0], s))
  }

  lemma {:induction false} AfterOn(a: seq<Call>, b: seq<Call>, s: Stop)
    ensures After(a + b, s) == After(b, After(a, s))
    decreases |a|
  {
    if a == [] {
      assert a + b == b;
    } else {
      assert (a + b)[1..] == a[1..] + b;
      AfterOn(a[1..], b, Next(a[0], s));
    }
  }

  lemma AfterCall(call: Call, rest: seq<Call>, s: Stop)
    ensures After([call] + rest, s) == After(rest, Next(call, s))
  {
    assert ([call] + rest)[1..] == rest;
  }

  /** Read the plan, save the operation, verify the release. */
  const VERIFICATION := [OfFile, OfFile, OfCommand]
  /** Save the stage, dump, read back. */
  const BACKUP := [OfFile, OfCommand, OfCommand]
  /** Save the stage, pull one image after the other. */
  const PULLS := [OfFile, OfCommand, OfCommand, OfCommand]
  /** Save the stage, replace the override. */
  const REPLACEMENT := [OfFile, OfFile]
  /** Save the stage, start the service, wait for it. */
  const SERVICE := [OfFile, OfCommand, OfCommand]

  lemma VerificationIs(s: Stop)
    ensures After(VERIFICATION, s) == OnCommand(OnFile(OnFile(s)))
  {
    assert VERIFICATION == [OfFile] + ([OfFile] + ([OfCommand] + []));
    AfterCall(OfFile, [OfFile] + ([OfCommand] + []), s);
    AfterCall(OfFile, [OfCommand] + [], OnFile(s));
    AfterCall(OfCommand, [], OnFile(OnFile(s)));
  }

  lemma BackupIs(s: Stop)
    ensures After(BACKUP, s) == OnCommand(OnCommand(OnFile(s)))
  {
    assert BACKUP == SERVICE;
    ServiceIs(s);
  }

  lemma PullsAre(s: Stop)
    ensures After(PULLS, s) == OnCommands(OnFile(s), 3)
  {
    assert PULLS == [OfFile] + ([OfCommand] + ([OfCommand] + ([OfCommand] + [])));
    var saved := OnFile(s);
    AfterCall(OfFile, [OfCommand] + ([OfCommand] + ([OfCommand] + [])), s);
    AfterCall(OfCommand, [OfCommand] + ([OfCommand] + []), saved);
    AfterCall(OfCommand, [OfCommand] + [], OnCommand(saved));
    AfterCall(OfCommand, [], OnCommand(OnCommand(saved)));
    assert OnCommands(saved, 1) == OnCommand(saved);
    assert OnCommands(saved, 2) == OnCommand(OnCommands(saved, 1));
    assert OnCommands(saved, 3) == OnCommand(OnCommands(saved, 2));
  }

  lemma ReplacementIs(s: Stop)
    ensures After(REPLACEMENT, s) == OnFile(OnFile(s))
  {
    assert REPLACEMENT == [OfFile] + ([OfFile] + []);
    AfterCall(OfFile, [OfFile] + [], s);
    AfterCall(OfFile, [], OnFile(s));
  }

  lemma ServiceIs(s: Stop)
    ensures After(SERVICE, s) == OnCommand(OnCommand(OnFile(s)))
  {
    assert SERVICE == [OfFile] + ([OfCommand] + ([OfCommand] + []));
    AfterCall(OfFile, [OfCommand] + ([OfCommand] + []), s);
    AfterCall(OfCommand, [OfCommand] + [], OnFile(s));
    AfterCall(OfCommand, [], OnCommand(OnFile(s)));
  }

  /** Verify the release, and copy the override, if there is one. */
  function Preparation(hadOverride: bool): seq<Call> {
    VERIFICATION + if hadOverride then [OfFile] else []
  }

  lemma PreparationIs(s: Stop, hadOverride: bool)
    ensures After(Preparation(hadOverride), s)
            == var verified := OnCommand(OnFile(OnFile(s))); if hadOverride then OnFile(verified) else verified
  {
    AfterOn(VERIFICATION, if hadOverride then [OfFile] else [], s);
    VerificationIs(s);
    assert [OfFile] == [OfFile] + [];
    AfterCall(OfFile, [], After(VERIFICATION, s));
  }

  /** The main block up to and including the new override. */
  function Overridden(s: Stop, hadOverride: bool): (stop: Stop)
    ensures !s.exit.Returned? ==> stop == s
  {
    After(Preparation(hadOverride) + BACKUP + PULLS + REPLACEMENT, s)
  }

  lemma OverriddenIs(s: Stop, hadOverride: bool)
    ensures Overridden(s, hadOverride)
            == After(REPLACEMENT, After(PULLS, After(BACKUP, After(Preparation(hadOverride), s))))
  {
    AfterOn(Preparation(hadOverride) + BACKUP + PULLS, REPLACEMENT, s);
    AfterOn(Preparation(hadOverride) + BACKUP, PULLS, s);
    AfterOn(Preparation(hadOverride), BACKUP, s);
  }

  const SERVICES := SERVICE + SERVICE + SERVICE

  lemma ServicesAre(s: Stop)
    ensures After(SERVICES, s) == After(SERVICE, After(SERVICE, After(SERVICE, s)))
  {
    AfterOn(SERVICE + SERVICE, SERVICE, s);
    AfterOn(SERVICE, SERVICE, s);
  }

  /** The main block after that: three services, then the record of the release. */
  function Recorded(s: Stop): (stop: Stop)
    ensures !s.exit.Returned? ==> stop == s
  {
    After(SERVICES + [OfFile], s)
  }

  lemma RecordedIs(s: Stop)
    ensures Recorded(s) == OnFile(After(SERVICES, s))
  {
    AfterOn(SERVICES, [OfFile], s);
    assert [OfFile] == [OfFile] + [];
    AfterCall(OfFile, [], After(SERVICES, s));
  }

  /** The rest of the main block, with the removal of the saved override. */
  function Removed(s: Stop): Stop { OnFile(Recorded(s)) }

  /** How the first file operation of a rollback leaves it: a copy that fails is
      swallowed, a removal that fails is not. */
  function Restored(attempt: Attempt, files: seq<Fate>): Exit {
    if !attempt.overridePrepared || Head(files).Done? then Returned
    else if Head(files).Killed? then Died
    else if attempt.hadOverride then Returned else Threw
  }

  /** Whether a rollback has a state to record, and which. */
  predicate Saves(attempt: Attempt) { attempt.previousState.Some? && attempt.operation.Some? }

  function RolledBackState(attempt: Attempt): State
    requires Saves(attempt)
  {
    attempt.previousState.value.(
      operation := Some(attempt.operation.value.(status := RolledBack, stage := Reverted)))
  }

  /** All calls of the main block succeed, and the three removals after it. */
  predicate Completes(s: Stop, hadOverride: bool) {
    var end := Removed(Overridden(s, hadOverride));
    && end.exit.Returned? && Head(end.files).Done?
    && Head(Tail(end.files)).Done? && Head(Tail(Tail(end.files))).Done?
  }

  /** The main block puts the new override in place, and no rollback takes it away: none
      is due, or its first file operation, the copy back or the removal, fails. */
  predicate KeepsNew(s: Stop, hadOverride: bool) {
    && s.exit.Returned? && Overridden(s, hadOverride).exit.Returned?
    && var end := Removed(Overridden(s, hadOverride));
       !(end.exit.Threw? && Head(end.files).Done?)
  }

  /** The rollback is recorded, although it left the new override. */
  predicate RecordsOnly(s: Stop, hadOverride: bool) {
    && s.exit.Returned? && Overridden(s, hadOverride).exit.Returned? && hadOverride
    && var end := Removed(Overridden(s, hadOverride));
       end.exit.Threw? && Fails(Head(end.files)) && Head(Tail(end.files)).Done?
  }

  /** The new release is recorded, and the rollback takes back its override only. */
  predicate RestoresOnly(s: Stop, hadOverride: bool) {
    && s.exit.Returned? && Overridden(s, hadOverride).exit.Returned?
    && Recorded(Overridden(s, hadOverride)).exit.Returned?
    && var end := Removed(Overridden(s, hadOverride));
       end.exit.Threw? && Head(end.files).Done? && !Head(Tail(end.files)).Done?
  }

  /** The rollback of an update that was not recorded leaves the new override and
      records nothing: only the saved override can help. */
  predicate NeedsCopy(s: Stop, hadOverride: bool) {
    && s.exit.Returned? && Overridden(s, hadOverride).exit.Returned? && hadOverride
    && var thrown := Recorded(Overridden(s, hadOverride));
       thrown.exit.Threw? && Fails(Head(thrown.files)) && !Head(Tail(thrown.files)).Done?
  }

  /** And then it is removed, after the plan. */
  predicate LosesCopy(s: Stop, hadOverride: bool) {
    && NeedsCopy(s, hadOverride)
    && var thrown := Recorded(Overridden(s, hadOverride));
       var rest := Tail(Tail(thrown.files));
       && Fails(Head(Tail(thrown.files))) && !Head(thrown.commands).Killed?
       && Head(rest).Done? && Head(Tail(rest)).Done?
  }

  class Host {
    // Files of the operator-owned state and runtime directories.
    var state: State
    var descriptor: Option<Release>
    var previous: map<OperationId, Release>
    var plans: map<OperationId, Release>
    var locked: bool
    // The containers, by the override they were started with (None: none).
    var api: Option<Release>
    var web: Option<Release>
    var supervisor: Option<Release>
    // What the current run has made sure of.
    var pulled: set<string>
    var backupVerified: bool
    var ready: set<Stage>
    // Faults still to come.
    var files: seq<Fate>
    var commands: seq<Fate>

    constructor (state: State, descriptor: Option<Release>)
      ensures this.state == state && this.descriptor == descriptor
      ensures previous == map[] && plans == map[] && !locked && pulled == {} && !backupVerified && ready == {}
      ensures api == web == supervisor == descriptor && files == commands == []
    {
      this.state, this.descriptor := state, descriptor;
      previous, plans, locked := map[], map[], false;
      api, web, supervisor := descriptor, descriptor, descriptor;
      pulled, backupVerified, ready := {}, false, {};
      files, commands := [], [];
    }

    function Installation(): Installed
      reads this
    {
      Installed(descriptor, state.currentVersion, state.currentImages)
    }

    /** Between updates: signed releases are recorded exactly when an override
        file exists, and a waiting operation has not touched anything yet. */
    predicate AtRest()
      reads this
    {
      && (state.currentImages.Some? <==> descriptor.Some?)
      && (state.operation.Some? && InFlight(state.operation.value) ==>
            state.operation.value.stage.Waiting? && state.operation.value.id !in previous)
    }

    /** The recorded operation is over and the installation is whole: everything
        is as before the update, or everything is the new release. */
    predicate Settled(before: Installed, goal: Option<Release>)
      reads this
    {
      && (state.operation.Some? ==> !InFlight(state.operation.value))
      && (|| Installation() == before
          || (&& state.operation.Some? && state.operation.value.status.Succeeded?
              && goal.Some? && Installation() == InstalledRelease(goal.value)))
    }

    /** The recorded operation is not over, and recovery can still restore the
        installation: nothing is switched yet, or the saved override is there. */
    predicate Restorable(before: Installed, goal: Option<Release>)
      reads this
    {
      && state.operation.Some? && InFlight(state.operation.value)
      && state.currentVersion == before.version && state.currentImages == before.images
      && var id := state.operation.value.id;
      && (id in previous ==> before.descriptor == Some(previous[id]))
      && (descriptor != before.descriptor ==>
            && goal == descriptor && Changed(state.operation.value.stage)
            && (before.descriptor.Some? ==> id in previous))
    }

    /** The update may be interrupted here and recovered later. */
    predicate Recoverable(before: Installed, goal: Option<Release>)
      reads this
    {
      && (before.images.Some? <==> before.descriptor.Some?)
      && (Settled(before, goal) || Restorable(before, goal))
    }

    /** The new override appears only after the backup of the database was
        verified and every image of the release was pulled. */
    predicate Prudent(before: Installed)
      reads this
    {
      descriptor != before.descriptor && descriptor.Some? ==>
        backupVerified && AllPulled(pulled, descriptor.value.images)
    }

    // ----- calls that leave the process -----

    /** The faults still to come, all calls so far having succeeded. */
    function Now(): Stop
      reads this
    {
      Stop(Returned, files, commands)
    }

    method FileFate() returns (fate: Fate)
      modifies this`files
      ensures fate == Head(old(files)) && files == Tail(old(files))
      ensures old(NeverFails(files)) ==> NeverFails(files) && (fate.Done? || fate.Killed?)
    {
      fate := Head(files);
      files := Tail(files);
    }

    method Command() returns (fate: Fate)
      modifies this`commands
      ensures fate == Head(old(commands)) && commands == Tail(old(commands))
    {
      fate := Head(commands);
      commands := Tail(commands);
    }

    /** Writes the whole state file through a temporary file and a rename. */
    method SaveState(next: State) returns (fate: Fate)
      modifies this`state, this`files
      ensures fate == Head(old(files)) && files == Tail(old(files))
      ensures old(NeverFails(files)) ==> NeverFails(files) && (fate.Done? || fate.Killed?)
      ensures state == if fate.Done? then next else old(state)
    {
      fate := FileFate();
      if fate.Done? {
        state := next;
      }
    }

    /** Loads the state file, replaces its operation and saves it again. */
    method UpdateOperation(operation: Operation) returns (fate: Fate)
      modifies this`state, this`files
      ensures files == Tail(old(files)) && fate == Head(old(files))
      ensures old(NeverFails(files)) ==> NeverFails(files) && (fate.Done? || fate.Killed?)
      ensures state == if fate.Done? then old(state).(operation := Some(operation)) else old(state)
    {
      fate := SaveState(state.(operation := Some(operation)));
    }

    /** `docker compose up` of some services, with or without the override file. */
    method Up(onApi: bool, onWeb: bool, onSupervisor: bool, withOverride: bool) returns (fate: Fate)
      modifies this`commands, this`api, this`web, this`supervisor
      ensures fate == Head(old(commands)) && commands == Tail(old(commands))
      ensures fate.Done? || fate.Late? ==>
                var started := if withOverride then descriptor else None;
                && api == (if onApi then started else old(api))
                && web == (if onWeb then started else old(web))
                && supervisor == (if onSupervisor then started else old(supervisor))
      ensures !fate.Done? && !fate.Late? ==>
                api == old(api) && web == old(web) && supervisor == old(supervisor)
    {
      fate := Command();
      if fate.Done? || fate.Late? {
        var started := if withOverride then descriptor else None;
        if onApi { api := started; }
        if onWeb { web := started; }
        if onSupervisor { supervisor := started; }
      }
    }

    /** Removes the plan, the saved override, if the caller has named it, and the lock,
        in this order; the first removal that fails is the last. */
    method CleanUp(id: OperationId, named: bool) returns (exit: Exit)
      modifies this`plans, this`previous, this`locked, this`files
      ensures old(NeverFails(files)) ==> NeverFails(files) && !exit.Threw?
      ensures var plan, copy := Head(old(files)), Head(Tail(old(files)));
              var lock := if named then Head(Tail(Tail(old(files)))) else copy;
              && exit == (if !plan.Done? then ExitOf(plan)
                          else if named && !copy.Done? then ExitOf(copy) else ExitOf(lock))
              && plans == (if plan.Done? then old(plans) - {id} else old(plans))
              && previous == (if named && plan.Done? && copy.Done? then old(previous) - {id} else old(previous))
      ensures locked == (old(locked) && !exit.Returned?)
      ensures old(files) == [] ==> files == []
    {
      var fate := FileFate();
      if !fate.Done? { return ExitOf(fate); }
      plans := plans - {id};
      if named {
        fate := FileFate();
        if !fate.Done? { return ExitOf(fate); }
        previous := previous - {id};
      }
      fate := FileFate();
      if fate.Done? { locked := false; }
      exit := ExitOf(fate);
    }

    // ----- the update helper -----

    /** The plan the helper was started for. */
    function Goal(path: OperationId): Option<Release>
      reads this
    {
      if path in plans then Some(plans[path]) else None
    }

    /** The helper saved `stage` and has put the old override aside. */
    predicate Underway(began: State, before: Installed, path: OperationId, stage: Stage)
      reads this
    {
      && state == began.(operation := Some(Operation(path, Running, stage)))
      && began.currentVersion == before.version && began.currentImages == before.images
      && (before.images.Some? <==> before.descriptor.Some?)
      && (path in previous <==> before.descriptor.Some?)
      && (path in previous ==> previous[path] == before.descriptor.value)
    }

    /** `attempt` is what the helper remembers after it put the override aside
        and saved `stage`. */
    predicate Prepared(attempt: Attempt, began: State, before: Installed, path: OperationId, stage: Stage)
      reads this
    {
      && attempt == Attempt(Some(Operation(path, Running, stage)), Some(began), true,
                            before.descriptor.Some?, true)
      && Underway(began, before, path, stage)
    }

    /** What holds when the main block throws, whatever it was doing. */
    predicate Failing(began: State, before: Installed, path: OperationId, attempt: Attempt)
      reads this
    {
      && Recoverable(before, Goal(path))
      && state.currentVersion == began.currentVersion == before.version
      && state.currentImages == began.currentImages == before.images
      && (state.operation.Some? && InFlight(state.operation.value) && state.operation != began.operation ==>
            state.operation.value.id == path)
      && (attempt.previousState.Some? ==> attempt.previousState.value == began)
      && (attempt.hadOverride ==> before.descriptor.Some?)
      && (attempt.overridePrepared ==>
            && attempt.rooted && attempt.previousState.Some?
            && attempt.operation.Some? && attempt.operation.value.id == path
            && attempt.hadOverride == before.descriptor.Some?
            && (attempt.hadOverride ==> path in previous)
            && state.operation.Some? && state.operation.value.id == path
            && InFlight(state.operation.value))
      && (!attempt.overridePrepared ==> descriptor == before.descriptor)
    }

    /** What holds when the main block throws after it has recorded the new release. */
    predicate Overshot(began: State, before: Installed, path: OperationId, attempt: Attempt)
      reads this
    {
      && Goal(path).Some? && Installation() == InstalledRelease(Goal(path).value)
      && state.operation == Some(Operation(path, Succeeded, Completed))
      && began.currentVersion == before.version && began.currentImages == before.images
      && (before.images.Some? <==> before.descriptor.Some?)
      && (path in previous <==> before.descriptor.Some?)
      && (path in previous ==> previous[path] == before.descriptor.value)
      && attempt == Attempt(Some(Operation(path, Running, Supervisor)), Some(began), true,
                            before.descriptor.Some?, true)
    }

    /** The plan is there, and it is for the recorded operation. */
    predicate Planned(path: OperationId)
      reads this
    {
      path in plans && state.operation.Some? && state.operation.value.id == path
    }

    /** Reads the plan and the state, saves the first stage and verifies the release. */
    method Verify(path: OperationId) returns (exit: Exit, attempt: Attempt)
      requires AtRest() && path !in previous
      modifies this`state, this`files, this`commands
      ensures old(NeverFails(files)) ==> NeverFails(files)
      ensures exit.Died? ==> Recoverable(old(Installation()), Goal(path))
      ensures exit.Threw? ==> Failing(old(state), old(Installation()), path, attempt)
      ensures exit.Returned? ==>
                && path in plans && state == old(state).(operation := Some(Operation(path, Running, Verifying)))
                && attempt == Attempt(Some(Operation(path, Running, Verifying)), Some(old(state)), true,
                                      descriptor.Some?, false)
      ensures !attempt.overridePrepared
      ensures if old(Planned(path))
              then Stop(exit, files, commands) == OnCommand(OnFile(OnFile(old(Now()))))
              else !exit.Returned?
    {
      attempt := Attempt(None, None, false, false, false);
      var fate := FileFate();                          // read and check the plan
      if fate.Killed? { return Died, attempt; }
      if !fate.Done? || path !in plans { return Threw, attempt; }
      attempt := attempt.(operation := state.operation, previousState := Some(state));
      if state.operation.None? || state.operation.value.id != path { return Threw, attempt; }
      attempt := attempt.(hadOverride := descriptor.Some?, rooted := true,
                          operation := Some(Operation(path, Running, Verifying)));
      fate := UpdateOperation(attempt.operation.value);
      if fate.Killed? { return Died, attempt; }
      if !fate.Done? { return Threw, attempt; }
      fate := Command();                               // verify signature, manifest and rendering
      exit := ExitOf(fate);
    }

    /** Verifies the release and saves the override. */
    method Prepare(path: OperationId) returns (exit: Exit, attempt: Attempt)
      requires AtRest() && path !in previous
      modifies this`state, this`previous, this`files, this`commands
      ensures old(NeverFails(files)) ==> NeverFails(files)
      ensures exit.Died? ==> Recoverable(old(Installation()), Goal(path))
      ensures exit.Threw? ==> Failing(old(state), old(Installation()), path, attempt)
      ensures exit.Returned? ==>
                && path in plans && Prepared(attempt, old(state), old(Installation()), path, Verifying)
      ensures exit.Threw? ==> !attempt.overridePrepared && previous == old(previous)
      ensures if old(Planned(path))
              then Stop(exit, files, commands) == After(Preparation(old(descriptor).Some?), old(Now()))
              else !exit.Returned?
    {
      PreparationIs(Now(), descriptor.Some?);
      exit, attempt := Verify(path);
      if !exit.Returned? { return; }
      if attempt.hadOverride {
        var fate := FileFate();                        // copy the override aside
        if fate.Killed? { return Died, attempt; }
        if !fate.Done? { return Threw, attempt; }
        previous := previous[path := descriptor.value];
      }
      attempt := attempt.(overridePrepared := true);
    }

    static predicate SameUpToStage(a: Attempt, b: Attempt) {
      a.hadOverride == b.hadOverride && a.overridePrepared == b.overridePrepared && a.rooted == b.rooted
    }

    /** Saves the next stage of the running operation. */
    method Advance(attempt: Attempt, stage: Stage, ghost began: State, ghost before: Installed, path: OperationId)
      returns (exit: Exit, next: Attempt)
      requires attempt.operation.Some? && Prepared(attempt, began, before, path, attempt.operation.value.stage)
      requires Recoverable(before, Goal(path))
      requires descriptor != before.descriptor ==> Changed(stage)
      modifies this`state, this`files
      ensures old(NeverFails(files)) ==> NeverFails(files)
      ensures next == attempt.(operation := Some(Operation(path, Running, stage)))
      ensures Recoverable(before, Goal(path))
      ensures exit.Threw? ==> Failing(began, before, path, next)
      ensures exit.Returned? ==> Prepared(next, began, before, path, stage)
      ensures Stop(exit, files, commands) == OnFile(old(Now()))
    {
      next := attempt.(operation := Some(attempt.operation.value.(stage := stage)));
      var fate := UpdateOperation(next.operation.value);
      exit := if fate.Killed? then Died else if fate.Done? then Returned else Threw;
    }

    /** Dumps the database and proves the dump readable. */
    method BackUp() returns (exit: Exit)
      modifies this`backupVerified, this`commands
      ensures exit.Returned? ==> backupVerified
      ensures Stop(exit, files, commands) == OnCommand(OnCommand(old(Now())))
    {
      var fate := Command();                           // pg_dump
      if fate.Killed? { return Died; }
      if !fate.Done? { return Threw; }
      fate := Command();                               // pg_restore --list
      if fate.Killed? { return Died; }
      if !fate.Done? { return Threw; }
      backupVerified := true;
      exit := Returned;
    }

    /** Pulls the images of a release one after another. */
    method Pull(images: Images) returns (exit: Exit)
      modifies this`pulled, this`commands
      ensures exit.Returned? ==> AllPulled(pulled, images)
      ensures Stop(exit, files, commands) == OnCommands(old(Now()), 3)
    {
      var references := [images.api, images.web, images.supervisor];
      for i := 0 to |references|
        invariant forall k | 0 <= k < i :: references[k] in pulled
        invariant Now() == OnCommands(old(Now()), i)
      {
        StoppedStays(old(Now()), i, 3, Head(commands));
        var fate := Command();
        if fate.Killed? { return Died; }
        if !fate.Done? { return Threw; }
        pulled := pulled + {references[i]};
      }
      assert references[0] in pulled && references[1] in pulled && references[2] in pulled;
      exit := Returned;
    }

    /** Saves the stage and backs the database up. */
    method BackUpNext(attempt: Attempt, release: Release, ghost began: State, ghost before: Installed,
                  path: OperationId)
      returns (exit: Exit, next: Attempt)
      requires Prepared(attempt, began, before, path, Verifying) && descriptor == before.descriptor
      modifies this`state, this`backupVerified, this`files, this`commands
      ensures old(NeverFails(files)) ==> NeverFails(files)
      ensures exit.Died? ==> Recoverable(before, Goal(path))
      ensures exit.Threw? ==> Failing(began, before, path, next)
      ensures exit.Returned? ==> Prepared(next, began, before, path, Backup) && backupVerified
      ensures next.rooted && Stop(exit, files, commands) == After(BACKUP, old(Now()))
    {
      BackupIs(Now());
      exit, next := Advance(attempt, Backup, began, before, path);
      if !exit.Returned? { return; }
      exit := BackUp();
    }

    /** Saves the stage and pulls the images. */
    method PullNext(attempt: Attempt, release: Release, ghost began: State, ghost before: Installed,
                  path: OperationId)
      returns (exit: Exit, next: Attempt)
      requires Prepared(attempt, began, before, path, Backup) && descriptor == before.descriptor
      modifies this`state, this`pulled, this`files, this`commands
      ensures old(NeverFails(files)) ==> NeverFails(files)
      ensures exit.Died? ==> Recoverable(before, Goal(path))
      ensures exit.Threw? ==> Failing(began, before, path, next)
      ensures exit.Returned? ==> Prepared(next, began, before, path, Pulling) && AllPulled(pulled, release.images)
      ensures next.rooted && Stop(exit, files, commands) == After(PULLS, old(Now()))
    {
      PullsAre(Now());
      exit, next := Advance(attempt, Pulling, began, before, path);
      if !exit.Returned? { return; }
      exit := Pull(release.images);
    }

    /** Backs the database up and pulls the images. */
    method BackUpAndPull(attempt: Attempt, release: Release, ghost began: State, ghost before: Installed,
                         path: OperationId)
      returns (exit: Exit, next: Attempt)
      requires Prepared(attempt, began, before, path, Verifying) && descriptor == before.descriptor
      modifies this`state, this`pulled, this`backupVerified, this`files, this`commands
      ensures old(NeverFails(files)) ==> NeverFails(files)
      ensures exit.Died? ==> Recoverable(before, Goal(path))
      ensures exit.Threw? ==> Failing(began, before, path, next)
      ensures exit.Returned? ==>
                && Prepared(next, began, before, path, Pulling) && backupVerified && AllPulled(pulled, release.images)
      ensures next.rooted && Stop(exit, files, commands) == After(PULLS, After(BACKUP, old(Now())))
    {
      exit, next := BackUpNext(attempt, release, began, before, path);
      if !exit.Returned? { return; }
      exit, next := PullNext(next, release, began, before, path);
    }

    /** Starts one service from the new override and waits until it is healthy. */
    method SwitchService(stage: Stage) returns (exit: Exit)
      requires stage.Api? || stage.Web? || stage.Supervisor?
      modifies this`commands, this`api, this`web, this`supervisor, this`ready
      ensures exit.Returned? ==>
                && ready == old(ready) + {stage} && api == (if stage.Api? then descriptor else old(api))
                && web == (if stage.Web? then descriptor else old(web))
                && supervisor == (if stage.Supervisor? then descriptor else old(supervisor))
      ensures Stop(exit, files, commands) == OnCommand(OnCommand(old(Now())))
    {
      var fate := Up(stage.Api?, stage.Web?, stage.Supervisor?, true);
      if fate.Killed? { return Died; }
      if !fate.Done? { return Threw; }
      fate := Command();                               // readiness
      if fate.Done? { ready := ready + {stage}; }
      exit := if fate.Killed? then Died else if fate.Done? then Returned else Threw;
    }

    /** Saves the stage of one service and switches that service. */
    method SwitchNext(attempt: Attempt, stage: Stage, ghost began: State, ghost before: Installed,
                      path: OperationId)
      returns (exit: Exit, next: Attempt)
      requires stage.Api? || stage.Web? || stage.Supervisor?
      requires attempt.operation.Some? && Prepared(attempt, began, before, path, attempt.operation.value.stage)
      requires Restorable(before, Goal(path)) && descriptor.Some? && Goal(path) == descriptor
      modifies this`state, this`api, this`web, this`supervisor, this`ready, this`files, this`commands
      ensures old(NeverFails(files)) ==> NeverFails(files)
      ensures exit.Died? ==> Recoverable(before, Goal(path))
      ensures exit.Threw? ==> Failing(began, before, path, next)
      ensures exit.Returned? ==>
                && ready == old(ready) + {stage}
                && Prepared(next, began, before, path, stage) && Restorable(before, Goal(path))
                && api == (if stage.Api? then descriptor else old(api))
                && web == (if stage.Web? then descriptor else old(web))
                && supervisor == (if stage.Supervisor? then descriptor else old(supervisor))
      ensures exit.Threw? ==> SameUpToStage(next, attempt)
      ensures Stop(exit, files, commands) == After(SERVICE, old(Now()))
    {
      ServiceIs(Now());
      exit, next := Advance(attempt, stage, began, before, path);
      if !exit.Returned? { return; }
      exit := SwitchService(stage);
    }

    /** Saves the stage and replaces the override. */
    method ReplaceOverride(attempt: Attempt, release: Release, ghost began: State, ghost before: Installed,
                           path: OperationId)
      returns (exit: Exit, next: Attempt)
      requires Prepared(attempt, began, before, path, Pulling) && descriptor == before.descriptor
      requires Goal(path) == Some(release)
      modifies this`state, this`descriptor, this`files
      ensures old(NeverFails(files)) ==> NeverFails(files)
      ensures exit.Died? ==> Recoverable(before, Goal(path))
      ensures exit.Threw? ==> Failing(began, before, path, next) && SameUpToStage(next, attempt)
      ensures exit.Returned? ==>
                && Prepared(next, began, before, path, Switching) && Restorable(before, Goal(path))
                && SameUpToStage(next, attempt)
      ensures next.rooted
      ensures descriptor == if exit.Returned? then Some(release) else before.descriptor
      ensures Stop(exit, files, commands) == After(REPLACEMENT, old(Now()))
    {
      ReplacementIs(Now());
      exit, next := Advance(attempt, Switching, began, before, path);
      if !exit.Returned? { return; }
      var fate := FileFate();                          // atomically replace the override
      if fate.Done? { descriptor := Some(release); }
      exit := ExitOf(fate);
    }

    /** Switches the services one after another. */
    method SwitchAll(attempt: Attempt, ghost began: State, ghost before: Installed, path: OperationId)
      returns (exit: Exit, next: Attempt)
      requires Prepared(attempt, began, before, path, Switching) && Restorable(before, Goal(path))
      requires descriptor.Some? && Goal(path) == descriptor
      modifies this`state, this`api, this`web, this`supervisor, this`ready, this`files, this`commands
      ensures old(NeverFails(files)) ==> NeverFails(files)
      ensures exit.Died? ==> Recoverable(before, Goal(path))
      ensures exit.Threw? ==> Failing(began, before, path, next) && SameUpToStage(next, attempt)
      ensures exit.Returned? ==>
                && Prepared(next, began, before, path, Supervisor) && Restorable(before, Goal(path))
                && api == web == supervisor == descriptor && AllReady(ready)
      ensures Stop(exit, files, commands) == After(SERVICES, old(Now()))
    {
      ServicesAre(Now());
      exit, next := SwitchNext(attempt, Api, began, before, path);
      if !exit.Returned? { return; }
      exit, next := SwitchNext(next, Web, began, before, path);
      if !exit.Returned? { return; }
      exit, next := SwitchNext(next, Supervisor, began, before, path);
    }

    /** Records the new release and drops the saved override. */
    method Finish(attempt: Attempt, release: Release, ghost began: State, ghost before: Installed,
                  path: OperationId)
      returns (exit: Exit)
      requires Prepared(attempt, began, before, path, Supervisor) && Restorable(before, Goal(path))
      requires Goal(path) == Some(release) && descriptor == Some(release)
      modifies this`state, this`previous, this`files
      ensures old(NeverFails(files)) ==> NeverFails(files)
      ensures exit.Died? ==> Recoverable(before, Goal(path))
      ensures exit.Threw? ==> if Head(old(files)).Done? then Overshot(began, before, path, attempt)
                              else Failing(began, before, path, attempt)
      ensures exit.Returned? ==>
                && Installation() == InstalledRelease(release) && path !in previous
                && state.operation == Some(Operation(path, Succeeded, Completed))
      ensures Stop(exit, files, commands) == OnFile(OnFile(old(Now())))
    {
      var fate := SaveState(State(release.version, Some(release.images),
                                  Some(attempt.operation.value.(status := Succeeded, stage := Completed))));
      if fate.Killed? { return Died; }
      if !fate.Done? { return Threw; }
      fate := FileFate();                              // remove the saved override
      if fate.Done? { previous := previous - {path}; }
      exit := ExitOf(fate);
    }

    /** The main block before anything is switched. */
    method MakeReady(path: OperationId) returns (exit: Exit, attempt: Attempt)
      requires AtRest() && path !in previous
      modifies this`state, this`previous, this`pulled, this`backupVerified, this`files, this`commands
      ensures old(NeverFails(files)) ==> NeverFails(files)
      ensures exit.Died? ==> Recoverable(old(Installation()), Goal(path))
      ensures exit.Threw? ==> Failing(old(state), old(Installation()), path, attempt)
      ensures exit.Returned? ==>
                && path in plans && Prepared(attempt, old(state), old(Installation()), path, Pulling) && backupVerified
                && AllPulled(pulled, plans[path].images)
      ensures if old(Planned(path))
              then Stop(exit, files, commands) == After(PULLS, After(BACKUP, After(Preparation(old(descriptor).Some?), old(Now()))))
              else !exit.Returned?
      ensures !exit.Died? && !attempt.rooted ==> path !in previous
    {
      ghost var began, before := state, Installation();
      exit, attempt := Prepare(path);
      if !exit.Returned? { return; }
      exit, attempt := BackUpAndPull(attempt, plans[path], began, before, path);
    }

    /** Switches all services, then records the release. */
    method SwitchAndFinish(attempt: Attempt, release: Release, ghost began: State, ghost before: Installed,
                           path: OperationId)
      returns (exit: Exit, next: Attempt)
      requires Prepared(attempt, began, before, path, Switching) && Restorable(before, Goal(path))
      requires descriptor == Goal(path) == Some(release)
      modifies this`state, this`previous, this`api, this`web, this`supervisor, this`ready, this`files, this`commands
      ensures old(NeverFails(files)) ==> NeverFails(files)
      ensures exit.Died? ==> Recoverable(before, Goal(path))
      ensures exit.Threw? ==> if Recorded(old(Now())).exit.Returned? then Overshot(began, before, path, next)
                              else Failing(began, before, path, next)
      ensures !exit.Died? ==> SameUpToStage(next, attempt)
      ensures exit.Returned? ==>
                && Installation() == InstalledRelease(release) && path !in previous
                && state.operation == Some(Operation(path, Succeeded, Completed))
                && api == web == supervisor == descriptor && AllReady(ready)
      ensures Stop(exit, files, commands) == Removed(old(Now()))
    {
      RecordedIs(Now());
      exit, next := SwitchAll(attempt, began, before, path);
      if !exit.Returned? { return; }
      exit := Finish(next, release, began, before, path);
    }

    /** The main block from the new override on. */
    method SwitchOver(attempt: Attempt, release: Release, ghost began: State, ghost before: Installed,
                      path: OperationId)
      returns (exit: Exit, next: Attempt)
      requires Prepared(attempt, began, before, path, Pulling) && descriptor == before.descriptor
      requires Goal(path) == Some(release)
      modifies this`state, this`descriptor, this`previous, this`api, this`web, this`supervisor, this`ready,
               this`files, this`commands
      ensures old(NeverFails(files)) ==> NeverFails(files)
      ensures descriptor == before.descriptor || descriptor == Some(release)
      ensures pulled == old(pulled) && backupVerified == old(backupVerified)
      ensures exit.Died? ==> Recoverable(before, Goal(path))
      ensures !exit.Died? ==> next.rooted
      ensures exit.Threw? ==>
                var overridden := After(REPLACEMENT, old(Now()));
                if overridden.exit.Returned? && Recorded(overridden).exit.Returned?
                then Overshot(began, before, path, next) else Failing(began, before, path, next)
      ensures exit.Returned? ==>
                && Installation() == InstalledRelease(release) && path !in previous
                && state.operation == Some(Operation(path, Succeeded, Completed))
                && api == web == supervisor == descriptor && AllReady(ready)
      ensures !exit.Died? ==> SameUpToStage(next, attempt)
      ensures var overridden := After(REPLACEMENT, old(Now()));
              if overridden.exit.Returned?
              then descriptor == Some(release) && Stop(exit, files, commands) == Removed(overridden)
              else !exit.Returned? && descriptor == before.descriptor
    {
      exit, next := ReplaceOverride(attempt, release, began, before, path);
      if !exit.Returned? { return; }
      exit, next := SwitchAndFinish(next, release, began, before, path);
    }

    /** The helper's main block: it returns, throws into the rollback, or dies. It
        throws with the new override in place exactly if all calls up to that override
        succeed and a later one fails: up to the record, or the last, which removes the
        saved override when the new release is recorded already. */
    method Install(path: OperationId) returns (exit: Exit, attempt: Attempt)
      requires AtRest() && path !in previous
      modifies this`state, this`descriptor, this`previous, this`api, this`web, this`supervisor,
               this`pulled, this`backupVerified, this`ready, this`files, this`commands
      ensures old(NeverFails(files)) ==> NeverFails(files)
      ensures exit.Died? ==> Recoverable(old(Installation()), Goal(path))
      ensures !exit.Died? && !attempt.rooted ==> path !in previous
      ensures exit.Threw? ==>
                var overridden := Overridden(old(Now()), old(descriptor).Some?);
                if old(Planned(path)) && overridden.exit.Returned? && Recorded(overridden).exit.Returned?
                then Overshot(old(state), old(Installation()), path, attempt)
                else Failing(old(state), old(Installation()), path, attempt)
      ensures exit.Returned? ==>
                && path in plans && Installation() == InstalledRelease(plans[path])
                && state.operation == Some(Operation(path, Succeeded, Completed))
                && api == web == supervisor == descriptor && path !in previous
                && AllReady(ready)
      ensures old(Planned(path) && Overridden(Now(), descriptor.Some?).exit.Returned?) ==>
                backupVerified && AllPulled(pulled, plans[path].images)
      ensures var overridden := Overridden(old(Now()), old(descriptor).Some?);
              if old(Planned(path)) && overridden.exit.Returned?
              then && descriptor == Some(plans[path])
                   && Stop(exit, files, commands) == Removed(overridden)
                   && (!exit.Died? ==>
                         attempt.rooted && attempt.overridePrepared && attempt.hadOverride == old(descriptor).Some?)
              else !exit.Returned? && descriptor == old(descriptor)
    {
      ghost var began, before := state, Installation();
      ghost var overridden, planned := Overridden(Now(), descriptor.Some?), Planned(path);
      OverriddenIs(Now(), descriptor.Some?);
      exit, attempt := MakeReady(path);
      if !exit.Returned? {
        assert planned ==> !overridden.exit.Returned?;
        return;
      }
      exit, attempt := SwitchOver(attempt, plans[path], began, before, path);
    }

    /** The plan is for another release than the installed one, and the faults are such
        that the rollback leaves the override of one and the record of the other. */
    predicate Mixes(path: OperationId, s: Stop)
      reads this
    {
      && Planned(path) && descriptor != Some(plans[path])
      && (|| RecordsOnly(s, descriptor.Some?)
          || (RestoresOnly(s, descriptor.Some?)
              && Installed(descriptor, plans[path].version, Some(plans[path].images)) != Installation()))
    }

    /** Or such that it needs the saved override, and loses it. */
    predicate Abandons(path: OperationId, s: Stop)
      reads this
    {
      Mixes(path, s) || (Planned(path) && descriptor != Some(plans[path]) && LosesCopy(s, descriptor.Some?))
    }

    /** Copies the saved override back, or removes the new one. */
    method TakeBack(path: OperationId, attempt: Attempt) returns (exit: Exit)
      requires attempt.overridePrepared && attempt.hadOverride ==> path in previous
      modifies this`descriptor, this`files
      ensures old(NeverFails(files)) ==> NeverFails(files) && !exit.Threw?
      ensures exit == Restored(attempt, old(files))
      ensures files == if attempt.overridePrepared then Tail(old(files)) else old(files)
      ensures descriptor == if !attempt.overridePrepared || !Head(old(files)).Done? then old(descriptor)
                            else if attempt.hadOverride then Some(previous[path]) else None
    {
      exit := Returned;
      if attempt.overridePrepared {
        var fate := FileFate();
        if fate.Killed? { return Died; }
        if attempt.hadOverride {
          if fate.Done? { descriptor := Some(previous[path]); }
        } else {
          if !fate.Done? { return Threw; }
          descriptor := None;
        }
      }
    }

    /** Records the rollback and restarts the services with what it says was there;
        failures are swallowed. */
    method RecordAndRestart(attempt: Attempt) returns (exit: Exit)
      modifies this`state, this`api, this`web, this`supervisor, this`files, this`commands
      ensures old(NeverFails(files)) ==> NeverFails(files)
      ensures state == if Saves(attempt) && Head(old(files)).Done? then RolledBackState(attempt) else old(state)
      ensures files == if Saves(attempt) then Tail(old(files)) else old(files)
      ensures var lost := Saves(attempt) && Head(old(files)).Killed?;
              var restart := Head(old(commands));
              && exit == (if lost || (attempt.rooted && restart.Killed?) then Died else Returned)
              && (!lost && attempt.rooted && (restart.Done? || restart.Late?) ==>
                    api == web == supervisor == if attempt.hadOverride then descriptor else None)
    {
      if Saves(attempt) {
        var fate := SaveState(RolledBackState(attempt));
        if fate.Killed? { return Died; }
      }
      exit := Returned;
      if attempt.rooted {
        var fate := Up(true, true, true, attempt.hadOverride);
        if fate.Killed? { exit := Died; }
      }
    }

    /** The catch block: restores the override, records the rollback and restarts the
        services. Failing copies, records and restarts are swallowed; the removal of the
        override of an installation that had none is not, and ends the block. */
    method RollBack(path: OperationId, attempt: Attempt, ghost began: State, ghost before: Installed)
      returns (exit: Exit)
      requires Failing(began, before, path, attempt) || Overshot(began, before, path, attempt)
      modifies this`state, this`descriptor, this`api, this`web, this`supervisor, this`files, this`commands
      ensures old(NeverFails(files)) ==> NeverFails(files)
      ensures pulled == old(pulled) && backupVerified == old(backupVerified)
      ensures !Recoverable(before, Goal(path)) ==> state.operation.Some? && !InFlight(state.operation.value)
      // Which fates decide: of the restored override, of the record, and of the restart.
      ensures descriptor == if attempt.overridePrepared && Head(old(files)).Done? then before.descriptor
                            else old(descriptor)
      ensures var restore, save := Head(old(files)), Head(Tail(old(files)));
              Recoverable(before, Goal(path)) <==>
                !(old(descriptor) != before.descriptor
                  && ((attempt.hadOverride && attempt.overridePrepared && Fails(restore) && save.Done?)
                      || (old(Overshot(began, before, path, attempt)) && restore.Done? && !save.Done?
                          && (old(state.currentVersion) != before.version || old(state.currentImages) != before.images))))
      ensures var restored := Restored(attempt, old(files));
              var rest := if attempt.overridePrepared then Tail(old(files)) else old(files);
              var lost := Saves(attempt) && Head(rest).Killed?;
              var restart := Head(old(commands));
              if restored.Returned? then
                && state == (if Saves(attempt) && Head(rest).Done? then RolledBackState(attempt) else old(state))
                && files == (if Saves(attempt) then Tail(rest) else rest)
                && exit == (if lost || (attempt.rooted && restart.Killed?) then Died else Threw)
                && (!lost && attempt.rooted && (restart.Done? || restart.Late?) ==>
                      api == web == supervisor == if attempt.hadOverride then descriptor else None)
              else
                exit == restored && state == old(state)
                && api == old(api) && web == old(web) && supervisor == old(supervisor)
    {
      exit := TakeBack(path, attempt);
      if !exit.Returned? { return; }
      exit := RecordAndRestart(attempt);
      if exit.Returned? { exit := Threw; }
    }

    /** The main block and, when it throws, the catch block; `named` says that the saved
        override has a name by then. */
    method InstallOrRollBack(path: OperationId) returns (exit: Exit, named: bool)
      requires AtRest() && path !in previous
      modifies this`state, this`descriptor, this`previous, this`api, this`web, this`supervisor,
               this`pulled, this`backupVerified, this`ready, this`files, this`commands
      ensures old(NeverFails(files)) ==> NeverFails(files)
      ensures old(Planned(path) && Overridden(Now(), descriptor.Some?).exit.Returned?) ==>
                backupVerified && AllPulled(pulled, plans[path].images)
      ensures descriptor == if old(Planned(path) && KeepsNew(Now(), descriptor.Some?)) then Some(plans[path])
                            else old(descriptor)
      ensures Recoverable(old(Installation()), Goal(path)) <==>
                !old(Mixes(path, Now()))
      ensures !Recoverable(old(Installation()), Goal(path)) ==>
                state.operation.Some? && !InFlight(state.operation.value)
      ensures old(NeverFails(files)) ==>
                Recoverable(old(Installation()), Goal(path)) && (exit.Threw? ==> descriptor == old(descriptor))
      ensures !exit.Died? && !named ==> path !in previous
      ensures exit.Returned? ==>
                && Goal(path).Some? && path !in previous
                && Installation() == InstalledRelease(Goal(path).value)
                && state.operation == Some(Operation(path, Succeeded, Completed))
                && api == web == supervisor == descriptor && AllReady(ready)
      ensures !exit.Died? && state.operation.Some? && InFlight(state.operation.value)
              && descriptor != old(descriptor) && old(descriptor).Some? ==>
                old(Planned(path) && NeedsCopy(Now(), true))
      ensures old(Planned(path)) && old(descriptor).Some? && old(NeedsCopy(Now(), true)) ==>
                var thrown := Recorded(Overridden(old(Now()), true));
                && state.operation.Some? && InFlight(state.operation.value) && state.operation.value.id == path
                && (exit.Died? <==> Head(Tail(thrown.files)).Killed? || Head(thrown.commands).Killed?)
                && (!exit.Died? ==> named) && files == Tail(Tail(thrown.files))
      ensures var end := Removed(Overridden(old(Now()), old(descriptor).Some?));
              && (exit.Returned? <==> old(Planned(path)) && end.exit.Returned?)
              && (exit.Returned? ==> named && files == end.files)
    {
      ghost var began, before := state, Installation();
      var attempt;
      NoneFails(Now(), descriptor.Some?);
      exit, attempt := Install(path);
      named := attempt.rooted;
      if exit.Threw? {
        exit := RollBack(path, attempt, began, before);
      }
    }

    /** Only the saved override can undo the recorded operation. */
    predicate Depends(before: Installed)
      reads this
    {
      && state.operation.Some? && InFlight(state.operation.value)
      && descriptor != before.descriptor && before.descriptor.Some?
    }

    /** The last block of the helper: what it removes harms exactly an update that still
        depends on the saved override. */
    method CleanUpAfter(path: OperationId, named: bool, ghost before: Installed, ghost goal: Option<Release>)
      returns (exit: Exit)
      requires !Recoverable(before, goal) ==> state.operation.Some? && !InFlight(state.operation.value)
      requires Recoverable(before, goal) && Depends(before) ==> state.operation.value.id == path
      modifies this`plans, this`previous, this`locked, this`files
      ensures pulled == old(pulled) && backupVerified == old(backupVerified) && Installation() == old(Installation())
      ensures old(NeverFails(files)) ==> NeverFails(files) && !exit.Threw?
      ensures var plan, copy := Head(old(files)), Head(Tail(old(files)));
              && (Recoverable(before, goal) <==>
                    old(Recoverable(before, goal)) && !(Depends(before) && named && plan.Done? && copy.Done?))
              && (exit.Returned? <==>
                    plan.Done? && copy.Done? && (named ==> Head(Tail(Tail(old(files)))).Done?))
      ensures exit.Returned? ==> !locked && (named ==> path !in previous)
      ensures previous == old(previous) || previous == old(previous) - {path}
    {
      exit := CleanUp(path, named);
    }

    /** All that happens while the lock is held: the last call removes the lock. */
    method UnderLock(path: OperationId) returns (exit: Exit)
      requires AtRest() && path !in previous
      modifies this
      ensures old(Planned(path) && KeepsNew(Now(), descriptor.Some?)) ==>
                backupVerified && AllPulled(pulled, old(plans)[path].images)
      ensures Recoverable(old(Installation()), old(Goal(path))) <==>
                !old(Abandons(path, Now()))
      ensures descriptor == if old(Planned(path) && KeepsNew(Now(), descriptor.Some?)) then Some(old(plans)[path])
                            else old(descriptor)
      ensures old(NeverFails(files)) ==>
                && NeverFails(files) && Recoverable(old(Installation()), old(Goal(path)))
                && (exit.Threw? ==> descriptor == old(descriptor))
                && (!exit.Died? ==> path !in previous && !locked)
      ensures exit.Returned? ==>
                && old(Goal(path)).Some? && Installation() == InstalledRelease(old(plans)[path])
                && api == web == supervisor == descriptor && AllReady(ready)
                && path !in previous && !locked
      // It succeeds exactly if every call does.
      ensures exit.Returned? <==> old(Planned(path) && Completes(Now(), descriptor.Some?))
    {
      ghost var before, goal := Installation(), Goal(path);
      var named;
      exit, named := InstallOrRollBack(path);
      if exit.Died? { return; }
      var last := CleanUpAfter(path, named, before, goal);
      if !last.Returned? { exit := last; }
    }

    /** Creates the lock file, unless it is there. */
    method Lock(path: OperationId) returns (exit: Exit)
      modifies this`locked, this`pulled, this`backupVerified, this`ready, this`files
      ensures locked == (old(locked) || exit.Returned?) && (exit.Returned? <==> !old(locked) && Head(old(files)).Done?)
      ensures files == Tail(old(files))
      ensures Installation() == old(Installation()) && Goal(path) == old(Goal(path))
      ensures exit.Returned? ==> pulled == {} && !backupVerified && ready == {}
    {
      var fate := FileFate();
      if fate.Killed? { return Died; }
      if !fate.Done? || locked { return Threw; }
      locked := true;
      pulled, backupVerified, ready := {}, false, {};
      exit := Returned;
    }

    /** Applies a plan under the update lock. Whatever fails and wherever the helper is
        killed, the update can still be completed or undone, exactly unless the faults
        are such that its rollback leaves the override of one release and the record of
        another, or loses the saved override that recovery needs. */
    method ApplyPlan(path: OperationId) returns (exit: Exit)
      requires AtRest() && path !in previous
      modifies this
      ensures Prudent(old(Installation()))
      ensures Recoverable(old(Installation()), old(Goal(path))) <==>
                !old(!locked && Abandons(path, OnFile(Now())))
      ensures descriptor == if old(!locked && Planned(path) && KeepsNew(OnFile(Now()), descriptor.Some?))
                            then Some(old(plans)[path]) else old(descriptor)
      ensures old(NeverFails(files)) ==>
                && NeverFails(files) && Recoverable(old(Installation()), old(Goal(path)))
                && (exit.Threw? ==> descriptor == old(descriptor))
                && (!exit.Died? && !old(locked) ==> path !in previous && !locked)
      ensures old(locked) ==> state == old(state) && descriptor == old(descriptor) && locked
      ensures exit.Returned? ==>
                && old(Goal(path)).Some? && Installation() == InstalledRelease(old(plans)[path])
                && api == web == supervisor == descriptor && AllReady(ready)
                && path !in previous && !locked
      ensures exit.Returned? <==> old(!locked && Planned(path) && Completes(OnFile(Now()), descriptor.Some?))
      ensures !old(locked) && old(Planned(path)) && old(files) == old(commands) == [] ==> exit.Returned?
    {
      NoFaults(descriptor.Some?);
      exit := Lock(path);
      if !exit.Returned? { return; }
      exit := UnderLock(path);
    }

    // ----- recovery after a killed helper -----

    /** Puts the saved override back, or removes the override of an installation
        that had none; `refused` says that the file system rejected that. */
    method RestoreOverride(id: OperationId, ghost before: Installed, ghost goal: Option<Release>)
      returns (exit: Exit, hadPrevious: bool, refused: bool)
      requires Recoverable(before, goal)
      requires state.operation.Some? && InFlight(state.operation.value) && state.operation.value.id == id
      modifies this`descriptor, this`previous, this`files
      ensures Recoverable(before, goal)
      ensures descriptor == old(descriptor) || descriptor == before.descriptor
      ensures old(NeverFails(files)) ==> NeverFails(files) && !refused
      ensures exit.Returned? ==> descriptor == before.descriptor && id !in previous
      ensures exit.Returned? ==> hadPrevious == descriptor.Some?
      ensures exit.Threw? && !refused ==> descriptor == before.descriptor
      ensures refused <==> (id in old(previous) || state.currentImages.None?) && Fails(Head(old(files)))
      ensures refused ==> exit.Threw? && descriptor == old(descriptor) && files == Tail(old(files))
      ensures old(files) == [] ==> !exit.Died? && files == []
    {
      exit, hadPrevious, refused := Returned, id in previous, false;
      if hadPrevious {
        var fate := FileFate();                        // rename the saved override
        if fate.Killed? { return Died, hadPrevious, false; }
        if !fate.Done? { return Threw, hadPrevious, true; }
        descriptor, previous := Some(previous[id]), previous - {id};
      } else if state.currentImages.Some? {
        exit := Threw;                                 // the saved override is missing
      } else {
        var fate := FileFate();                        // remove the new override
        if fate.Killed? { return Died, hadPrevious, false; }
        if !fate.Done? { return Threw, hadPrevious, true; }
        descriptor := None;
      }
    }

    /** The rename of the saved override is due, or the removal of the new one if there
        was none before, and fails. */
    predicate RestoreFails(operation: Operation)
      reads this
    {
      && Changed(operation.stage) && (operation.id in previous || state.currentImages.None?)
      && Fails(Head(files))
    }

    /** Records the end of an update that was undone, restarts the Supervisor if it was
        switched already, and cleans up. */
    method RecordUndone(operation: Operation, ghost before: Installed, ghost goal: Option<Release>)
      returns (exit: Exit)
      requires Recoverable(before, goal) && descriptor == before.descriptor
      requires state.operation == Some(operation) && InFlight(operation)
      requires Changed(operation.stage) ==> operation.id !in previous
      modifies this`state, this`previous, this`plans, this`locked, this`supervisor, this`api, this`web, this`files,
               this`commands
      ensures old(NeverFails(files)) ==> NeverFails(files)
      ensures Recoverable(before, goal) && api == old(api) && web == old(web)
      ensures state == if Head(old(files)).Done? then old(state).(operation := Some(Undone(operation))) else old(state)
      ensures exit.Returned? ==>
                && Head(old(files)).Done? && Settled(before, goal) && !locked
                && operation.id !in previous && operation.id !in plans
      ensures exit.Returned? && operation.stage.Supervisor? ==> supervisor == None
      ensures old(files) == old(commands) == [] ==> !exit.Died? && files == []
    {
      var fate := SaveState(state.(operation := Some(Undone(operation))));
      if !fate.Done? { return ExitOf(fate); }
      if operation.stage.Supervisor? {
        var hadPrevious := operation.id in previous;   // false: the file was renamed before
        fate := Up(false, false, true, hadPrevious);
        if !fate.Done? { return ExitOf(fate); }
      }
      exit := CleanUp(operation.id, true);
    }

    /** The main block of the recovery. */
    method Undo(operation: Operation, ghost before: Installed, ghost goal: Option<Release>)
      returns (exit: Exit, refused: bool)
      requires Recoverable(before, goal)
      requires state.operation == Some(operation) && InFlight(operation)
      modifies this`state, this`descriptor, this`previous, this`plans, this`locked, this`api, this`web,
               this`supervisor, this`files, this`commands
      ensures old(NeverFails(files)) ==> NeverFails(files) && !refused
      ensures descriptor == old(descriptor) || descriptor == before.descriptor
      ensures Recoverable(before, goal)
      ensures state.currentVersion == old(state.currentVersion) && state.currentImages == old(state.currentImages)
      ensures exit.Threw? && !refused ==> descriptor == before.descriptor
      ensures refused <==> old(RestoreFails(operation))
      ensures refused ==> exit.Threw? && state == old(state) && descriptor == old(descriptor)
                          && files == Tail(old(files))
      ensures exit.Returned? ==>
                && Settled(before, goal) && !locked
                && operation.id !in previous && operation.id !in plans
      ensures exit.Returned? ==>
                && descriptor == before.descriptor
                && state.operation == Some(Undone(operation))
      ensures exit.Returned? && Changed(operation.stage) ==> api == web == before.descriptor
      ensures exit.Returned? && operation.stage.Supervisor? ==> supervisor == None
      ensures old(files) == old(commands) == [] ==> !exit.Died? && files == []
    {
      exit, refused := Returned, false;
      var changed := Changed(operation.stage);
      if changed {
        var hadPrevious;
        exit, hadPrevious, refused := RestoreOverride(operation.id, before, goal);
        if !exit.Returned? { return; }
        var fate := Up(true, true, false, hadPrevious);
        if fate.Killed? { return Died, refused; }
        if !fate.Done? { return Threw, refused; }
      }
      exit := RecordUndone(operation, before, goal);
    }

    /** An interrupted update is there to be undone. */
    predicate Interrupted()
      reads this
    {
      state.operation.Some? && InFlight(state.operation.value)
    }

    /** Undoes an interrupted update, unless its helper is still running. The
        installation stays recoverable, exactly unless the rename, or removal, that
        restores the old state fails while the new override is in place and the failure
        is recorded as the end. Without faults
        recovery runs to its end, and the installation is whole. */
    method RecoverInterruptedUpdate(helperRunning: bool, ghost before: Installed, ghost goal: Option<Release>)
      returns (exit: Exit)
      requires Recoverable(before, goal)
      modifies this`state, this`descriptor, this`previous, this`plans, this`locked, this`api, this`web,
               this`supervisor, this`files, this`commands
      ensures descriptor == old(descriptor) || descriptor == before.descriptor
      ensures Recoverable(before, goal) <==>
                !old(Interrupted() && !helperRunning && Head(commands).Done?
                     && RestoreFails(state.operation.value) && descriptor != before.descriptor
                     && Head(Tail(files)).Done?)
      ensures old(NeverFails(files)) ==> NeverFails(files) && Recoverable(before, goal)
      ensures old(Settled(before, goal)) ==> Settled(before, goal) && exit.Returned? && state == old(state)
      ensures exit.Returned? && !helperRunning && Recoverable(before, goal) ==> Settled(before, goal)
      ensures old(files) == old(commands) == [] ==> exit.Returned?
    {
      if state.operation.None? || !InFlight(state.operation.value) { return Returned; }
      var operation := state.operation.value;
      var fate := Command();                           // docker ps: is the helper still there?
      if fate.Killed? { return Died; }
      if !fate.Done? { return Threw; }
      if helperRunning { return Returned; }

      var refused;
      exit, refused := Undo(operation, before, goal);
      if exit.Threw? {
        var failed := operation.(status := Failed, stage := RecoveryFailed);
        fate := SaveState(state.(operation := Some(failed)));
        exit := ExitOf(fate);
      }
    }

    // ----- whole runs -----

    /** A helper applies a plan and is killed or not; afterwards recovery runs as
        often as it likes and may itself be killed every time. As long as no file
        operation is refused the installation can always be recovered, and one more
        recovery without faults makes it whole: all old, or all new and recorded. */
    method UpdateAndRecover(path: OperationId, helper: Faults, recoveries: seq<Faults>)
      returns (exit: Exit)
      requires AtRest() && path !in previous
      requires NeverFails(helper.files) && forall r | r in recoveries :: NeverFails(r.files)
      modifies this
      ensures exit.Returned? && Settled(old(Installation()), old(Goal(path)))
      ensures Prudent(old(Installation()))
    {
      ghost var before, goal := Installation(), Goal(path);
      files, commands := helper.files, helper.commands;
      exit := ApplyPlan(path);
      for i := 0 to |recoveries|
        invariant Recoverable(before, goal) && Prudent(before)
      {
        files, commands := recoveries[i].files, recoveries[i].commands;
        exit := RecoverInterruptedUpdate(false, before, goal);
      }
      files, commands := [], [];
      exit := RecoverInterruptedUpdate(false, before, goal);
    }
  }

  /** A recovery whose rename is refused while the new override is in place records
      a failure that no later recovery will touch: the installation is left half new. */
  method RefusedRenameStrands(host: Host, before: Release, release: Release) returns (exit: Exit)
    requires before != release && host.descriptor == Some(release)
    requires host.state == State(before.version, Some(before.images), Some(Operation(1, Running, Switching)))
    requires host.previous == map[1 := before] && host.files == [Refused] && host.commands == []
    modifies host
    ensures var whole := Installed(Some(before), before.version, Some(before.images));
            old(host.Recoverable(whole, Some(release))) && !host.Recoverable(whole, Some(release))
  {
    exit := host.RecoverInterruptedUpdate(
      false, Installed(Some(before), before.version, Some(before.images)), Some(release));
  }

  /** The same for an installation that had no override, when its removal is refused. */
  method RefusedRemovalStrands(host: Host, version: string, release: Release) returns (exit: Exit)
    requires host.descriptor == Some(release)
    requires host.state == State(version, None, Some(Operation(1, Running, Switching)))
    requires host.previous == map[] && host.files == [Refused] && host.commands == []
    modifies host
    ensures var whole := Installed(None, version, None);
            old(host.Recoverable(whole, Some(release))) && !host.Recoverable(whole, Some(release))
  {
    exit := host.RecoverInterruptedUpdate(false, Installed(None, version, None), Some(release));
  }

  /** An update whose API does not start, and whose rollback can not copy the saved
      override back: it records the rollback with the new override in place. */
  method RefusedCopyAbandons(host: Host, before: Release, release: Release) returns (exit: Exit)
    requires before != release && host.descriptor == Some(before) && !host.locked
    requires host.state == State(before.version, Some(before.images), Some(Operation(1, Accepted, Waiting)))
    requires host.previous == map[] && host.plans == map[1 := release]
    requires host.files == [Done, Done, Done, Done, Done, Done, Done, Done, Done, Refused]
    requires host.commands == [Done, Done, Done, Done, Done, Done, Refused]
    modifies host
    ensures old(host.Recoverable(host.Installation(), Some(release)))
    ensures !host.Recoverable(old(host.Installation()), Some(release)) && host.descriptor == Some(release)
  {
    RefusedCopyRecords(OnFile(host.Now()));
    exit := host.ApplyPlan(1);
  }

  lemma RefusedCopyRecords(s: Stop)
    requires s.exit.Returned? && s.files == [Done, Done, Done, Done, Done, Done, Done, Done, Refused]
    requires s.commands == [Done, Done, Done, Done, Done, Done, Refused]
    ensures RecordsOnly(s, true)
  {
    OverrideIsPut(s);
    var overridden := Overridden(s, true);
    RecordedIs(overridden);
    ServicesAre(overridden);
    ServiceIs(overridden);
    assert After(SERVICE, overridden) == Stop(Threw, [Refused], []);
    assert Removed(overridden) == Stop(Threw, [Refused], []);
  }

  lemma OverrideIsPut(s: Stop)
    requires s.exit.Returned? && s.files == [Done, Done, Done, Done, Done, Done, Done, Done, Refused]
    requires s.commands == [Done, Done, Done, Done, Done, Done, Refused]
    ensures Overridden(s, true) == Stop(Returned, [Done, Refused], [Refused])
  {
    OverriddenIs(s, true);
    PreparationIs(s, true);
    var prepared := After(Preparation(true), s);
    assert prepared == Stop(Returned, s.files[3..], s.commands[1..]);
    BackupIs(prepared);
    var backedUp := After(BACKUP, prepared);
    assert backedUp == Stop(Returned, s.files[4..], s.commands[3..]);
    PullsAre(backedUp);
    assert OnCommands(OnFile(backedUp), 1) == Stop(Returned, s.files[5..], s.commands[4..]);
    assert OnCommands(OnFile(backedUp), 2) == Stop(Returned, s.files[5..], s.commands[5..]);
    assert After(PULLS, backedUp) == Stop(Returned, s.files[5..], s.commands[6..]);
    ReplacementIs(After(PULLS, backedUp));
  }

  /** When file operations do not fail, the last one of the main block does not throw. */
  lemma NoneFails(s: Stop, hadOverride: bool)
    ensures var recorded := Recorded(Overridden(s, hadOverride));
            NeverFails(s.files) && recorded.exit.Returned? ==> !Removed(Overridden(s, hadOverride)).exit.Threw?
  {
    NeverFailsOn(Preparation(hadOverride) + BACKUP + PULLS + REPLACEMENT, s);
    NeverFailsOn(SERVICES + [OfFile], Overridden(s, hadOverride));
  }

  lemma {:induction false} NeverFailsOn(calls: seq<Call>, s: Stop)
    ensures NeverFails(s.files) ==> NeverFails(After(calls, s).files)
    decreases |calls|
  {
    if calls != [] { NeverFailsOn(calls[1..], Next(calls[0], s)); }
  }

  lemma NoFaults(hadOverride: bool)
    ensures var start := Stop(Returned, [], []); Removed(Overridden(start, hadOverride)) == start
  {
    var start := Stop(Returned, [], []);
    OverriddenIs(start, hadOverride);
    PreparationIs(start, hadOverride);
    BackupIs(start);
    PullsAre(start);
    ReplacementIs(start);
    RecordedIs(start);
    ServicesAre(start);
    ServiceIs(start);
    assert OnFile(start) == OnCommand(start) == start;
    assert OnCommands(start, 1) == OnCommands(start, 2) == OnCommands(start, 3) == start;
  }

  lemma {:induction false} StoppedStays(s: Stop, i: nat, n: nat, fate: Fate)
    requires i < n && OnCommands(s, i).exit.Returned? && fate == Head(OnCommands(s, i).commands)
    ensures !fate.Done? ==> OnCommands(s, n) == OnCommand(OnCommands(s, i))
    decreases n
  {
    if i < n - 1 { StoppedStays(s, i, n - 1, fate); }
  }
}
