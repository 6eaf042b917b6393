/**
 * What each step of a backup does (backup_engine.py): mounting and
 * unmounting a drive, running the pre- and post-backup hooks, syncing one
 * source with rsync and logging its output, and the loop over the sources of
 * a profile. Each step is a function from the state before it to the state
 * after it; the `BackupEngine` class in module Engine is proved to follow
 * these functions.
 */
module EngineSteps {
  import opened Text
  import opened Messages
  import opened Effects
  import opened Paths
  import opened Config

  /** The engine's `mounted_drives` and the record of the run so far. */
  datatype State = State(mounted: seq<string>, io: Io)

  /** A `(success, message)` pair. */
  datatype Reply = Reply(ok: bool, message: Msg)

  datatype Step = Step(reply: Reply, st: State)

  /** A boolean result together with the record after the call. */
  datatype Done = Done(ok: bool, io: Io)

  // ---------------------------------------------------------------------
  // mount_drive / unmount_drive

  predicate IsMountCommand(e: Effect, d: Destination) {
    e == UdisksMount(d.driveDevice) || e == SudoMount(d.driveDevice, d.mountPoint)
  }

  /** `BackupEngine.mount_drive(destination)`. */
  function Mount(w: World, d: Destination, st: State): Step {
    if !d.autoMount then Step(Reply(true, AutoMountDisabled), st)
    else
      var check := Next(w, st.io);
      var io1 := Did(st.io, Findmnt(d.mountPoint));
      if check.Raised? then Step(Reply(false, MountRaised(check.message)), st.(io := io1))
      else if check.code == 0 then Step(Reply(true, AlreadyMounted(d.mountPoint)), st.(io := io1))
      else
        var made := Next(w, io1);
        var io2 := Did(io1, MakeDirs(d.mountPoint));
        if made.Raised? then Step(Reply(false, MountRaised(made.message)), st.(io := io2))
        else
          var udisks := Next(w, io2);
          var io3 := Did(io2, UdisksMount(d.driveDevice));
          if udisks.Raised? then Step(Reply(false, MountRaised(udisks.message)), st.(io := io3))
          else if udisks.code == 0 then
            Step(Reply(true, MountedDevice(d.driveDevice)), State(st.mounted + [d.driveDevice], io3))
          else
            var sudo := Next(w, io3);
            var io4 := Did(io3, SudoMount(d.driveDevice, d.mountPoint));
            if sudo.Raised? then Step(Reply(false, MountRaised(sudo.message)), st.(io := io4))
            else if sudo.code == 0 then
              Step(Reply(true, MountedDeviceAt(d.driveDevice, d.mountPoint)), State(st.mounted + [d.driveDevice], io4))
            else Step(Reply(false, MountCommandFailed(sudo.stderr)), st.(io := io4))
  }

  /**
   * A drive is recorded as mounted by this engine exactly when the last thing
   * `mount_drive` did was a mount command that exited 0; "already mounted",
   * a disabled auto-mount and every failure leave the record alone.
   */
  lemma MountRecordsOwnMounts(w: World, d: Destination, st: State)
    ensures var r := Mount(w, d, st);
            var n := |st.io.effects|;
            && |r.st.io.effects| >= n && r.st.io.effects[..n] == st.io.effects
            && r.st.io.log == st.io.log
            && (r.st.mounted == st.mounted || r.st.mounted == st.mounted + [d.driveDevice])
            && (r.st.mounted == st.mounted + [d.driveDevice] <==>
                  |r.st.io.effects| > n &&
                  IsMountCommand(r.st.io.effects[|r.st.io.effects| - 1], d) &&
                  Succeeded(w(|r.st.io.effects| - 1)))
            && (r.st.mounted == st.mounted + [d.driveDevice] ==> r.reply.ok)
            && (!d.autoMount ==> r == Step(Reply(true, AutoMountDisabled), st))
  {
    var n := |st.io.effects|;
    assert st.mounted != st.mounted + [d.driveDevice];
  }

  /** `BackupEngine.unmount_drive(drive_device)`: udisksctl first, then sudo umount. */
  function Unmount(w: World, device: string, io: Io): Done {
    var udisks := Next(w, io);
    var io1 := Did(io, UdisksUnmount(device));
    if udisks.Raised? then Done(false, io1)
    else if udisks.code == 0 then Done(true, io1)
    else
      var sudo := Next(w, io1);
      var io2 := Did(io1, SudoUmount(device));
      if sudo.Raised? then Done(false, io2)
      else Done(sudo.code == 0, io2)
  }

  /** Unmounting succeeds exactly when udisksctl, or else sudo umount, exits 0; an exception is a failure. */
  lemma UnmountSucceedsIff(w: World, device: string, io: Io)
    ensures var r := Unmount(w, device, io);
            var n := |io.effects|;
            && r.io.log == io.log
            && r.io.effects[..n] == io.effects
            && r.io.effects[n..] in [[UdisksUnmount(device)],
                                      [UdisksUnmount(device), SudoUmount(device)]]
            && (r.ok <==> Succeeded(w(n)) || (w(n).Exited? && Succeeded(w(n + 1))))
  {
    var n := |io.effects|;
    var r := Unmount(w, device, io);
    if |r.io.effects| == n + 1 {
      assert r.io.effects[n..] == [UdisksUnmount(device)];
    } else {
      assert r.io.effects[n..] == [UdisksUnmount(device), SudoUmount(device)];
    }
  }

  // ---------------------------------------------------------------------
  // run_custom_commands

  /** The commands of `cmds[i..]` that are enabled, as the shell runs they would be. */
  function ShellRuns(cmds: seq<Command>, i: nat): (r: seq<Effect>)
    requires i <= |cmds|
    ensures forall k :: 0 <= k < |r| ==> r[k].RunShell?
    decreases |cmds| - i
  {
    if i == |cmds| then []
    else if cmds[i].enabled then [RunShell(cmds[i].command, cmds[i].timeout)] + ShellRuns(cmds, i + 1)
    else ShellRuns(cmds, i + 1)
  }

  /** The outcome of one iteration of the loop of `run_custom_commands`: go on, or return False. */
  datatype HookStep = Continue(io: Io) | Stop(io: Io)

  /** One iteration of the loop of `run_custom_commands`, for command number i (from 0). */
  function RunHook(w: World, cmd: Command, phase: string, i: nat, io: Io): HookStep {
    if !cmd.enabled then
      Continue(Say(io, Info(SkippingCommand(phase, i + 1, cmd.description))))
    else
      var io1 := SayAll(io, [Info(RunningCommand(phase, i + 1, cmd.description)), Info(CommandLine(cmd.command))]);
      var result := Next(w, io1);
      var io2 := Did(io1, RunShell(cmd.command, cmd.timeout));
      match result
      case Exited(code, stdout, stderr) =>
        if code == 0 then
          var io3 := Say(io2, Info(CommandSucceeded));
          Continue(if stdout != "" then Say(io3, Info(CommandOutput(stdout))) else io3)
        else
          Stop(SayAll(io2, [Error(CommandFailed(code)), Error(StandardError(stderr))]))
      case Raised(kind, message) =>
        if kind == TimeoutExpired then
          Stop(Say(io2, Error(CommandTimedOut(cmd.timeout))))
        else
          Stop(Say(io2, Error(CommandRaised(message))))
  }

  /** The errors a command or a sync logs about itself. */
  predicate StepError(m: Msg) {
    m.CommandFailed? || m.StandardError? || m.CommandTimedOut? || m.CommandRaised? || m.RsyncFailed? || m.SyncRaised?
  }

  /**
   * The log only grows, by logger lines: information, or an error about a
   * command or a sync. Nothing goes to standard output.
   */
  predicate LogsOnly(before: Io, after: Io) {
    |before.log| <= |after.log| && after.log[..|before.log|] == before.log &&
    forall k :: |before.log| <= k < |after.log| ==>
      after.log[k].Info? || (after.log[k].Error? && StepError(after.log[k].msg))
  }

  /**
   * A disabled command is logged and skipped without being run; an enabled
   * one is run once, and the loop goes on exactly when it exited 0.
   */
  lemma RunHookRunsOnlyEnabled(w: World, cmd: Command, phase: string, i: nat, io: Io)
    ensures var r := RunHook(w, cmd, phase, i, io);
            && (!cmd.enabled ==> r.Continue? && r.io.effects == io.effects)
            && (cmd.enabled ==> r.io.effects == io.effects + [RunShell(cmd.command, cmd.timeout)] &&
                                (r.Continue? <==> Succeeded(w(|io.effects|))))
            && LogsOnly(io, r.io)
  {
  }

  /** The loop of `run_custom_commands` from command i on. */
  function HooksFrom(w: World, cmds: seq<Command>, phase: string, i: nat, io: Io): Done
    requires i <= |cmds|
    decreases |cmds| - i
  {
    if i == |cmds| then Done(true, io)
    else
      match RunHook(w, cmds[i], phase, i, io)
      case Continue(io1) => HooksFrom(w, cmds, phase, i + 1, io1)
      case Stop(io1) => Done(false, io1)
  }

  /** `BackupEngine.run_custom_commands(commands, phase, logger)`. */
  function RunCustomCommands(w: World, cmds: seq<Command>, phase: string, io: Io): Done {
    HooksFrom(w, cmds, phase, 0, Say(io, Info(RunningPhase(phase))))
  }

  predicate IsPrefix<T(==)>(a: seq<T>, b: seq<T>) {
    |a| <= |b| && b[..|a|] == a
  }

  /**
   * The hook runner runs the enabled commands in order and nothing else. It
   * stops at the first one that does not exit 0, and it reports success
   * exactly when every command it ran exited 0; then it has run all of them.
   */
  lemma {:induction false} HooksFromRunsEnabledFailFast(w: World, cmds: seq<Command>, phase: string, i: nat, io: Io)
    requires i <= |cmds|
    ensures var r := HooksFrom(w, cmds, phase, i, io);
            var n := |io.effects|;
            && n <= |r.io.effects| && r.io.effects[..n] == io.effects
            && (r.ok ==> r.io.effects[n..] == ShellRuns(cmds, i))
            && (!r.ok ==> r.io.effects[n..] != [] && IsPrefix(r.io.effects[n..], ShellRuns(cmds, i)))
            && (r.ok <==> forall k :: n <= k < |r.io.effects| ==> Succeeded(w(k)))
    decreases |cmds| - i
  {
    var n := |io.effects|;
    if i < |cmds| {
      var cmd := cmds[i];
      var step := RunHook(w, cmd, phase, i, io);
      RunHookRunsOnlyEnabled(w, cmd, phase, i, io);
      if step.Continue? {
        HooksFromRunsEnabledFailFast(w, cmds, phase, i + 1, step.io);
        var r := HooksFrom(w, cmds, phase, i + 1, step.io);
        assert r == HooksFrom(w, cmds, phase, i, io);
        if cmd.enabled {
          assert ShellRuns(cmds, i) == [RunShell(cmd.command, cmd.timeout)] + ShellRuns(cmds, i + 1);
          assert r.io.effects[..n + 1] == step.io.effects;
          assert r.io.effects[n..] == [RunShell(cmd.command, cmd.timeout)] + r.io.effects[n + 1..];
          if !r.ok {
            var k :| n + 1 <= k < |r.io.effects| && !Succeeded(w(k));
          }
        } else {
          assert r.io.effects[n..] == r.io.effects[|step.io.effects|..];
        }
      } else {
        assert ShellRuns(cmds, i) == [RunShell(cmd.command, cmd.timeout)] + ShellRuns(cmds, i + 1);
        assert step.io.effects[n..] == [RunShell(cmd.command, cmd.timeout)];
      }
    }
  }

  /**
   * On failure the runner stopped at the command that failed: the last
   * shell run did not exit 0 and every run before it did, so no command
   * after the failing one was run.
   */
  lemma {:induction false} HooksFromFailFastLast(w: World, cmds: seq<Command>, phase: string, i: nat, io: Io)
    requires i <= |cmds|
    ensures var r := HooksFrom(w, cmds, phase, i, io);
            var n := |io.effects|;
            !r.ok ==> && |r.io.effects| > n
                      && !Succeeded(w(|r.io.effects| - 1))
                      && forall k :: n <= k < |r.io.effects| - 1 ==> Succeeded(w(k))
    decreases |cmds| - i
  {
    if i < |cmds| {
      var step := RunHook(w, cmds[i], phase, i, io);
      RunHookRunsOnlyEnabled(w, cmds[i], phase, i, io);
      if step.Continue? {
        HooksFromFailFastLast(w, cmds, phase, i + 1, step.io);
        HooksFromRunsEnabledFailFast(w, cmds, phase, i + 1, step.io);
      }
    }
  }

  /** The hook runner writes only to the log, never to standard output. */
  lemma {:induction false} HooksFromLogsOnly(w: World, cmds: seq<Command>, phase: string, i: nat, io: Io)
    requires i <= |cmds|
    ensures LogsOnly(io, HooksFrom(w, cmds, phase, i, io).io)
    decreases |cmds| - i
  {
    if i < |cmds| {
      var step := RunHook(w, cmds[i], phase, i, io);
      RunHookRunsOnlyEnabled(w, cmds[i], phase, i, io);
      if step.Continue? {
        HooksFromLogsOnly(w, cmds, phase, i + 1, step.io);
        var r := HooksFrom(w, cmds, phase, i + 1, step.io);
        assert r.io.log[..|step.io.log|] == step.io.log;
        assert r.io.log[..|io.log|] == io.log;
      }
    }
  }

  /** An empty hook list, or one whose commands are all disabled, succeeds without running anything. */
  lemma HooksWithoutEnabledCommands(w: World, cmds: seq<Command>, phase: string, io: Io)
    requires forall k :: 0 <= k < |cmds| ==> !cmds[k].enabled
    ensures RunCustomCommands(w, cmds, phase, io).ok
    ensures RunCustomCommands(w, cmds, phase, io).io.effects == io.effects
  {
    var io0 := Say(io, Info(RunningPhase(phase)));
    HooksFromRunsEnabledFailFast(w, cmds, phase, 0, io0);
    NoEnabledNoRuns(cmds, 0);
  }

  lemma {:induction false} NoEnabledNoRuns(cmds: seq<Command>, i: nat)
    requires i <= |cmds|
    requires forall k :: 0 <= k < |cmds| ==> !cmds[k].enabled
    ensures ShellRuns(cmds, i) == []
    decreases |cmds| - i
  {
    if i < |cmds| {
      NoEnabledNoRuns(cmds, i + 1);
    }
  }

  // ---------------------------------------------------------------------
  // sync_directory

  /** `Path(destination) / Path(source).name`. */
  function DestPath(source: string, destination: string): PurePath {
    Child(Parse(destination), Name(Parse(source)))
  }

  /**
   * The copy of a source goes into the entry of the destination named like
   * the source: its name is the source's name and its parent is the
   * destination, unless the source has no name (the root, "" or ".").
   */
  lemma DestPathNamedLikeSource(source: string, destination: string)
    ensures Name(Parse(source)) != "" ==>
              Name(DestPath(source, destination)) == Name(Parse(source)) &&
              Parent(DestPath(source, destination)) == Parse(destination)
    ensures Name(Parse(source)) == "" ==> DestPath(source, destination) == Parse(destination)
  {
    NameIsComponent(Parse(source));
    if Name(Parse(source)) != "" {
      ChildNameParent(Parse(destination), Name(Parse(source)));
    }
  }

  /** The log line for one rsync output line: indented, and only when it is not blank. */
  function Indented(line: string): seq<Line> {
    if IsBlank(line) then [] else [Info(RsyncLine(line))]
  }

  /** The loop `for line in lines: if line.strip(): logger.info(...)`. */
  function KeptLines(lines: seq<string>): (r: seq<Line>)
    ensures |r| <= |lines|
    ensures forall k :: 0 <= k < |r| ==> r[k].Info? && r[k].msg.RsyncLine?
  {
    if lines == [] then []
    else KeptLines(lines[..|lines| - 1]) + Indented(lines[|lines| - 1])
  }

  /** Every kept line is a non-blank line of the output, indented. */
  lemma {:induction false} KeptLinesComeFromOutput(lines: seq<string>, k: nat)
    requires k < |KeptLines(lines)|
    ensures exists j :: 0 <= j < |lines| && !IsBlank(lines[j]) && KeptLines(lines)[k] == Info(RsyncLine(lines[j]))
    decreases |lines|
  {
    var init := lines[..|lines| - 1];
    if k < |KeptLines(init)| {
      KeptLinesComeFromOutput(init, k);
      var j :| 0 <= j < |init| && !IsBlank(init[j]) && KeptLines(init)[k] == Info(RsyncLine(init[j]));
      assert lines[j] == init[j];
    } else {
      assert KeptLines(lines)[k] == Info(RsyncLine(lines[|lines| - 1]));
    }
  }

  /** What `sync_directory` logs for a non-empty rsync standard output. */
  function RsyncReport(stdout: string): (r: seq<Line>)
    ensures forall k :: 0 <= k < |r| ==> r[k].Info?
  {
    var lines := Split(stdout, '\n');
    if |lines| > 50 then
      [Info(RsyncHeaderTruncated)] + KeptLines(lines[..25]) + [Info(RsyncTruncated)] + KeptLines(lines[|lines| - 25..])
    else
      [Info(RsyncHeader)] + KeptLines(lines)
  }

  lemma {:induction false} KeptLinesKeepsNonBlank(lines: seq<string>, j: nat)
    requires j < |lines| && !IsBlank(lines[j])
    ensures Info(RsyncLine(lines[j])) in KeptLines(lines)
    decreases |lines|
  {
    if j < |lines| - 1 {
      KeptLinesKeepsNonBlank(lines[..|lines| - 1], j);
    }
  }

  /**
   * The rsync report is at most 52 lines long. Output of at most 50 lines is
   * reported without losing a non-blank line; longer output keeps the first
   * and the last 25 lines, with the marker in between.
   */
  lemma RsyncReportBounded(stdout: string)
    ensures var report := RsyncReport(stdout);
            var lines := Split(stdout, '\n');
            && |report| <= 52
            && (|lines| <= 50 ==> forall j :: 0 <= j < |lines| && !IsBlank(lines[j]) ==> Info(RsyncLine(lines[j])) in report)
            && (|lines| > 50 ==>
                  report[0] == Info(RsyncHeaderTruncated) &&
                  Info(RsyncTruncated) in report &&
                  (forall j :: 0 <= j < 25 && !IsBlank(lines[j]) ==> Info(RsyncLine(lines[j])) in report) &&
                  (forall j :: |lines| - 25 <= j < |lines| && !IsBlank(lines[j]) ==> Info(RsyncLine(lines[j])) in report))
  {
    var lines := Split(stdout, '\n');
    if |lines| <= 50 {
      forall j | 0 <= j < |lines| && !IsBlank(lines[j]) ensures Info(RsyncLine(lines[j])) in RsyncReport(stdout) {
        KeptLinesKeepsNonBlank(lines, j);
      }
    } else {
      forall j | 0 <= j < 25 && !IsBlank(lines[j]) ensures Info(RsyncLine(lines[j])) in RsyncReport(stdout) {
        assert lines[..25][j] == lines[j];
        KeptLinesKeepsNonBlank(lines[..25], j);
      }
      forall j | |lines| - 25 <= j < |lines| && !IsBlank(lines[j]) ensures Info(RsyncLine(lines[j])) in RsyncReport(stdout) {
        assert lines[|lines| - 25..][j - (|lines| - 25)] == lines[j];
        KeptLinesKeepsNonBlank(lines[|lines| - 25..], j - (|lines| - 25));
      }
    }
  }

  /**
   * `BackupEngine.sync_directory(source, destination, logger)` for a profile
   * with the given dry-run flag, where `dest` is `DestPath(source, destination)`.
   */
  function Sync(w: World, dryRun: bool, source: string, dest: PurePath, io: Io): Done {
    var io1 := Say(io, Info(Syncing(source, Str(dest))));
    var made := Next(w, io1);
    var io2 := Did(io1, MakeDirs(Str(Parent(dest))));
    if made.Raised? then Done(false, Say(io2, Error(SyncRaised(source, made.message))))
    else Transfer(w, dryRun, source, dest, if dryRun then Say(io2, Info(DryRunMode)) else io2)
  }

  /** The second half of `sync_directory`: run rsync and log how it ended. */
  function Transfer(w: World, dryRun: bool, source: string, dest: PurePath, io: Io): Done {
    var result := Next(w, io);
    var io1 := Did(io, Rsync(source, Str(dest), dryRun));
    match result
    case Raised(_, message) => Done(false, Say(io1, Error(SyncRaised(source, message))))
    case Exited(code, stdout, stderr) =>
      if code == 0 then
        var io2 := Say(io1, Info(SyncedSource(source)));
        Done(true, if stdout != "" then SayAll(io2, RsyncReport(stdout)) else io2)
      else
        Done(false, SayAll(io1, [Error(RsyncFailed(source)), Error(StandardError(stderr))]))
  }

  /** The transfer runs rsync once and succeeds exactly when rsync exits 0. */
  lemma TransferSucceedsIff(w: World, dryRun: bool, source: string, dest: PurePath, io: Io)
    ensures var r := Transfer(w, dryRun, source, dest, io);
            && r.io.effects == io.effects + [Rsync(source, Str(dest), dryRun)]
            && (r.ok <==> Succeeded(w(|io.effects|)))
  {
  }

  /** The transfer writes only to the log. */
  lemma TransferLogsOnly(w: World, dryRun: bool, source: string, dest: PurePath, io: Io)
    ensures LogsOnly(io, Transfer(w, dryRun, source, dest, io).io)
  {
    var r := Transfer(w, dryRun, source, dest, io);
    assert r.io.log[..|io.log|] == io.log;
  }

  /**
   * A sync first creates the parent of the copy's path and then runs rsync,
   * unless creating the directory raised; it succeeds exactly when rsync ran
   * and exited 0.
   */
  lemma SyncSucceedsIffRsyncExitsZero(w: World, dryRun: bool, source: string, dest: PurePath, io: Io)
    ensures var r := Sync(w, dryRun, source, dest, io);
            var n := |io.effects|;
            var mk := MakeDirs(Str(Parent(dest)));
            && n <= |r.io.effects| && r.io.effects[..n] == io.effects
            && r.io.effects[n..] in [[mk], [mk, Rsync(source, Str(dest), dryRun)]]
            && (r.ok <==> |r.io.effects| == n + 2 && Succeeded(w(n + 1)))
  {
    var r := Sync(w, dryRun, source, dest, io);
    var n := |io.effects|;
    var mk := MakeDirs(Str(Parent(dest)));
    var io1 := Say(io, Info(Syncing(source, Str(dest))));
    var io2 := Did(io1, mk);
    if Next(w, io1).Raised? {
      assert r.io.effects[n..] == [mk];
    } else {
      var io3 := if dryRun then Say(io2, Info(DryRunMode)) else io2;
      TransferSucceedsIff(w, dryRun, source, dest, io3);
      assert r.io.effects[n..] == [mk, Rsync(source, Str(dest), dryRun)];
    }
  }

  lemma LogsOnlyTransitive(a: Io, b: Io, c: Io)
    requires LogsOnly(a, b) && LogsOnly(b, c)
    ensures LogsOnly(a, c)
  {
    assert c.log[..|a.log|] == c.log[..|b.log|][..|a.log|];
  }

  /** A sync writes only to the log, never to standard output. */
  lemma SyncLogsOnly(w: World, dryRun: bool, source: string, dest: PurePath, io: Io)
    ensures LogsOnly(io, Sync(w, dryRun, source, dest, io).io)
  {
    var r := Sync(w, dryRun, source, dest, io);
    var io1 := Say(io, Info(Syncing(source, Str(dest))));
    var io2 := Did(io1, MakeDirs(Str(Parent(dest))));
    assert LogsOnly(io, io2);
    if !Next(w, io1).Raised? {
      var io3 := if dryRun then Say(io2, Info(DryRunMode)) else io2;
      TransferLogsOnly(w, dryRun, source, dest, io3);
      assert LogsOnly(io2, io3);
      LogsOnlyTransitive(io, io2, io3);
      LogsOnlyTransitive(io, io3, r.io);
    }
  }

  // ---------------------------------------------------------------------
  // The loop over the sources of a profile

  datatype Synced = Synced(failed: seq<string>, io: Io)

  /**
   * The source loop shared by `run_backup` and `run_backup_to_destination`
   * from source i on: disabled sources are logged and skipped, and the paths
   * whose sync failed are collected in order.
   */
  function SyncSourcesFrom(w: World, dryRun: bool, sources: seq<Source>, target: string, i: nat,
                           failed: seq<string>, io: Io): Synced
    requires i <= |sources|
    decreases |sources| - i
  {
    if i == |sources| then Synced(failed, io)
    else if !sources[i].enabled then
      SyncSourcesFrom(w, dryRun, sources, target, i + 1, failed, Say(io, Info(SkippingSource(sources[i].path))))
    else
      var r := Sync(w, dryRun, sources[i].path, DestPath(sources[i].path, target), io);
      SyncSourcesFrom(w, dryRun, sources, target, i + 1, if r.ok then failed else failed + [sources[i].path], r.io)
  }

  /** The directories the syncs of the enabled sources of `sources[i..]` create, in order. */
  function SyncDirs(sources: seq<Source>, target: string, i: nat): seq<Effect>
    requires i <= |sources|
    decreases |sources| - i
  {
    if i == |sources| then []
    else if sources[i].enabled then
      [MakeDirs(Str(Parent(DestPath(sources[i].path, target))))] + SyncDirs(sources, target, i + 1)
    else SyncDirs(sources, target, i + 1)
  }

  /** The directory creations among some effects, in order. */
  function Dirs(effects: seq<Effect>): (r: seq<Effect>)
    ensures forall k :: 0 <= k < |r| ==> r[k].MakeDirs?
  {
    if effects == [] then []
    else Dirs(effects[..|effects| - 1]) + (if effects[|effects| - 1].MakeDirs? then [effects[|effects| - 1]] else [])
  }

  lemma {:induction false} DirsAppend(a: seq<Effect>, b: seq<Effect>)
    ensures Dirs(a + b) == Dirs(a) + Dirs(b)
    decreases |b|
  {
    if b != [] {
      DirsAppend(a, b[..|b| - 1]);
      assert (a + b)[..|a + b| - 1] == a + b[..|b| - 1];
    } else {
      assert a + b == a;
    }
  }

  /** `p` lists, in order, some of the paths of the enabled sources of `sources[i..]`. */
  predicate SubsequenceOfEnabled(p: seq<string>, sources: seq<Source>, i: nat)
    requires i <= |sources|
    decreases |sources| - i
  {
    if p == [] then true
    else if i == |sources| then false
    else if sources[i].enabled && sources[i].path == p[0] then SubsequenceOfEnabled(p[1..], sources, i + 1)
    else SubsequenceOfEnabled(p, sources, i + 1)
  }

  /**
   * Every enabled source is attempted, in order, and nothing is done for a
   * disabled one: the directories created are exactly one per enabled source.
   */
  lemma {:induction false} SyncSourcesAttemptsEnabled(w: World, dryRun: bool, sources: seq<Source>, target: string,
                                                      i: nat, failed: seq<string>, io: Io)
    requires i <= |sources|
    ensures var r := SyncSourcesFrom(w, dryRun, sources, target, i, failed, io);
            var n := |io.effects|;
            && n <= |r.io.effects| && r.io.effects[..n] == io.effects
            && Dirs(r.io.effects[n..]) == SyncDirs(sources, target, i)
    decreases |sources| - i
  {
    var n := |io.effects|;
    if i == |sources| {
      assert io.effects[n..] == [];
    } else {
      var s := sources[i];
      if !s.enabled {
        var io1 := Say(io, Info(SkippingSource(s.path)));
        SyncSourcesAttemptsEnabled(w, dryRun, sources, target, i + 1, failed, io1);
        assert SyncDirs(sources, target, i) == SyncDirs(sources, target, i + 1);
        assert SyncSourcesFrom(w, dryRun, sources, target, i, failed, io) == SyncSourcesFrom(w, dryRun, sources, target, i + 1, failed, io1);
      } else {
        var sr := Sync(w, dryRun, s.path, DestPath(s.path, target), io);
        SyncCreatesOneDirectory(w, dryRun, s.path, DestPath(s.path, target), io);
        var failed1 := if sr.ok then failed else failed + [s.path];
        SyncSourcesAttemptsEnabled(w, dryRun, sources, target, i + 1, failed1, sr.io);
        var r := SyncSourcesFrom(w, dryRun, sources, target, i + 1, failed1, sr.io);
        assert r == SyncSourcesFrom(w, dryRun, sources, target, i, failed, io);
        PrefixSplit(r.io.effects, io.effects, sr.io.effects);
        DirsAppend(sr.io.effects[n..], r.io.effects[|sr.io.effects|..]);
      }
    }
  }

  /** Splitting a sequence at two nested prefixes. */
  lemma PrefixSplit<T>(a: seq<T>, p: seq<T>, q: seq<T>)
    requires |p| <= |q| <= |a| && a[..|q|] == q && q[..|p|] == p
    ensures a[..|p|] == p
    ensures a[|p|..] == q[|p|..] + a[|q|..]
  {
  }

  lemma AppendAssociates<T>(a: seq<T>, b: seq<T>, c: seq<T>)
    ensures (a + b) + c == a + (b + c)
  {
  }

  /** A sync creates exactly one directory, the parent of the copy's path. */
  lemma SyncCreatesOneDirectory(w: World, dryRun: bool, source: string, dest: PurePath, io: Io)
    ensures var r := Sync(w, dryRun, source, dest, io);
            var n := |io.effects|;
            && n <= |r.io.effects| && r.io.effects[..n] == io.effects
            && Dirs(r.io.effects[n..]) == [MakeDirs(Str(Parent(dest)))]
  {
    var n := |io.effects|;
    var r := Sync(w, dryRun, source, dest, io);
    SyncSucceedsIffRsyncExitsZero(w, dryRun, source, dest, io);
    var mk := MakeDirs(Str(Parent(dest)));
    assert Dirs([mk]) == Dirs([]) + [mk];
    if |r.io.effects| != n + 1 {
      var rs := Rsync(source, Str(dest), dryRun);
      assert [mk, rs][..1] == [mk];
      assert Dirs([mk, rs]) == Dirs([mk]) + [];
    }
  }

  /** The failed paths that are added are some of the enabled sources' paths, in source order. */
  lemma {:induction false} SyncSourcesFailedAreEnabled(w: World, dryRun: bool, sources: seq<Source>, target: string,
                                                       i: nat, failed: seq<string>, io: Io)
    requires i <= |sources|
    ensures var r := SyncSourcesFrom(w, dryRun, sources, target, i, failed, io);
            && |failed| <= |r.failed| && r.failed[..|failed|] == failed
            && SubsequenceOfEnabled(r.failed[|failed|..], sources, i)
    decreases |sources| - i
  {
    if i < |sources| {
      var s := sources[i];
      if !s.enabled {
        var io1 := Say(io, Info(SkippingSource(s.path)));
        SyncSourcesFailedAreEnabled(w, dryRun, sources, target, i + 1, failed, io1);
        var r := SyncSourcesFrom(w, dryRun, sources, target, i + 1, failed, io1);
        assert r == SyncSourcesFrom(w, dryRun, sources, target, i, failed, io);
        SkipKeepsSubsequence(r.failed[|failed|..], sources, i);
      } else {
        var sr := Sync(w, dryRun, s.path, DestPath(s.path, target), io);
        var failed1 := if sr.ok then failed else failed + [s.path];
        SyncSourcesFailedAreEnabled(w, dryRun, sources, target, i + 1, failed1, sr.io);
        var r := SyncSourcesFrom(w, dryRun, sources, target, i + 1, failed1, sr.io);
        assert r == SyncSourcesFrom(w, dryRun, sources, target, i, failed, io);
        PrefixSplit(r.failed, failed, failed1);
        if sr.ok {
          SkipKeepsSubsequence(r.failed[|failed|..], sources, i);
        } else {
          assert r.failed[|failed|..] == [s.path] + r.failed[|failed1|..];
          assert r.failed[|failed|..][1..] == r.failed[|failed1|..];
        }
      }
    }
  }

  /**
   * Whether the sync whose directory creation is effect number n succeeds,
   * read off the world alone: the creation returned and rsync, effect
   * n + 1, exited 0.
   */
  predicate SyncOkAt(w: World, n: nat) {
    !w(n).Raised? && Succeeded(w(n + 1))
  }

  /** How many effects that sync asks for: rsync is not run when the creation raised. */
  function SyncLength(w: World, n: nat): nat {
    if w(n).Raised? then 1 else 2
  }

  /** A sync's result and length are those the world dictates. */
  lemma SyncAtWorld(w: World, dryRun: bool, source: string, dest: PurePath, io: Io)
    ensures var r := Sync(w, dryRun, source, dest, io);
            var n := |io.effects|;
            && (r.ok <==> SyncOkAt(w, n))
            && |r.io.effects| == n + SyncLength(w, n)
            && r.io.effects[n] == MakeDirs(Str(Parent(dest)))
  {
    SyncSucceedsIffRsyncExitsZero(w, dryRun, source, dest, io);
  }

  /**
   * The number of the effect at which the sync of source j starts, when the
   * source loop reaches source i at effect number n.
   */
  function StartOf(w: World, sources: seq<Source>, i: nat, n: nat, j: nat): nat
    requires i <= j < |sources|
    decreases j - i
  {
    if i == j then n
    else StartOf(w, sources, i + 1, n + (if sources[i].enabled then SyncLength(w, n) else 0), j)
  }

  /**
   * The numbers of the enabled sources of `sources[i..]` whose sync fails,
   * in order, when the source loop reaches source i at effect number n.
   */
  function Failures(w: World, sources: seq<Source>, i: nat, n: nat): (r: seq<nat>)
    requires i <= |sources|
    ensures forall k :: 0 <= k < |r| ==> i <= r[k] < |sources|
    decreases |sources| - i
  {
    if i == |sources| then []
    else if !sources[i].enabled then Failures(w, sources, i + 1, n)
    else (if SyncOkAt(w, n) then [] else [i]) + Failures(w, sources, i + 1, n + SyncLength(w, n))
  }

  /** The paths of the sources with the given numbers. */
  function PathsAt(sources: seq<Source>, indices: seq<nat>): (r: seq<string>)
    requires forall k :: 0 <= k < |indices| ==> indices[k] < |sources|
    ensures |r| == |indices| && forall k :: 0 <= k < |r| ==> r[k] == sources[indices[k]].path
  {
    if indices == [] then [] else [sources[indices[0]].path] + PathsAt(sources, indices[1..])
  }

  /**
   * The failures are listed in source order, each once, and a source is
   * listed exactly when it is enabled and its sync, starting where the loop
   * reaches it, fails.
   */
  lemma {:induction false} FailuresExactly(w: World, sources: seq<Source>, i: nat, n: nat)
    requires i <= |sources|
    ensures var f := Failures(w, sources, i, n);
            && (forall k, l :: 0 <= k < l < |f| ==> f[k] < f[l])
            && (forall j :: i <= j < |sources| ==>
                  (j in f <==> sources[j].enabled && !SyncOkAt(w, StartOf(w, sources, i, n, j))))
    decreases |sources| - i
  {
    if i < |sources| {
      var n1 := n + (if sources[i].enabled then SyncLength(w, n) else 0);
      FailuresExactly(w, sources, i + 1, n1);
      var rest := Failures(w, sources, i + 1, n1);
      var f := Failures(w, sources, i, n);
      forall j | i < j < |sources|
        ensures StartOf(w, sources, i, n, j) == StartOf(w, sources, i + 1, n1, j)
      {
      }
      if sources[i].enabled && !SyncOkAt(w, n) {
        assert f == [i] + rest;
        assert forall k :: 0 < k < |f| ==> f[k] == rest[k - 1];
      } else {
        assert f == rest;
      }
    }
  }

  /**
   * The paths the source loop collects are those of the failed sources, in
   * order, after the ones collected before.
   */
  lemma {:induction false} SyncSourcesFailedExactly(w: World, dryRun: bool, sources: seq<Source>, target: string,
                                                    i: nat, failed: seq<string>, io: Io)
    requires i <= |sources|
    ensures SyncSourcesFrom(w, dryRun, sources, target, i, failed, io).failed
            == failed + PathsAt(sources, Failures(w, sources, i, |io.effects|))
    decreases |sources| - i
  {
    var n := |io.effects|;
    var r := SyncSourcesFrom(w, dryRun, sources, target, i, failed, io);
    if i == |sources| {
      assert failed + PathsAt(sources, []) == failed;
    } else if !sources[i].enabled {
      var io1 := Say(io, Info(SkippingSource(sources[i].path)));
      SyncSourcesFailedExactly(w, dryRun, sources, target, i + 1, failed, io1);
      assert r == SyncSourcesFrom(w, dryRun, sources, target, i + 1, failed, io1);
      assert Failures(w, sources, i, n) == Failures(w, sources, i + 1, n);
    } else {
      var s := sources[i];
      var sr := Sync(w, dryRun, s.path, DestPath(s.path, target), io);
      SyncAtWorld(w, dryRun, s.path, DestPath(s.path, target), io);
      var failed1 := if sr.ok then failed else failed + [s.path];
      SyncSourcesFailedExactly(w, dryRun, sources, target, i + 1, failed1, sr.io);
      var rest := Failures(w, sources, i + 1, n + SyncLength(w, n));
      assert r == SyncSourcesFrom(w, dryRun, sources, target, i + 1, failed1, sr.io);
      assert r.failed == failed1 + PathsAt(sources, rest);
      if !sr.ok {
        var f := [i] + rest;
        assert Failures(w, sources, i, n) == f;
        assert f[1..] == rest;
        var tail := PathsAt(sources, rest);
        assert PathsAt(sources, f) == [s.path] + tail;
        assert failed1 == failed + [s.path];
        AppendAssociates(failed, [s.path], tail);
      } else {
        assert Failures(w, sources, i, n) == rest;
      }
    }
  }

  /** One iteration of the source loop, as the state it hands to the next one. */
  lemma NextSource(w: World, dryRun: bool, sources: seq<Source>, target: string, i: nat, failed: seq<string>, io: Io)
    returns (failed1: seq<string>, io1: Io)
    requires i < |sources|
    ensures SyncSourcesFrom(w, dryRun, sources, target, i, failed, io) == SyncSourcesFrom(w, dryRun, sources, target, i + 1, failed1, io1)
    ensures |io1.effects| == |io.effects| + (if sources[i].enabled then SyncLength(w, |io.effects|) else 0)
  {
    var s := sources[i];
    if !s.enabled {
      failed1, io1 := failed, Say(io, Info(SkippingSource(s.path)));
    } else {
      var sr := Sync(w, dryRun, s.path, DestPath(s.path, target), io);
      SyncAtWorld(w, dryRun, s.path, DestPath(s.path, target), io);
      failed1, io1 := if sr.ok then failed else failed + [s.path], sr.io;
    }
  }

  /** The sync of an enabled source starts where the loop reaches it, with its directory creation. */
  lemma SyncStartsHere(w: World, dryRun: bool, sources: seq<Source>, target: string, i: nat, failed: seq<string>, io: Io)
    requires i < |sources| && sources[i].enabled
    ensures var r := SyncSourcesFrom(w, dryRun, sources, target, i, failed, io);
            |io.effects| < |r.io.effects| && r.io.effects[|io.effects|] == MakeDirs(Str(Parent(DestPath(sources[i].path, target))))
  {
    var n := |io.effects|;
    var s := sources[i];
    var sr := Sync(w, dryRun, s.path, DestPath(s.path, target), io);
    SyncAtWorld(w, dryRun, s.path, DestPath(s.path, target), io);
    var failed1 := if sr.ok then failed else failed + [s.path];
    var r := SyncSourcesFrom(w, dryRun, sources, target, i + 1, failed1, sr.io);
    SyncSourcesAttemptsEnabled(w, dryRun, sources, target, i + 1, failed1, sr.io);
    assert r.io.effects[n] == r.io.effects[..|sr.io.effects|][n];
  }

  /** The sync of every enabled source starts, with its directory creation, at the effect `StartOf` names. */
  lemma {:induction false} SyncStartsAt(w: World, dryRun: bool, sources: seq<Source>, target: string,
                                        i: nat, failed: seq<string>, io: Io, j: nat, r: Synced)
    requires i <= j < |sources| && sources[j].enabled
    requires r == SyncSourcesFrom(w, dryRun, sources, target, i, failed, io)
    ensures var at := StartOf(w, sources, i, |io.effects|, j);
            at < |r.io.effects| && r.io.effects[at] == MakeDirs(Str(Parent(DestPath(sources[j].path, target))))
    decreases j - i
  {
    if i == j {
      SyncStartsHere(w, dryRun, sources, target, i, failed, io);
    } else {
      var failed1, io1 := NextSource(w, dryRun, sources, target, i, failed, io);
      SyncStartsAt(w, dryRun, sources, target, i + 1, failed1, io1, j, r);
      assert StartOf(w, sources, i, |io.effects|, j) == StartOf(w, sources, i + 1, |io1.effects|, j);
    }
  }

  /** The source loop writes only to the log, never to standard output. */
  lemma {:induction false} SyncSourcesLogsOnly(w: World, dryRun: bool, sources: seq<Source>, target: string,
                                               i: nat, failed: seq<string>, io: Io)
    requires i <= |sources|
    ensures LogsOnly(io, SyncSourcesFrom(w, dryRun, sources, target, i, failed, io).io)
    decreases |sources| - i
  {
    if i < |sources| {
      var s := sources[i];
      var r := SyncSourcesFrom(w, dryRun, sources, target, i, failed, io);
      if !s.enabled {
        var io1 := Say(io, Info(SkippingSource(s.path)));
        SyncSourcesLogsOnly(w, dryRun, sources, target, i + 1, failed, io1);
        LogsOnlyTransitive(io, io1, r.io);
      } else {
        var sr := Sync(w, dryRun, s.path, DestPath(s.path, target), io);
        SyncLogsOnly(w, dryRun, s.path, DestPath(s.path, target), io);
        var failed1 := if sr.ok then failed else failed + [s.path];
        SyncSourcesLogsOnly(w, dryRun, sources, target, i + 1, failed1, sr.io);
        LogsOnlyTransitive(io, sr.io, r.io);
      }
    }
  }

  lemma SkipKeepsSubsequence(p: seq<string>, sources: seq<Source>, i: nat)
    requires i < |sources|
    requires SubsequenceOfEnabled(p, sources, i + 1)
    ensures SubsequenceOfEnabled(p, sources, i)
    decreases |sources| - i, 1
  {
    if p != [] && sources[i].enabled && sources[i].path == p[0] {
      DropHeadKeepsSubsequence(p, sources, i + 1);
    }
  }

  lemma DropHeadKeepsSubsequence(p: seq<string>, sources: seq<Source>, i: nat)
    requires i <= |sources| && p != []
    requires SubsequenceOfEnabled(p, sources, i)
    ensures SubsequenceOfEnabled(p[1..], sources, i)
    decreases |sources| - i, 2
  {
    if sources[i].enabled && sources[i].path == p[0] {
      SkipKeepsSubsequence(p[1..], sources, i);
    } else {
      DropHeadKeepsSubsequence(p, sources, i + 1);
      SkipKeepsSubsequence(p[1..], sources, i);
    }
  }
}
