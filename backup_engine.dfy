/**
 * `BackupEngine` (backup_engine.py) as a class: the profile it runs, the
 * drives it has mounted, and the record of what it has done. The outside
 * world is a constant of the engine; each method asks it for one effect at
 * a time, in the order the Python code does, and is proved to leave the
 * engine in the state the functions of EngineSteps and EngineRuns describe.
 */
module Engine {
  import opened Wrappers
  import opened Text
  import opened Messages
  import opened Effects
  import opened Paths
  import opened Config
  import opened EngineSteps
  import opened EngineRuns

  class BackupEngine {
    const profile: Profile
    const world: World
    /** `os.path.exists`, used when the profile is validated. */
    const pathExists: string -> bool
    /** `self.mounted_drives`: the drives this engine mounted, in order. */
    var mountedDrives: seq<string>
    /** What the engine has asked of the world and written so far. */
    var io: Io

    /** `BackupEngine(profile_name)` once the profile has been loaded. */
    constructor(profile: Profile, world: World, pathExists: string -> bool)
      ensures this.profile == profile && this.world == world && this.pathExists == pathExists
      ensures mountedDrives == [] && io == Io([], [])
    {
      this.profile := profile;
      this.world := world;
      this.pathExists := pathExists;
      mountedDrives := [];
      io := Io([], []);
    }

    function Snapshot(): State
      reads this
    {
      State(mountedDrives, io)
    }

    /** Asks the world for one effect and records it. */
    method Perform(e: Effect) returns (o: Outcome)
      modifies this
      ensures o == Next(world, old(io)) && io == Did(old(io), e) && mountedDrives == old(mountedDrives)
    {
      o := world(|io.effects|);
      io := Did(io, e);
    }

    method Log(line: Line)
      modifies this
      ensures io == Say(old(io), line) && mountedDrives == old(mountedDrives)
    {
      io := Say(io, line);
    }

    /** `mount_drive(destination)`. */
    method MountDrive(d: Destination) returns (ok: bool, message: Msg)
      modifies this
      ensures Step(Reply(ok, message), Snapshot()) == Mount(world, d, old(Snapshot()))
    {
      if !d.autoMount {
        return true, AutoMountDisabled;
      }
      var check := Perform(Findmnt(d.mountPoint));
      if check.Raised? {
        return false, MountRaised(check.message);
      }
      if check.code == 0 {
        return true, AlreadyMounted(d.mountPoint);
      }
      var made := Perform(MakeDirs(d.mountPoint));
      if made.Raised? {
        return false, MountRaised(made.message);
      }
      var udisks := Perform(UdisksMount(d.driveDevice));
      if udisks.Raised? {
        return false, MountRaised(udisks.message);
      }
      if udisks.code == 0 {
        mountedDrives := mountedDrives + [d.driveDevice];
        return true, MountedDevice(d.driveDevice);
      }
      var sudo := Perform(SudoMount(d.driveDevice, d.mountPoint));
      if sudo.Raised? {
        return false, MountRaised(sudo.message);
      }
      if sudo.code == 0 {
        mountedDrives := mountedDrives + [d.driveDevice];
        return true, MountedDeviceAt(d.driveDevice, d.mountPoint);
      }
      return false, MountCommandFailed(sudo.stderr);
    }

    /** `unmount_drive(drive_device)`. */
    method UnmountDrive(device: string) returns (ok: bool)
      modifies this
      ensures Done(ok, io) == Unmount(world, device, old(io)) && mountedDrives == old(mountedDrives)
    {
      var udisks := Perform(UdisksUnmount(device));
      if udisks.Raised? {
        return false;
      }
      if udisks.code == 0 {
        return true;
      }
      var sudo := Perform(SudoUmount(device));
      if sudo.Raised? {
        return false;
      }
      return sudo.code == 0;
    }

    /** `run_custom_commands(commands, phase, logger)`. */
    method RunCustomCommands(commands: seq<Command>, phase: string) returns (ok: bool)
      modifies this
      ensures Done(ok, io) == EngineSteps.RunCustomCommands(world, commands, phase, old(io))
      ensures mountedDrives == old(mountedDrives)
    {
      Log(Info(RunningPhase(phase)));
      ghost var start := io;
      var i := 0;
      while i < |commands|
        invariant 0 <= i <= |commands|
        invariant HooksFrom(world, commands, phase, 0, start) == HooksFrom(world, commands, phase, i, io)
        invariant mountedDrives == old(mountedDrives)
      {
        var carryOn := RunCommand(commands[i], phase, i);
        if !carryOn {
          return false;
        }
        i := i + 1;
      }
      return true;
    }

    /** One iteration of the loop of `run_custom_commands`: false when it returns False. */
    method RunCommand(cmd: Command, phase: string, i: nat) returns (carryOn: bool)
      modifies this
      ensures RunHook(world, cmd, phase, i, old(io)) == (if carryOn then Continue(io) else Stop(io))
      ensures mountedDrives == old(mountedDrives)
    {
      if !cmd.enabled {
        Log(Info(SkippingCommand(phase, i + 1, cmd.description)));
        return true;
      }
      Log(Info(RunningCommand(phase, i + 1, cmd.description)));
      Log(Info(CommandLine(cmd.command)));
      var result := Perform(RunShell(cmd.command, cmd.timeout));
      if result.Raised? {
        if result.kind == TimeoutExpired {
          Log(Error(CommandTimedOut(cmd.timeout)));
        } else {
          Log(Error(CommandRaised(result.message)));
        }
        return false;
      }
      if result.code != 0 {
        Log(Error(CommandFailed(result.code)));
        Log(Error(StandardError(result.stderr)));
        return false;
      }
      Log(Info(CommandSucceeded));
      if result.stdout != "" {
        Log(Info(CommandOutput(result.stdout)));
      }
      return true;
    }

    /** The rsync output loop: one indented line per non-blank line. */
    method LogLines(lines: seq<string>)
      modifies this
      ensures io == SayAll(old(io), KeptLines(lines)) && mountedDrives == old(mountedDrives)
    {
      var k := 0;
      while k < |lines|
        invariant 0 <= k <= |lines|
        invariant io == SayAll(old(io), KeptLines(lines[..k])) && mountedDrives == old(mountedDrives)
      {
        if !IsBlank(lines[k]) {
          Log(Info(RsyncLine(lines[k])));
        }
        assert lines[..k + 1][..k] == lines[..k];
        k := k + 1;
      }
      assert lines[..k] == lines;
    }

    /** The first and the last 25 lines of a long rsync output, with the marker between them. */
    method LogTruncated(lines: seq<string>)
      requires |lines| > 50
      modifies this
      ensures io.effects == old(io.effects) && mountedDrives == old(mountedDrives)
      ensures io.log == old(io.log) + [Info(RsyncHeaderTruncated)] + KeptLines(lines[..25]) + [Info(RsyncTruncated)] + KeptLines(lines[|lines| - 25..])
    {
      Log(Info(RsyncHeaderTruncated));
      LogLines(lines[..25]);
      Log(Info(RsyncTruncated));
      LogLines(lines[|lines| - 25..]);
    }

    /** What `sync_directory` logs of a non-empty rsync output. */
    method LogRsyncOutput(stdout: string)
      modifies this
      ensures io.effects == old(io.effects) && io.log == old(io.log) + RsyncReport(stdout)
      ensures mountedDrives == old(mountedDrives)
    {
      var lines := Split(stdout, '\n');
      ghost var report := RsyncReport(stdout);
      if |lines| > 50 {
        assert report == [Info(RsyncHeaderTruncated)] + KeptLines(lines[..25]) + [Info(RsyncTruncated)] + KeptLines(lines[|lines| - 25..]);
        LogTruncated(lines);
      } else {
        assert report == [Info(RsyncHeader)] + KeptLines(lines);
        Log(Info(RsyncHeader));
        LogLines(lines);
      }
    }

    /** `sync_directory(source, destination, logger)`. */
    method SyncDirectory(source: string, destination: string) returns (ok: bool)
      modifies this
      ensures Done(ok, io) == Sync(world, profile.dryRun, source, DestPath(source, destination), old(io))
      ensures mountedDrives == old(mountedDrives)
    {
      var dest := DestPath(source, destination);
      Log(Info(Syncing(source, Str(dest))));
      var made := Perform(MakeDirs(Str(Parent(dest))));
      if made.Raised? {
        Log(Error(SyncRaised(source, made.message)));
        return false;
      }
      if profile.dryRun {
        Log(Info(DryRunMode));
      }
      ok := Transfer(source, dest);
    }

    /** The rsync run of `sync_directory` and the lines that report how it ended. */
    method Transfer(source: string, dest: PurePath) returns (ok: bool)
      modifies this
      ensures Done(ok, io) == EngineSteps.Transfer(world, profile.dryRun, source, dest, old(io))
      ensures mountedDrives == old(mountedDrives)
    {
      var result := Perform(Rsync(source, Str(dest), profile.dryRun));
      if result.Raised? {
        Log(Error(SyncRaised(source, result.message)));
        return false;
      }
      if result.code == 0 {
        Log(Info(SyncedSource(source)));
        if result.stdout != "" {
          LogRsyncOutput(result.stdout);
        }
        return true;
      }
      Log(Error(RsyncFailed(source)));
      Log(Error(StandardError(result.stderr)));
      return false;
    }

    /** The source loop: syncs every enabled source and returns the paths that failed, in order. */
    method SyncSources(target: string) returns (failed: seq<string>)
      modifies this
      ensures Synced(failed, io) == SyncSourcesFrom(world, profile.dryRun, profile.sources, target, 0, [], old(io))
      ensures mountedDrives == old(mountedDrives)
    {
      failed := [];
      var i := 0;
      while i < |profile.sources|
        invariant 0 <= i <= |profile.sources|
        invariant SyncSourcesFrom(world, profile.dryRun, profile.sources, target, 0, [], old(io)) ==
                  SyncSourcesFrom(world, profile.dryRun, profile.sources, target, i, failed, io)
        invariant mountedDrives == old(mountedDrives)
      {
        var source := profile.sources[i];
        if !source.enabled {
          Log(Info(SkippingSource(source.path)));
        } else {
          var synced := SyncDirectory(source.path, target);
          if !synced {
            failed := failed + [source.path];
          }
        }
        i := i + 1;
      }
    }

    method LogBanner(target: string)
      modifies this
      ensures io == SayAll(old(io), Banner(profile, target)) && mountedDrives == old(mountedDrives)
    {
      Log(Info(StartingBackupTo(target)));
      Log(Info(ProfileName(profile.name)));
      Log(Info(SourceCount(|profile.sources|)));
    }

    /** The hooks and sources of one destination of `run_backup`, once its log is set up. */
    method BackUpTo(target: string) returns (ok: bool)
      modifies this
      ensures Done(ok, io) == EngineRuns.BackUpTo(world, profile, target, old(io))
      ensures mountedDrives == old(mountedDrives)
    {
      var pre := RunCustomCommands(profile.preCommands, "pre-backup");
      if !pre {
        Log(Error(PreFailedSkipping));
        return false;
      }
      var failed := SyncSources(target);
      var sourcesSuccess := failed == [];
      if sourcesSuccess {
        var post := RunCustomCommands(profile.postCommands, "post-backup");
        if !post {
          Log(Error(PostFailed));
        }
        Log(Info(DestinationSucceeded));
        return post;
      }
      Log(Error(SkippingPost));
      Log(Error(DestinationHadErrors));
      return false;
    }

    /**
     * One iteration of the destination loop of `run_backup`: false when it
     * sets `success = False`, and the message of an exception that leaves
     * `run_backup`.
     */
    method ProcessDestination(i: nat) returns (ok: bool, escaped: Option<string>)
      requires i < |profile.destinations|
      modifies this
      ensures (if escaped.Some? then Thrown(escaped.value, Snapshot()) else Carried(ok, Snapshot()))
              == DestinationPass(world, profile, i, old(Snapshot()))
    {
      var d := profile.destinations[i];
      if !d.enabled {
        Log(Out(SkippingDestination(i + 1)));
        return true, None;
      }
      Log(Out(ProcessingDestination(i + 1, d.targetPath)));
      var mounted, mountMessage := MountDrive(d);
      ghost var afterMount := Snapshot();
      if !mounted {
        Log(Out(MountFailed(mountMessage)));
        return false, None;
      }
      Log(Out(MountStatus(mountMessage)));
      var made := Perform(MakeDirs(d.targetPath));
      if made.Raised? {
        Log(Out(TargetFailed(made.message)));
        return false, None;
      }
      var logged := Perform(OpenLog(LogDir(d.targetPath)));
      if logged.Raised? {
        return false, Some(logged.message);
      }
      LogBanner(d.targetPath);
      ok := BackUpTo(d.targetPath);
      assert AfterMount(world, profile, d.targetPath, Reply(mounted, mountMessage), afterMount) == Carried(ok, Snapshot());
      return ok, None;
    }

    /** `run_backup()`: the result, or the message of an exception that leaves it. */
    method RunBackup() returns (r: Result<bool, string>)
      modifies this
      ensures (if r.Success? then Finished(r.value, Snapshot()) else Escaped(r.error, Snapshot()))
              == EngineRuns.RunBackup(world, profile, pathExists, old(Snapshot()))
    {
      var errors := ValidateProfile(profile, pathExists);
      if errors != [] {
        ReportValidation(errors);
        return Success(false);
      }
      Log(Out(StartingProfile(profile.name)));
      ghost var started := Snapshot();
      var success := true;
      var i := 0;
      while i < |profile.destinations|
        invariant 0 <= i <= |profile.destinations|
        invariant DestinationsFrom(world, profile, 0, true, started) == DestinationsFrom(world, profile, i, success, Snapshot())
      {
        var ok, escaped := ProcessDestination(i);
        if escaped.Some? {
          return Failure(escaped.value);
        }
        success := success && ok;
        i := i + 1;
      }
      success := Cleanup(success);
      return Success(success);
    }

    /** The lines `run_backup` prints for a profile that fails validation. */
    method ReportValidation(errors: seq<Problem>)
      modifies this
      ensures io == SayAll(old(io), ValidationReport(errors)) && mountedDrives == old(mountedDrives)
    {
      Log(Out(ValidationFailed));
      var k := 0;
      while k < |errors|
        invariant 0 <= k <= |errors|
        invariant io == SayAll(old(io), ValidationReport(errors[..k])) && mountedDrives == old(mountedDrives)
      {
        Log(Out(ValidationItem(Describe(errors[k]))));
        assert errors[..k + 1][..k] == errors[..k];
        k := k + 1;
      }
      assert errors[..k] == errors;
    }

    /** The cleanup loop of `run_backup`: unmount every drive this engine mounted. */
    method Cleanup(success: bool) returns (result: bool)
      modifies this
      ensures Done(result, io) == UnmountFrom(world, old(mountedDrives), 0, success, old(io))
      ensures mountedDrives == old(mountedDrives)
    {
      result := success;
      var k := 0;
      while k < |mountedDrives|
        invariant 0 <= k <= |mountedDrives| && mountedDrives == old(mountedDrives)
        invariant UnmountFrom(world, mountedDrives, 0, success, old(io)) == UnmountFrom(world, mountedDrives, k, result, io)
      {
        var drive := mountedDrives[k];
        ghost var before := io;
        Log(Out(Unmounting(drive)));
        var unmounted := UnmountDrive(drive);
        if unmounted {
          Log(Out(Unmounted(drive)));
        } else {
          Log(Out(UnmountFailed(drive)));
          result := false;
        }
        assert UnmountOne(world, drive, before) == Done(unmounted, io);
        k := k + 1;
      }
    }

    /** `run_backup_to_destination(destination)`, with the mount call made as `mount_drive(destination)`. */
    method RunBackupToDestination(d: Destination) returns (ok: bool, message: Msg)
      modifies this
      ensures Step(Reply(ok, message), Snapshot()) == RunToDestination(world, profile, d, old(Snapshot()))
    {
      if !d.enabled {
        return false, DestinationDisabled;
      }
      if d.autoMount && d.driveDevice != "" {
        var mounted, mountMessage := MountDrive(d);
        if !mounted {
          return false, MountFailed(mountMessage);
        }
      }
      ok, message := BackUpToTarget(d.targetPath);
    }

    /** `run_backup_to_destination` from the creation of the target on. */
    method BackUpToTarget(target: string) returns (ok: bool, message: Msg)
      modifies this
      ensures Step(Reply(ok, message), Snapshot()) == PrepareTarget(world, profile, target, old(Snapshot()))
    {
      var made := Perform(MakeDirs(target));
      if made.Raised? {
        return false, TargetFailed(made.message);
      }
      var logged := Perform(OpenLog(LogDir(target)));
      if logged.Raised? {
        return false, Unexpected(logged.message);
      }
      LogBanner(target);
      ghost var bannered := io;
      var pre := RunCustomCommands(profile.preCommands, "pre-backup");
      if !pre {
        Log(Error(PreFailed));
        return false, PreFailed;
      }
      var failed := SyncSources(target);
      ok, message := FinishDestination(failed);
      assert Deliver(world, profile, target, bannered) == Delivered(Reply(ok, message), io);
    }

    /** The end of `run_backup_to_destination`: the post-backup hooks, or the list of failed sources. */
    method FinishDestination(failed: seq<string>) returns (ok: bool, message: Msg)
      modifies this
      ensures Delivered(Reply(ok, message), io) == AfterSources(world, profile, failed, old(io))
      ensures mountedDrives == old(mountedDrives)
    {
      if failed == [] {
        var post := RunCustomCommands(profile.postCommands, "post-backup");
        if !post {
          Log(Error(PostFailed));
          return false, PostFailed;
        }
        Log(Info(DestinationSucceeded));
        return true, BackupSucceeded;
      }
      Log(Error(SourcesFailedLog(failed)));
      return false, SourcesFailedReply(failed);
    }
  }
}
