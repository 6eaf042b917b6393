/**
 * The two ways backup_engine.py runs a backup: `run_backup`, which
 * validates the profile, goes through every destination and unmounts what
 * it mounted, and `run_backup_to_destination`, which backs up to one
 * destination and answers with a `(success, message)` pair.
 */
module EngineRuns {
  import opened Messages
  import opened Effects
  import opened Paths
  import opened Config
  import opened EngineSteps

  /** `Path(target) / "backup_logs"`, where `setup_logging` opens the log file. */
  function LogDir(target: string): string {
    Str(Child(Parse(target), "backup_logs"))
  }

  /** The three lines logged once the log of a destination is set up. */
  function Banner(p: Profile, target: string): seq<Line> {
    [Info(StartingBackupTo(target)), Info(ProfileName(p.name)), Info(SourceCount(|p.sources|))]
  }

  /** The lines `run_backup` prints for a profile that fails validation. */
  function ValidationReport(errors: seq<Problem>): (r: seq<Line>)
    ensures |r| == |errors| + 1 && r[0] == Out(ValidationFailed)
    ensures forall k :: 0 <= k < |errors| ==> r[k + 1] == Out(ValidationItem(Describe(errors[k])))
  {
    if errors == [] then [Out(ValidationFailed)]
    else
      var r := ValidationReport(errors[..|errors| - 1]) + [Out(ValidationItem(Describe(errors[|errors| - 1])))];
      assert forall k :: 0 <= k < |errors| - 1 ==> errors[..|errors| - 1][k] == errors[k];
      r
  }

  // ---------------------------------------------------------------------
  // run_backup

  /** How one destination of `run_backup` ended: on to the next one, or an exception that leaves `run_backup`. */
  datatype Pass = Carried(ok: bool, st: State) | Thrown(error: string, st: State)

  /** How `run_backup` ended: with its result, or with an exception. */
  datatype Run = Finished(success: bool, st: State) | Escaped(error: string, st: State)

  /**
   * One iteration of the destination loop of `run_backup`, for destination
   * number i (from 0): skip it, or mount, create the target, set up the log
   * (an exception there is not caught) and back up. `ok` is false exactly
   * when the iteration sets `success = False`.
   */
  function DestinationPass(w: World, p: Profile, i: nat, st: State): Pass
    requires i < |p.destinations|
  {
    var d := p.destinations[i];
    if !d.enabled then Carried(true, st.(io := Say(st.io, Out(SkippingDestination(i + 1)))))
    else
      var m := Mount(w, d, st.(io := Say(st.io, Out(ProcessingDestination(i + 1, d.targetPath)))));
      AfterMount(w, p, d.targetPath, m.reply, m.st)
  }

  /** The rest of an iteration of `run_backup` once `mount_drive` has answered. */
  function AfterMount(w: World, p: Profile, target: string, mounted: Reply, st: State): Pass {
    if !mounted.ok then Carried(false, st.(io := Say(st.io, Out(MountFailed(mounted.message)))))
    else
      var io1 := Say(st.io, Out(MountStatus(mounted.message)));
      var made := Next(w, io1);
      var io2 := Did(io1, MakeDirs(target));
      if made.Raised? then Carried(false, st.(io := Say(io2, Out(TargetFailed(made.message)))))
      else
        var logged := Next(w, io2);
        var io3 := Did(io2, OpenLog(LogDir(target)));
        if logged.Raised? then Thrown(logged.message, st.(io := io3))
        else
          var r := BackUpTo(w, p, target, SayAll(io3, Banner(p, target)));
          Carried(r.ok, st.(io := r.io))
  }

  /**
   * The logged part of a destination in `run_backup`: pre-backup hooks, the
   * sources, and the post-backup hooks when every source synced.
   */
  function BackUpTo(w: World, p: Profile, target: string, io: Io): Done {
    var pre := RunCustomCommands(w, p.preCommands, "pre-backup", io);
    if !pre.ok then Done(false, Say(pre.io, Error(PreFailedSkipping)))
    else
      var synced := SyncSourcesFrom(w, p.dryRun, p.sources, target, 0, [], pre.io);
      if synced.failed != [] then Done(false, SayAll(synced.io, [Error(SkippingPost), Error(DestinationHadErrors)]))
      else
        var post := RunCustomCommands(w, p.postCommands, "post-backup", synced.io);
        var io1 := if post.ok then post.io else Say(post.io, Error(PostFailed));
        Done(post.ok, Say(io1, Info(DestinationSucceeded)))
  }

  /** The destination loop of `run_backup` from destination i on, with the success flag so far. */
  function DestinationsFrom(w: World, p: Profile, i: nat, success: bool, st: State): Pass
    requires i <= |p.destinations|
    decreases |p.destinations| - i
  {
    if i == |p.destinations| then Carried(success, st)
    else
      match DestinationPass(w, p, i, st)
      case Thrown(e, st1) => Thrown(e, st1)
      case Carried(ok, st1) => DestinationsFrom(w, p, i + 1, success && ok, st1)
  }

  /** The cleanup loop of `run_backup` over `mounted_drives[i..]`. */
  function UnmountFrom(w: World, drives: seq<string>, i: nat, success: bool, io: Io): Done
    requires i <= |drives|
    decreases |drives| - i
  {
    if i == |drives| then Done(success, io)
    else
      var u := UnmountOne(w, drives[i], io);
      UnmountFrom(w, drives, i + 1, success && u.ok, u.io)
  }

  /** One iteration of the cleanup loop: announce, unmount, report. */
  function UnmountOne(w: World, device: string, io: Io): Done {
    var u := Unmount(w, device, Say(io, Out(Unmounting(device))));
    Done(u.ok, Say(u.io, Out(if u.ok then Unmounted(device) else UnmountFailed(device))))
  }

  /** `BackupEngine.run_backup()`; `pathExists` answers `os.path.exists` during validation. */
  function RunBackup(w: World, p: Profile, pathExists: string -> bool, st: State): Run {
    var errors := ProfileErrors(p, pathExists);
    if errors != [] then Finished(false, st.(io := SayAll(st.io, ValidationReport(errors))))
    else
      match DestinationsFrom(w, p, 0, true, st.(io := Say(st.io, Out(StartingProfile(p.name)))))
      case Thrown(e, st1) => Escaped(e, st1)
      case Carried(ok, st1) =>
        var c := UnmountFrom(w, st1.mounted, 0, ok, st1.io);
        Finished(c.ok, st1.(io := c.io))
  }

  /**
   * A profile that fails validation is rejected before anything is done:
   * the result is False, no effect is asked for, nothing is mounted, and the
   * printed lines are the header and one line per error, in order.
   */
  lemma ValidationGate(w: World, p: Profile, pathExists: string -> bool, st: State)
    requires !IsValid(p, pathExists)
    ensures var r := RunBackup(w, p, pathExists, st);
            && r == Finished(false, r.st)
            && r.st.mounted == st.mounted
            && r.st.io.effects == st.io.effects
            && r.st.io.log == st.io.log + ValidationReport(ProfileErrors(p, pathExists))
  {
    NoErrorsIffValid(p, pathExists);
  }

  /** A disabled destination is only reported: nothing is run and the success flag is kept. */
  lemma DisabledDestinationSkipped(w: World, p: Profile, i: nat, st: State)
    requires i < |p.destinations| && !p.destinations[i].enabled
    ensures DestinationPass(w, p, i, st) == Carried(true, State(st.mounted, Say(st.io, Out(SkippingDestination(i + 1)))))
  {
  }

  /** The record only grows: earlier effects and lines are never changed. */
  predicate Grows(before: Io, after: Io) {
    && |before.effects| <= |after.effects| && after.effects[..|before.effects|] == before.effects
    && |before.log| <= |after.log| && after.log[..|before.log|] == before.log
  }

  lemma GrowsTransitive(a: Io, b: Io, c: Io)
    requires Grows(a, b) && Grows(b, c)
    ensures Grows(a, c)
  {
    assert c.effects[..|a.effects|] == c.effects[..|b.effects|][..|a.effects|];
    assert c.log[..|a.log|] == c.log[..|b.log|][..|a.log|];
  }

  lemma HooksGrow(w: World, cmds: seq<Command>, phase: string, io: Io)
    ensures Grows(io, RunCustomCommands(w, cmds, phase, io).io)
  {
    var io0 := Say(io, Info(RunningPhase(phase)));
    HooksFromRunsEnabledFailFast(w, cmds, phase, 0, io0);
    HooksFromLogsOnly(w, cmds, phase, 0, io0);
    GrowsTransitive(io, io0, RunCustomCommands(w, cmds, phase, io).io);
  }

  lemma SourcesGrow(w: World, dryRun: bool, sources: seq<Source>, target: string, io: Io)
    ensures Grows(io, SyncSourcesFrom(w, dryRun, sources, target, 0, [], io).io)
  {
    SyncSourcesAttemptsEnabled(w, dryRun, sources, target, 0, [], io);
    SyncSourcesLogsOnly(w, dryRun, sources, target, 0, [], io);
  }

  lemma BackUpToGrows(w: World, p: Profile, target: string, io: Io)
    ensures Grows(io, BackUpTo(w, p, target, io).io)
  {
    var pre := RunCustomCommands(w, p.preCommands, "pre-backup", io);
    HooksGrow(w, p.preCommands, "pre-backup", io);
    if pre.ok {
      var synced := SyncSourcesFrom(w, p.dryRun, p.sources, target, 0, [], pre.io);
      SourcesGrow(w, p.dryRun, p.sources, target, pre.io);
      GrowsTransitive(io, pre.io, synced.io);
      if synced.failed == [] {
        var post := RunCustomCommands(w, p.postCommands, "post-backup", synced.io);
        HooksGrow(w, p.postCommands, "post-backup", synced.io);
        GrowsTransitive(io, synced.io, post.io);
      }
    }
  }

  lemma MountGrows(w: World, d: Destination, st: State)
    ensures Grows(st.io, Mount(w, d, st).st.io)
  {
    MountRecordsOwnMounts(w, d, st);
  }

  /** After the mount, an iteration only adds to the record and leaves the mounted drives alone. */
  lemma AfterMountGrows(w: World, p: Profile, target: string, mounted: Reply, st: State)
    ensures var r := AfterMount(w, p, target, mounted, st);
            Grows(st.io, r.st.io) && r.st.mounted == st.mounted
  {
    if mounted.ok {
      var io1 := Say(st.io, Out(MountStatus(mounted.message)));
      var io2 := Did(io1, MakeDirs(target));
      var io3 := Did(io2, OpenLog(LogDir(target)));
      if !Next(w, io1).Raised? && !Next(w, io2).Raised? {
        var io4 := SayAll(io3, Banner(p, target));
        BackUpToGrows(w, p, target, io4);
        assert Grows(st.io, io4);
        GrowsTransitive(st.io, io4, BackUpTo(w, p, target, io4).io);
      }
    }
  }

  /**
   * One destination only adds to the record, and an enabled destination's
   * header line is printed first.
   */
  lemma DestinationPassGrows(w: World, p: Profile, i: nat, st: State)
    requires i < |p.destinations|
    ensures var r := DestinationPass(w, p, i, st);
            var d := p.destinations[i];
            && Grows(st.io, r.st.io)
            && (d.enabled ==> Out(ProcessingDestination(i + 1, d.targetPath)) in r.st.io.log)
  {
    var d := p.destinations[i];
    if d.enabled {
      var st0 := st.(io := Say(st.io, Out(ProcessingDestination(i + 1, d.targetPath))));
      var m := Mount(w, d, st0);
      MountGrows(w, d, st0);
      GrowsTransitive(st.io, st0.io, m.st.io);
      AfterMountGrows(w, p, d.targetPath, m.reply, m.st);
      var r := DestinationPass(w, p, i, st);
      GrowsTransitive(st.io, m.st.io, r.st.io);
      assert r.st.io.log[|st.io.log|] == st0.io.log[|st.io.log|];
    }
  }

  /** One destination changes the mounted drives only by recording the drive of an enabled auto-mount destination. */
  lemma DestinationPassMounts(w: World, p: Profile, i: nat, st: State)
    requires i < |p.destinations|
    ensures var r := DestinationPass(w, p, i, st);
            var d := p.destinations[i];
            r.st.mounted == st.mounted || (d.enabled && d.autoMount && r.st.mounted == st.mounted + [d.driveDevice])
  {
    var d := p.destinations[i];
    if d.enabled {
      var st0 := st.(io := Say(st.io, Out(ProcessingDestination(i + 1, d.targetPath))));
      var m := Mount(w, d, st0);
      MountRecordsOwnMounts(w, d, st0);
      AfterMountGrows(w, p, d.targetPath, m.reply, m.st);
    }
  }

  /**
   * The destination loop goes on after a failed destination: unless an
   * exception leaves it, every enabled destination is processed, in order.
   */
  lemma {:induction false} DestinationsFromVisitsAll(w: World, p: Profile, i: nat, success: bool, st: State)
    requires i <= |p.destinations|
    ensures var r := DestinationsFrom(w, p, i, success, st);
            && Grows(st.io, r.st.io)
            && (r.Carried? ==> forall j :: i <= j < |p.destinations| && p.destinations[j].enabled ==>
                  Out(ProcessingDestination(j + 1, p.destinations[j].targetPath)) in r.st.io.log)
    decreases |p.destinations| - i
  {
    if i < |p.destinations| {
      var pass := DestinationPass(w, p, i, st);
      DestinationPassGrows(w, p, i, st);
      if pass.Carried? {
        DestinationsFromVisitsAll(w, p, i + 1, success && pass.ok, pass.st);
        var r := DestinationsFrom(w, p, i + 1, success && pass.ok, pass.st);
        assert r == DestinationsFrom(w, p, i, success, st);
        GrowsTransitive(st.io, pass.st.io, r.st.io);
        var d := p.destinations[i];
        if d.enabled {
          var line := Out(ProcessingDestination(i + 1, d.targetPath));
          var k :| 0 <= k < |pass.st.io.log| && pass.st.io.log[k] == line;
          assert r.st.io.log[k] == line;
        }
      }
    }
  }

  /** The drives the destination loop records as mounted belong to enabled auto-mount destinations. */
  lemma {:induction false} DestinationsFromMountsOwnDrives(w: World, p: Profile, i: nat, success: bool, st: State)
    requires i <= |p.destinations|
    ensures var r := DestinationsFrom(w, p, i, success, st);
            forall x :: x in r.st.mounted ==>
              (x in st.mounted ||
               exists j :: i <= j < |p.destinations| && p.destinations[j].enabled &&
                           p.destinations[j].autoMount && p.destinations[j].driveDevice == x)
    decreases |p.destinations| - i
  {
    if i < |p.destinations| {
      var pass := DestinationPass(w, p, i, st);
      DestinationPassMounts(w, p, i, st);
      if pass.Carried? {
        DestinationsFromMountsOwnDrives(w, p, i + 1, success && pass.ok, pass.st);
        var r := DestinationsFrom(w, p, i + 1, success && pass.ok, pass.st);
        assert r == DestinationsFrom(w, p, i, success, st);
        var d := p.destinations[i];
        forall x | x in pass.st.mounted && x !in st.mounted
          ensures d.enabled && d.autoMount && d.driveDevice == x
        {
          assert pass.st.mounted == st.mounted + [d.driveDevice];
        }
      }
    }
  }

  /** The success flag only goes down: a failed destination makes the run fail. */
  lemma {:induction false} DestinationsFromSuccess(w: World, p: Profile, i: nat, success: bool, st: State)
    requires i <= |p.destinations|
    ensures var r := DestinationsFrom(w, p, i, success, st);
            r.Carried? && r.ok ==> success
    decreases |p.destinations| - i
  {
    if i < |p.destinations| {
      var pass := DestinationPass(w, p, i, st);
      if pass.Carried? {
        DestinationsFromSuccess(w, p, i + 1, success && pass.ok, pass.st);
      }
    }
  }

  /** The devices of some effects that are `udisksctl unmount` runs, in order. */
  function UnmountAttempts(effects: seq<Effect>): (r: seq<string>)
    ensures |r| <= |effects|
  {
    if effects == [] then []
    else UnmountAttempts(effects[..|effects| - 1]) +
         (if effects[|effects| - 1].UdisksUnmount? then [effects[|effects| - 1].device] else [])
  }

  lemma {:induction false} UnmountAttemptsAppend(a: seq<Effect>, b: seq<Effect>)
    ensures UnmountAttempts(a + b) == UnmountAttempts(a) + UnmountAttempts(b)
    decreases |b|
  {
    if b != [] {
      UnmountAttemptsAppend(a, b[..|b| - 1]);
      assert (a + b)[..|a + b| - 1] == a + b[..|b| - 1];
    } else {
      assert a + b == a;
    }
  }

  predicate IsUnmountFailure(l: Line) {
    l.Out? && l.msg.UnmountFailed?
  }

  /** No line of the log from `from` on reports a failed unmount. */
  predicate NoUnmountFailureFrom(log: seq<Line>, from: nat) {
    forall k :: from <= k < |log| ==> !IsUnmountFailure(log[k])
  }

  lemma NoUnmountFailureStep(log: seq<Line>, from: nat)
    requires from < |log|
    ensures NoUnmountFailureFrom(log, from) <==> !IsUnmountFailure(log[from]) && NoUnmountFailureFrom(log, from + 1)
  {
  }

  /** One cleanup step tries `udisksctl unmount` on its device once and prints two lines, the second saying how it went. */
  lemma UnmountOneFacts(w: World, device: string, io: Io)
    ensures var r := UnmountOne(w, device, io);
            && Grows(io, r.io)
            && UnmountAttempts(r.io.effects[|io.effects|..]) == [device]
            && r.io.log == io.log + [Out(Unmounting(device)), Out(if r.ok then Unmounted(device) else UnmountFailed(device))]
  {
    var io0 := Say(io, Out(Unmounting(device)));
    UnmountSucceedsIff(w, device, io0);
    var n := |io.effects|;
    var added := UnmountOne(w, device, io).io.effects[n..];
    if |added| == 1 {
      assert added == [UdisksUnmount(device)];
      assert UnmountAttempts(added) == UnmountAttempts([]) + [device];
    } else {
      assert added == [UdisksUnmount(device), SudoUmount(device)];
      assert added[..1] == [UdisksUnmount(device)];
      assert UnmountAttempts(added[..1]) == UnmountAttempts([]) + [device];
    }
  }

  /** The cleanup tries to unmount every recorded drive once, in order. */
  lemma {:induction false} CleanupUnmountsEach(w: World, drives: seq<string>, i: nat, success: bool, io: Io)
    requires i <= |drives|
    ensures var r := UnmountFrom(w, drives, i, success, io);
            && Grows(io, r.io)
            && UnmountAttempts(r.io.effects[|io.effects|..]) == drives[i..]
    decreases |drives| - i
  {
    var n := |io.effects|;
    if i == |drives| {
      assert io.effects[n..] == [];
    } else {
      var u := UnmountOne(w, drives[i], io);
      UnmountOneFacts(w, drives[i], io);
      CleanupUnmountsEach(w, drives, i + 1, success && u.ok, u.io);
      var r := UnmountFrom(w, drives, i + 1, success && u.ok, u.io);
      GrowsTransitive(io, u.io, r.io);
      PrefixSplit(r.io.effects, io.effects, u.io.effects);
      UnmountAttemptsAppend(u.io.effects[n..], r.io.effects[|u.io.effects|..]);
      assert drives[i..] == [drives[i]] + drives[i + 1..];
    }
  }

  /** The cleanup keeps the success flag exactly when no unmount failed. */
  lemma {:induction false} CleanupResult(w: World, drives: seq<string>, i: nat, success: bool, io: Io)
    requires i <= |drives|
    ensures var r := UnmountFrom(w, drives, i, success, io);
            && |io.log| <= |r.io.log|
            && (r.ok <==> success && NoUnmountFailureFrom(r.io.log, |io.log|))
    decreases |drives| - i
  {
    if i < |drives| {
      var u := UnmountOne(w, drives[i], io);
      UnmountOneFacts(w, drives[i], io);
      CleanupResult(w, drives, i + 1, success && u.ok, u.io);
      CleanupUnmountsEach(w, drives, i + 1, success && u.ok, u.io);
      var r := UnmountFrom(w, drives, i + 1, success && u.ok, u.io);
      var at := |io.log|;
      assert r.io.log[..|u.io.log|] == u.io.log;
      assert r.io.log[at] == u.io.log[at] && r.io.log[at + 1] == u.io.log[at + 1];
      NoUnmountFailureStep(r.io.log, at);
      NoUnmountFailureStep(r.io.log, at + 1);
    }
  }

  // ---------------------------------------------------------------------
  // The result of run_backup

  /**
   * A line by which `run_backup` reports a failure: a failed mount, target
   * directory or unmount on standard output, or a destination whose
   * pre-backup hooks, sources or post-backup hooks failed in its log.
   */
  predicate IsFailureReport(l: Line) {
    || (l.Out? && (l.msg.MountFailed? || l.msg.TargetFailed? || l.msg.UnmountFailed?))
    || (l.Error? && (l.msg.PreFailedSkipping? || l.msg.DestinationHadErrors? || l.msg.PostFailed?))
  }

  /** No line of the record from `from` on reports a failure. */
  predicate NoFailureReport(log: seq<Line>, from: nat) {
    forall k :: from <= k < |log| ==> !IsFailureReport(log[k])
  }

  /** Splitting the lines after `from` at the end of an earlier record. */
  lemma NoFailureReportSplit(short: seq<Line>, long: seq<Line>, from: nat)
    requires from <= |short| <= |long| && long[..|short|] == short
    ensures NoFailureReport(long, from) <==> NoFailureReport(short, from) && NoFailureReport(long, |short|)
  {
    assert forall k :: from <= k < |short| ==> long[k] == short[k];
  }

  /** Hooks and syncs log no failure report of their own. */
  lemma LogsOnlyReportsNothing(before: Io, after: Io)
    requires LogsOnly(before, after)
    ensures NoFailureReport(after.log, |before.log|)
  {
  }

  lemma HooksLogsOnly(w: World, cmds: seq<Command>, phase: string, io: Io)
    ensures LogsOnly(io, RunCustomCommands(w, cmds, phase, io).io)
  {
    var io0 := Say(io, Info(RunningPhase(phase)));
    HooksFromLogsOnly(w, cmds, phase, 0, io0);
    LogsOnlyTransitive(io, io0, RunCustomCommands(w, cmds, phase, io).io);
  }

  /** The logged part of a destination succeeds exactly when it logs no failure report. */
  lemma BackUpToReports(w: World, p: Profile, target: string, io: Io)
    ensures var r := BackUpTo(w, p, target, io);
            r.ok <==> NoFailureReport(r.io.log, |io.log|)
  {
    var r := BackUpTo(w, p, target, io);
    var pre := RunCustomCommands(w, p.preCommands, "pre-backup", io);
    HooksLogsOnly(w, p.preCommands, "pre-backup", io);
    if !pre.ok {
      assert IsFailureReport(r.io.log[|r.io.log| - 1]);
    } else {
      var synced := SyncSourcesFrom(w, p.dryRun, p.sources, target, 0, [], pre.io);
      SyncSourcesLogsOnly(w, p.dryRun, p.sources, target, 0, [], pre.io);
      LogsOnlyTransitive(io, pre.io, synced.io);
      if synced.failed != [] {
        assert IsFailureReport(r.io.log[|r.io.log| - 1]);
      } else {
        var post := RunCustomCommands(w, p.postCommands, "post-backup", synced.io);
        HooksLogsOnly(w, p.postCommands, "post-backup", synced.io);
        LogsOnlyTransitive(io, synced.io, post.io);
        LogsOnlyReportsNothing(io, post.io);
        if post.ok {
          assert r.io.log == post.io.log + [Info(DestinationSucceeded)];
        } else {
          assert r.io.log[|post.io.log|] == Error(PostFailed);
        }
      }
    }
  }

  /** After the mount, an iteration that does not raise sets `success = False` exactly when it reports a failure. */
  lemma AfterMountReports(w: World, p: Profile, target: string, mounted: Reply, st: State)
    ensures var r := AfterMount(w, p, target, mounted, st);
            r.Carried? ==> (r.ok <==> NoFailureReport(r.st.io.log, |st.io.log|))
  {
    var r := AfterMount(w, p, target, mounted, st);
    if !mounted.ok {
      assert IsFailureReport(r.st.io.log[|st.io.log|]);
    } else {
      var io1 := Say(st.io, Out(MountStatus(mounted.message)));
      var io2 := Did(io1, MakeDirs(target));
      if Next(w, io1).Raised? {
        assert IsFailureReport(r.st.io.log[|st.io.log| + 1]);
      } else if !Next(w, io2).Raised? {
        var io3 := Did(io2, OpenLog(LogDir(target)));
        var io4 := SayAll(io3, Banner(p, target));
        BackUpToReports(w, p, target, io4);
        BackUpToGrows(w, p, target, io4);
        NoFailureReportSplit(io4.log, r.st.io.log, |st.io.log|);
      }
    }
  }

  /** One destination of `run_backup` that does not raise sets `success = False` exactly when it reports a failure. */
  lemma DestinationPassReports(w: World, p: Profile, i: nat, st: State)
    requires i < |p.destinations|
    ensures var r := DestinationPass(w, p, i, st);
            r.Carried? ==> (r.ok <==> NoFailureReport(r.st.io.log, |st.io.log|))
  {
    var d := p.destinations[i];
    if d.enabled {
      var st0 := st.(io := Say(st.io, Out(ProcessingDestination(i + 1, d.targetPath))));
      var m := Mount(w, d, st0);
      MountRecordsOwnMounts(w, d, st0);
      AfterMountReports(w, p, d.targetPath, m.reply, m.st);
      AfterMountGrows(w, p, d.targetPath, m.reply, m.st);
      var r := DestinationPass(w, p, i, st);
      NoFailureReportSplit(st0.io.log, r.st.io.log, |st.io.log|);
    }
  }

  /**
   * Unless an exception leaves it, the destination loop keeps the success
   * flag exactly when no destination reported a failure.
   */
  lemma {:induction false} DestinationsFromReports(w: World, p: Profile, i: nat, success: bool, st: State)
    requires i <= |p.destinations|
    ensures var r := DestinationsFrom(w, p, i, success, st);
            r.Carried? ==> (r.ok <==> success && NoFailureReport(r.st.io.log, |st.io.log|))
    decreases |p.destinations| - i
  {
    if i < |p.destinations| {
      var pass := DestinationPass(w, p, i, st);
      DestinationPassReports(w, p, i, st);
      DestinationPassGrows(w, p, i, st);
      if pass.Carried? {
        DestinationsFromReports(w, p, i + 1, success && pass.ok, pass.st);
        DestinationsFromVisitsAll(w, p, i + 1, success && pass.ok, pass.st);
        var r := DestinationsFrom(w, p, i + 1, success && pass.ok, pass.st);
        assert r == DestinationsFrom(w, p, i, success, st);
        NoFailureReportSplit(pass.st.io.log, r.st.io.log, |st.io.log|);
      }
    }
  }

  /** The cleanup keeps the success flag exactly when it reports no failure. */
  lemma {:induction false} CleanupReports(w: World, drives: seq<string>, i: nat, success: bool, io: Io)
    requires i <= |drives|
    ensures var r := UnmountFrom(w, drives, i, success, io);
            r.ok <==> success && NoFailureReport(r.io.log, |io.log|)
    decreases |drives| - i
  {
    if i < |drives| {
      var u := UnmountOne(w, drives[i], io);
      UnmountOneFacts(w, drives[i], io);
      CleanupReports(w, drives, i + 1, success && u.ok, u.io);
      CleanupUnmountsEach(w, drives, i + 1, success && u.ok, u.io);
      var r := UnmountFrom(w, drives, i + 1, success && u.ok, u.io);
      NoFailureReportSplit(u.io.log, r.io.log, |io.log|);
      assert NoFailureReport(u.io.log, |io.log|) <==> u.ok by {
        assert u.io.log[|io.log|] == Out(Unmounting(drives[i]));
        assert u.io.log[|io.log| + 1] == Out(if u.ok then Unmounted(drives[i]) else UnmountFailed(drives[i]));
      }
    }
  }

  /**
   * `run_backup` returns True exactly when the profile is valid and nothing
   * it printed or logged reports a failed mount, target directory,
   * pre-backup hook, source, post-backup hook or unmount.
   */
  lemma RunBackupResult(w: World, p: Profile, pathExists: string -> bool, st: State)
    ensures var r := RunBackup(w, p, pathExists, st);
            r.Finished? ==> (r.success <==> IsValid(p, pathExists) && NoFailureReport(r.st.io.log, |st.io.log|))
  {
    NoErrorsIffValid(p, pathExists);
    if IsValid(p, pathExists) {
      var st0 := st.(io := Say(st.io, Out(StartingProfile(p.name))));
      var pass := DestinationsFrom(w, p, 0, true, st0);
      DestinationsFromReports(w, p, 0, true, st0);
      DestinationsFromVisitsAll(w, p, 0, true, st0);
      if pass.Carried? {
        var c := UnmountFrom(w, pass.st.mounted, 0, pass.ok, pass.st.io);
        CleanupReports(w, pass.st.mounted, 0, pass.ok, pass.st.io);
        CleanupUnmountsEach(w, pass.st.mounted, 0, pass.ok, pass.st.io);
        NoFailureReportSplit(pass.st.io.log, c.io.log, |st0.io.log|);
        NoFailureReportSplit(st0.io.log, c.io.log, |st.io.log|);
      }
    }
  }

  // ---------------------------------------------------------------------
  // run_backup_to_destination

  /** The message of the TypeError the call at backup_engine.py:332-334 raises. */
  const MountArityError := "BackupEngine.mount_drive() takes 2 positional arguments but 3 were given"

  /**
   * `run_backup_to_destination(destination)` with the mount call made as
   * `mount_drive(destination)`, the only form the method's signature accepts.
   */
  function RunToDestination(w: World, p: Profile, d: Destination, st: State): Step {
    if !d.enabled then Step(Reply(false, DestinationDisabled), st)
    else if d.autoMount && d.driveDevice != "" then
      var m := Mount(w, d, st);
      if !m.reply.ok then Step(Reply(false, MountFailed(m.reply.message)), m.st)
      else PrepareTarget(w, p, d.targetPath, m.st)
    else PrepareTarget(w, p, d.targetPath, st)
  }

  /** `run_backup_to_destination` as written: the mount call raises a TypeError that the outer handler reports. */
  function RunToDestinationAsWritten(w: World, p: Profile, d: Destination, st: State): Step {
    if !d.enabled then Step(Reply(false, DestinationDisabled), st)
    else if d.autoMount && d.driveDevice != "" then Step(Reply(false, Unexpected(MountArityError)), st)
    else PrepareTarget(w, p, d.targetPath, st)
  }

  /**
   * Creating the target and setting up the log; an exception from the log
   * set-up is reported by the outer handler, with nothing logged since
   * `self.logger` is never set.
   */
  function PrepareTarget(w: World, p: Profile, target: string, st: State): Step {
    var made := Next(w, st.io);
    var io1 := Did(st.io, MakeDirs(target));
    if made.Raised? then Step(Reply(false, TargetFailed(made.message)), st.(io := io1))
    else
      var logged := Next(w, io1);
      var io2 := Did(io1, OpenLog(LogDir(target)));
      if logged.Raised? then Step(Reply(false, Unexpected(logged.message)), st.(io := io2))
      else
        var r := Deliver(w, p, target, SayAll(io2, Banner(p, target)));
        Step(r.reply, st.(io := r.io))
  }

  /** The reply of a destination run together with the record after it. */
  datatype Delivered = Delivered(reply: Reply, io: Io)

  /** The hooks and the sources of `run_backup_to_destination`, after the log is set up. */
  function Deliver(w: World, p: Profile, target: string, io: Io): Delivered {
    var pre := RunCustomCommands(w, p.preCommands, "pre-backup", io);
    if !pre.ok then Delivered(Reply(false, PreFailed), Say(pre.io, Error(PreFailed)))
    else
      var synced := SyncSourcesFrom(w, p.dryRun, p.sources, target, 0, [], pre.io);
      AfterSources(w, p, synced.failed, synced.io)
  }

  /** The end of `run_backup_to_destination`: the post-backup hooks run only when no source failed. */
  function AfterSources(w: World, p: Profile, failed: seq<string>, io: Io): Delivered {
    if failed != [] then Delivered(Reply(false, SourcesFailedReply(failed)), Say(io, Error(SourcesFailedLog(failed))))
    else
      var post := RunCustomCommands(w, p.postCommands, "post-backup", io);
      if !post.ok then Delivered(Reply(false, PostFailed), Say(post.io, Error(PostFailed)))
      else Delivered(Reply(true, BackupSucceeded), Say(post.io, Info(DestinationSucceeded)))
  }

  /** The messages of the failure replies of an enabled destination. */
  predicate IsFailureReply(m: Msg) {
    m.MountFailed? || m.TargetFailed? || m.Unexpected? || m.PreFailed? || m.SourcesFailedReply? || m.PostFailed?
  }

  /**
   * A disabled destination is refused without doing anything. A run
   * reports success exactly with the message "Backup completed
   * successfully", and an enabled destination that fails gets one of the
   * failure messages.
   */
  lemma DestinationReply(w: World, p: Profile, d: Destination, st: State)
    ensures !d.enabled ==> RunToDestination(w, p, d, st) == Step(Reply(false, DestinationDisabled), st)
    ensures var r := RunToDestination(w, p, d, st);
            && (r.reply.ok <==> r.reply.message == BackupSucceeded)
            && (d.enabled && !r.reply.ok ==> IsFailureReply(r.reply.message))
  {
    if d.enabled {
      if d.autoMount && d.driveDevice != "" {
        var m := Mount(w, d, st);
        if m.reply.ok {
          PrepareTargetReply(w, p, d.targetPath, m.st);
        }
      } else {
        PrepareTargetReply(w, p, d.targetPath, st);
      }
    }
  }

  lemma PrepareTargetReply(w: World, p: Profile, target: string, st: State)
    ensures var r := PrepareTarget(w, p, target, st);
            && (r.reply.ok <==> r.reply.message == BackupSucceeded)
            && (!r.reply.ok ==> IsFailureReply(r.reply.message) && !r.reply.message.MountFailed?)
  {
    var io1 := Did(st.io, MakeDirs(target));
    var io2 := Did(io1, OpenLog(LogDir(target)));
    var io3 := SayAll(io2, Banner(p, target));
    DeliverReply(w, p, target, io3);
  }

  lemma DeliverReply(w: World, p: Profile, target: string, io: Io)
    ensures var r := Deliver(w, p, target, io);
            && (r.reply.ok <==> r.reply.message == BackupSucceeded)
            && (!r.reply.ok ==> r.reply.message.PreFailed? || r.reply.message.SourcesFailedReply? || r.reply.message.PostFailed?)
  {
  }

  /**
   * Which failure gives which reply, in the order the steps run: a failed
   * mount of an auto-mount destination with a device, then the target
   * directory (the creation is the first effect after the mount), then the
   * log set-up (the next effect), whose exception the outer handler reports,
   * then the hooks and the sources.
   */
  lemma DestinationReplyCases(w: World, p: Profile, d: Destination, st: State)
    ensures var r := RunToDestination(w, p, d, st);
            var mounts := d.autoMount && d.driveDevice != "";
            var m := Mount(w, d, st);
            var st1 := if mounts then m.st else st;
            var n := |st1.io.effects|;
            var io2 := Did(Did(st1.io, MakeDirs(d.targetPath)), OpenLog(LogDir(d.targetPath)));
            && (d.enabled && mounts && !m.reply.ok ==> r == Step(Reply(false, MountFailed(m.reply.message)), m.st))
            && (d.enabled && (!mounts || m.reply.ok) ==>
                  && (w(n).Raised? ==> r.reply == Reply(false, TargetFailed(w(n).message)))
                  && (!w(n).Raised? && w(n + 1).Raised? ==> r.reply == Reply(false, Unexpected(w(n + 1).message)))
                  && (!w(n).Raised? && !w(n + 1).Raised? ==>
                        r.reply == Deliver(w, p, d.targetPath, SayAll(io2, Banner(p, d.targetPath))).reply))
  {
  }

  /**
   * The reply after the log is set up: "Pre-backup commands failed" when a
   * pre-backup hook fails, and nothing more is run; otherwise the failed
   * sources, named in source order, when any sync failed; otherwise "Post-
   * backup commands failed" when a post-backup hook fails; otherwise success.
   * The failed sources are exactly the enabled ones whose sync failed
   * (`FailuresExactly`), some of the enabled sources' paths in order.
   */
  lemma DeliverReportsFailedSources(w: World, p: Profile, target: string, io: Io)
    ensures var r := Deliver(w, p, target, io);
            var pre := RunCustomCommands(w, p.preCommands, "pre-backup", io);
            var synced := SyncSourcesFrom(w, p.dryRun, p.sources, target, 0, [], pre.io);
            var f := Failures(w, p.sources, 0, |pre.io.effects|);
            var post := RunCustomCommands(w, p.postCommands, "post-backup", synced.io);
            && (!pre.ok ==> r.reply == Reply(false, PreFailed) && r.io.effects == pre.io.effects)
            && (pre.ok && f != [] ==>
                  r.reply == Reply(false, SourcesFailedReply(PathsAt(p.sources, f))) &&
                  SubsequenceOfEnabled(PathsAt(p.sources, f), p.sources, 0))
            && (pre.ok && f == [] && !post.ok ==> r.reply == Reply(false, PostFailed))
            && (pre.ok && f == [] && post.ok ==> r.reply == Reply(true, BackupSucceeded))
  {
    var pre := RunCustomCommands(w, p.preCommands, "pre-backup", io);
    if pre.ok {
      SyncSourcesFailedExactly(w, p.dryRun, p.sources, target, 0, [], pre.io);
      SyncSourcesFailedAreEnabled(w, p.dryRun, p.sources, target, 0, [], pre.io);
      var synced := SyncSourcesFrom(w, p.dryRun, p.sources, target, 0, [], pre.io);
      assert synced.failed[0..] == synced.failed;
      assert [] + PathsAt(p.sources, Failures(w, p.sources, 0, |pre.io.effects|)) == synced.failed;
    }
  }

  /**
   * The post-backup hooks run only when every source synced: otherwise the
   * reply names the failed paths and nothing more is run. When all synced,
   * success is exactly the success of the post-backup hooks.
   */
  lemma PostHooksGate(w: World, p: Profile, failed: seq<string>, io: Io)
    ensures var r := AfterSources(w, p, failed, io);
            && (failed != [] ==> r.reply == Reply(false, SourcesFailedReply(failed)) && r.io.effects == io.effects)
            && (failed == [] ==> r.reply.ok == RunCustomCommands(w, p.postCommands, "post-backup", io).ok)
  {
  }

  // ---------------------------------------------------------------------
  // The mount call of run_backup_to_destination

  /** Apart from an auto-mount destination with a device, the method as written and the corrected one agree. */
  lemma AsWrittenAgreesWithoutAutoMount(w: World, p: Profile, d: Destination, st: State)
    ensures !(d.autoMount && d.driveDevice != "") ==> RunToDestinationAsWritten(w, p, d, st) == RunToDestination(w, p, d, st)
    ensures d.enabled && d.autoMount && d.driveDevice != "" ==>
              RunToDestinationAsWritten(w, p, d, st) == Step(Reply(false, Unexpected(MountArityError)), st)
  {
  }

  /** A world in which every process exits 0 without output and every filesystem call returns. */
  function AllSucceed(): World {
    k => Exited(0, "", "")
  }

  const ExampleDestination := Destination("/dev/sdb1", "/mnt/backup", "/mnt/backup/data", true, true)

  const ExampleProfile := Profile("home", [Source("/home/user", true)], [ExampleDestination], [], [],
                                  Schedule(false, 2, 0, AllDays), true, false, "", "")

  /**
   * An auto-mount destination with a device on which everything succeeds:
   * as written the run fails with the TypeError before doing anything,
   * while the corrected call backs up successfully.
   */
  lemma AutoMountDestinationExample()
    ensures RunToDestinationAsWritten(AllSucceed(), ExampleProfile, ExampleDestination, State([], Io([], []))).reply
            == Reply(false, Unexpected(MountArityError))
    ensures RunToDestination(AllSucceed(), ExampleProfile, ExampleDestination, State([], Io([], []))).reply
            == Reply(true, BackupSucceeded)
  {
    var w := AllSucceed();
    var p := ExampleProfile;
    var d := ExampleDestination;
    var m := Mount(w, d, State([], Io([], [])));
    assert m.reply == Reply(true, AlreadyMounted(d.mountPoint));
    var io1 := Did(m.st.io, MakeDirs(d.targetPath));
    var io2 := Did(io1, OpenLog(LogDir(d.targetPath)));
    var io3 := SayAll(io2, Banner(p, d.targetPath));
    var pre := RunCustomCommands(w, p.preCommands, "pre-backup", io3);
    assert pre.ok;
    var source := p.sources[0];
    var sync := Sync(w, p.dryRun, source.path, DestPath(source.path, d.targetPath), pre.io);
    assert sync.ok;
    var synced := SyncSourcesFrom(w, p.dryRun, p.sources, d.targetPath, 0, [], pre.io);
    assert synced == SyncSourcesFrom(w, p.dryRun, p.sources, d.targetPath, 1, [], sync.io);
    assert synced.failed == [];
    var post := RunCustomCommands(w, p.postCommands, "post-backup", synced.io);
    assert post.ok;
  }
}
