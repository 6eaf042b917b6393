# concrete-backup, modelled in Dafny

Concrete Backup is a desktop tool for Linux that backs up source directories
to one or more destinations, usually removable drives, with rsync. A backup
*profile* holds:

- the sources;
- the destinations, each with a drive device, a mount point and a target
  path;
- pre-backup and post-backup shell hooks;
- a weekly schedule.

Profiles are stored as YAML or JSON. This project models the core of the
tool:

- the profile configuration: data classes, validation, the dictionary
  round trip, listing and loading profiles;
- the backup engine: mounting, hooks, rsync, the per-destination and
  whole-run flows, and the cleanup that unmounts;
- the GUI's background worker;
- the cron manager, which puts a backup job in the root crontab, finds it
  and removes it;
- the two drive managers, which enumerate drives with `lsblk` and mount or
  unmount them;
- the schedule status shown in the main view;
- the sources tab's drive matching;
- the translation manager's language switching;
- the `.ts` catalogue updater.

External effects are modelled as follows:

- **Processes and filesystem calls.** A `World` (`nat -> Outcome`) gives the
  outcome of the k-th effect asked for. An `Outcome` is an exit code with
  stdout and stderr, or an exception. An `Io` value records the effects
  asked for and the lines logged or printed, in order.
- **Other inputs.** The crontab contents, the catalogue loader and
  `os.path.exists` are parameters, fields or functions.

The layout is:

- One Dafny module per source file. `Config` is `backup_config.py`.
  `backup_engine.py` is split into `EngineSteps` (one operation each),
  `EngineRuns` (the two backup flows) and `Engine` (the class).
- `Worker`, `Cron`, `Drives`, `ManagedDrives`, `ScheduleStatus`,
  `ConfigView`, `SourcesTab`, `Translation` and `TsCatalogue` cover the
  other core files.
- Shared helpers: `Wrappers` (Option and Result), `Text` (Python's
  `strip`, `split`, `join`, `str(int)` and `:02d` on strings), `Sorting`
  (Python's `sorted` on ints and strings), `Paths` (the `pathlib` operations
  the engine uses), `Effects` and `Messages` (every logged line and reply
  kept as a value).

Operations that work by updating state are Dafny methods:

- `BackupEngine`, `BackupWorker`, `CronManager`, both `DriveManager`
  classes, the sources tab and the translation manager are classes.
- Their loops carry invariants.
- Each method is proved equal to a specification function.
- What the source promises is proved about those functions as lemmas.

Where the design notes of the project and the code disagree, the model
follows the code:

- **Hooks run per destination.** `run_backup` runs the pre-backup and
  post-backup hooks once for every enabled destination, inside the
  destination loop, not once per run. A pre-hook failure skips only that
  destination.
- **Post-hooks are skipped after a source failure.** They run only when
  every source of that destination synced.
- **A failed unmount fails the run.** It sets the run's result to False.
  It is not merely reported.
- **There is no guaranteed cleanup.** An exception while setting up a
  destination's log leaves `run_backup` at once. Nothing is unmounted
  (`finally` is not used).
- **Only devices this run mounted are recorded.** A device goes into
  `mounted_drives` only when `udisksctl mount` or `sudo mount` exited 0.
  A mount point that was already mounted is not recorded.
- **The two drive managers mount differently.** The configuration tool's
  drive manager (`managers/drive_manager.py`) mounts with `sudo mount` only,
  never with udisksctl. It treats "not mounted" from `umount` as success.

## Model

| member | source | states |
|---|---|---|
| Config.NewSource | backup_config.py:15-24 | a source is built exactly when its path exists, keeping path and flag; otherwise the ValueError naming the path |
| Config.NewDestination | backup_config.py:27-39 | a destination is refused exactly when auto-mount is on without a device; a built one has the given fields and meets that invariant |
| Config.NewCommand | backup_config.py:42-48 | a new hook is enabled, with a 300 s timeout and an empty description |
| Config.NewSchedule | backup_config.py:51-61 | the given fields; no day list means all seven days |
| Config.DefaultSchedule | backup_config.py:51-61 | the default schedule is off, at 02:00, every day |
| Config.NewProfile | backup_config.py:64-89 | the profile keeps every given field, and a missing schedule becomes the default one |
| Config.DescribeAll | backup_config.py:204-239 | one message per problem, in order, each with the source's wording |
| Config.ValidateProfile | backup_config.py:204-239 | the loop builds the problem list: name, sources, destinations, each source, each destination, then the schedule |
| Config.CheckSources | backup_config.py:217-222 | the source loop appends one problem per source with an empty or missing path, in order |
| Config.CheckDestinations | backup_config.py:224-230 | the destination loop appends a missing-target and a missing-device problem per destination, in order |
| Config.SourceErrorsEmpty | backup_config.py:217-222 | no source problem exactly when every source has a non-empty path that exists |
| Config.DestinationErrorsEmpty | backup_config.py:224-230 | no destination problem exactly when every destination has a target and a device wherever it auto-mounts |
| Config.NoErrorsIffValid | backup_config.py:204-239 | the error list is empty exactly when the profile is valid: named, with sources and destinations, each well formed, and an enabled schedule within 0-23 h and 0-59 min |
| Config.EmptySourcePathReported | backup_config.py:218-220 | a source with an empty path is reported as "Path is required" under its own number |
| Config.SourceErrorsAreAboutSources | backup_config.py:217-222 | every source problem is a path problem about one of the sources checked |
| Config.DestinationErrorsAreAboutDestinations | backup_config.py:224-230 | every destination problem is a target or device problem about one of the destinations checked |
| Config.NameErrorFirst | backup_config.py:206-209 | a nameless profile's first error is the name error; a named one never has it |
| Config.SourcesRoundTrip | backup_config.py:241-269 | sources survive to-dict and back exactly when every path exists, and then come back equal |
| Config.DestinationsRoundTrip | backup_config.py:241-269 | destinations survive the round trip exactly when each keeps the device invariant, and then come back equal |
| Config.CommandsRoundTrip | backup_config.py:241-269 | hooks always survive the round trip unchanged |
| Config.DictRoundTrip | backup_config.py:241-269 | `_dict_to_profile(_profile_to_dict(p))` succeeds exactly when every source path exists and every destination keeps its invariant, and then gives back p |
| Config.MissingKeysDefaults | backup_config.py:256-269 | an empty dictionary gives the nameless profile with empty lists, the default schedule, logging on and no dry run |
| Config.StemRestores | backup_config.py:179-186 | a file name is its stem plus the extension, and that stem is not empty |
| Config.StemCollision | backup_config.py:179-180 | two different `.yaml` files share a stem only for ".yaml" and ".yaml.yaml" |
| Config.ListProfiles | backup_config.py:176-188 | the names are sorted, they are exactly the stems of the yaml, yml and json files, and without that one collision each appears once |
| Config.YamlStems | backup_config.py:178-180 | the first loop lists exactly the `.yaml` stems |
| Config.AddNewStems | backup_config.py:181-186 | a later loop adds exactly the new stems of its extension, keeping the list free of repeats |
| Config.ProfileFile | backup_config.py:157-159 | the file read is name.yaml, else name.yml, else name.json, the first that exists; none when none exists |
| Config.LoadProfile | backup_config.py:153-174 | a profile comes back exactly when a file exists, parses and converts; otherwise None |
| Paths.KeepComponents | backup_engine.py:171-172 | the parts kept are non-empty, not ".", and drawn from the pieces |
| Paths.Parse | backup_engine.py:171-172 | a parsed path is well formed |
| Paths.NameIsComponent | backup_engine.py:172 | `.name` of a path is empty or one real component |
| Paths.ChildNameParent | backup_engine.py:172 | `(p / name).name == name` and `(p / name).parent == p` |
| Paths.KeepComponentsIdentity | backup_engine.py:171-172 | parts that are already components are kept as they are |
| Paths.ParseStrRelative | backup_engine.py:186 | `Path(str(p)) == p` for a non-empty relative path |
| Effects.Argv | backup_engine.py:71-127 | the command lines of the processes; shell hooks, directory creation and log set-up have none |
| Effects.RsyncArgvShape | backup_engine.py:180-190 | rsync gets six arguments, the source with a trailing "/" then the destination, and "--dry-run" as a seventh exactly for a dry run |
| Engine.BackupEngine.constructor | backup_engine.py:23-35 | an engine starts with its profile, nothing mounted and nothing done |
| EngineSteps.MountRecordsOwnMounts | backup_engine.py:71-107 | mounting only appends effects and never logs; it adds the device to the mounted list exactly when a mount command was its last effect and exited 0, and then it succeeds; without auto-mount it does nothing |
| EngineSteps.UnmountSucceedsIff | backup_engine.py:109-127 | unmounting tries udisksctl, then sudo umount, and succeeds exactly when one of them exits 0 |
| EngineSteps.ShellRuns | backup_engine.py:129-166 | the effects of a hook phase are shell runs only |
| EngineSteps.RunHookRunsOnlyEnabled | backup_engine.py:133-164 | a disabled hook is skipped without running; an enabled one runs once, and the loop goes on exactly when it exited 0 |
| EngineSteps.HooksFromRunsEnabledFailFast | backup_engine.py:129-166 | a phase succeeds exactly when every command it ran exited 0; then it ran every enabled hook in order, and otherwise a non-empty prefix of them |
| EngineSteps.HooksFromFailFastLast | backup_engine.py:129-166 | a failed phase stops at the first failing hook: its last run failed and every run before it exited 0 |
| EngineSteps.HooksFromLogsOnly | backup_engine.py:129-166 | a hook phase only appends logger lines, each an information line or an error about a command, never printed ones |
| EngineSteps.HooksWithoutEnabledCommands | backup_engine.py:129-166 | a phase with no enabled hook succeeds and runs nothing |
| EngineSteps.NoEnabledNoRuns | backup_engine.py:133-136 | with every hook disabled, no shell command is run |
| EngineSteps.DestPathNamedLikeSource | backup_engine.py:171-172 | the copy goes to the entry of the destination named like the source, whose parent is the destination; for a nameless source it is the destination itself |
| EngineSteps.KeptLines | backup_engine.py:211-213 | at most one logged rsync line per output line |
| EngineSteps.KeptLinesComeFromOutput | backup_engine.py:211-213 | every logged rsync line is a non-blank output line |
| EngineSteps.KeptLinesKeepsNonBlank | backup_engine.py:211-213 | every non-blank output line is logged |
| EngineSteps.RsyncReport | backup_engine.py:197-213 | the rsync report is made of logger info lines |
| EngineSteps.RsyncReportBounded | backup_engine.py:199-213 | at most 52 lines are logged; short output is logged whole; long output gets the header, the first and last 25 non-blank lines and the truncation mark |
| EngineSteps.TransferSucceedsIff | backup_engine.py:180-218 | one rsync run with the source and `str(dest)`, succeeding exactly when it exits 0 |
| EngineSteps.TransferLogsOnly | backup_engine.py:193-218 | the transfer only appends logger lines, each an information line or an rsync error |
| EngineSteps.SyncSucceedsIffRsyncExitsZero | backup_engine.py:168-222 | a sync creates the parent directory and then, unless that raised, runs rsync; it succeeds exactly when rsync ran and exited 0 |
| EngineSteps.SyncLogsOnly | backup_engine.py:168-222 | a sync only appends logger lines, each an information line or a sync error |
| EngineSteps.SyncSourcesAttemptsEnabled | backup_engine.py:356-364 | the source loop creates the parent directory for each enabled source, in order, and no other |
| EngineSteps.SyncCreatesOneDirectory | backup_engine.py:168-222 | each sync creates exactly one directory, the destination's parent |
| EngineSteps.SyncSourcesFailedAreEnabled | backup_engine.py:356-364 | the failed paths are appended in order and are paths of enabled sources, as a subsequence |
| EngineSteps.SyncAtWorld | backup_engine.py:168-222 | a sync starting at effect n creates the parent first, takes one effect when that raised and two otherwise, and succeeds exactly when the creation did not raise and rsync exited 0 |
| EngineSteps.FailuresExactly | backup_engine.py:356-364 | the failing indices are increasing, and an index is among them exactly when its source is enabled and its sync, at the effect where it starts, fails |
| EngineSteps.SyncSourcesFailedExactly | backup_engine.py:356-364 | the failed list is exactly the paths of the enabled sources whose sync failed, in source order, appended to the earlier list |
| EngineSteps.SyncStartsAt | backup_engine.py:356-364 | the sync of each enabled source starts, at the effect where the failure index places it, by creating that source's destination parent |
| EngineSteps.SyncSourcesLogsOnly | backup_engine.py:356-364 | the source loop only appends logger lines, each an information line or a sync error |
| EngineRuns.ValidationReport | backup_engine.py:229-234 | the header line, then one line per error, in order |
| EngineRuns.ValidationGate | backup_engine.py:228-234 | an invalid profile gives False with no effect and nothing mounted, only the report printed |
| EngineRuns.DisabledDestinationSkipped | backup_engine.py:240-242 | a disabled destination only prints that it is skipped and leaves the result alone |
| EngineRuns.HooksGrow | backup_engine.py:129-166 | a hook phase only appends effects and lines |
| EngineRuns.SourcesGrow | backup_engine.py:276-285 | the source loop only appends effects and lines |
| EngineRuns.BackUpToGrows | backup_engine.py:269-298 | the logged part of a destination only appends effects and lines |
| EngineRuns.MountGrows | backup_engine.py:71-107 | mounting only appends effects and lines |
| EngineRuns.AfterMountGrows | backup_engine.py:246-302 | the rest of a destination only appends and mounts nothing more |
| EngineRuns.DestinationPassGrows | backup_engine.py:239-302 | one destination only appends, and an enabled one always prints "Processing destination" with its number and target |
| EngineRuns.DestinationPassMounts | backup_engine.py:239-302 | one destination adds at most its own device to the mounted list, and only when enabled with auto-mount |
| EngineRuns.DestinationsFromVisitsAll | backup_engine.py:239-302 | unless an exception escapes, every enabled destination is processed |
| EngineRuns.DestinationsFromMountsOwnDrives | backup_engine.py:239-302 | every device in the mounted list was already there or belongs to an enabled auto-mount destination |
| EngineRuns.DestinationsFromSuccess | backup_engine.py:239-302 | the loop never turns a failure back into success |
| EngineRuns.UnmountOneFacts | backup_engine.py:305-311 | each cleanup step tries to unmount that one device and prints the attempt and its outcome |
| EngineRuns.CleanupUnmountsEach | backup_engine.py:304-313 | cleanup tries to unmount every mounted device once, in order |
| EngineRuns.CleanupResult | backup_engine.py:304-313 | the run's result is True exactly when it was True before cleanup and no unmount failed |
| EngineRuns.HooksLogsOnly | backup_engine.py:129-166 | a hook phase run from the start only appends information lines and command errors |
| EngineRuns.BackUpToReports | backup_engine.py:269-298 | the hooks-and-sources part succeeds exactly when it reports no target, hook or destination failure |
| EngineRuns.AfterMountReports | backup_engine.py:246-302 | unless an exception escapes, the rest of a destination succeeds exactly when it reports no failure |
| EngineRuns.DestinationPassReports | backup_engine.py:239-302 | unless an exception escapes, one destination keeps the result True exactly when it was True and the destination reports no failure |
| EngineRuns.DestinationsFromReports | backup_engine.py:239-302 | unless an exception escapes, the loop ends True exactly when it started True and no destination reported a failure |
| EngineRuns.CleanupReports | backup_engine.py:304-313 | cleanup ends True exactly when it started True and no unmount failure was printed |
| EngineRuns.RunBackupResult | backup_engine.py:224-313 | when the run finishes, it returns True exactly when the profile is valid and no mount, target, hook, destination or unmount failure was reported |
| EngineRuns.DestinationReply | backup_engine.py:315-382 | a disabled destination is refused with nothing done; otherwise the reply is success exactly when its message is "Backup completed successfully", and a failure's message is a mount, target, unexpected, pre-hook, failed-sources or post-hook failure |
| EngineRuns.DestinationReplyCases | backup_engine.py:315-382 | which failure gives which reply: a failed mount gives the mount failure; the directory creation raising gives the target failure; the log set-up raising gives the unexpected error; otherwise the reply is that of the hooks and sources |
| EngineRuns.PrepareTargetReply | backup_engine.py:336-382 | after the mount, success exactly when the message is the success message; a failure is never a mount failure |
| EngineRuns.DeliverReply | backup_engine.py:350-376 | after the log set-up, success exactly when the message is the success message; a failure is a pre-hook, failed-sources or post-hook failure |
| EngineRuns.PostHooksGate | backup_engine.py:366-376 | with a failed source the reply lists the failed sources and no post-hook runs; otherwise the reply is the post-hook phase's result |
| EngineRuns.DeliverReportsFailedSources | backup_engine.py:350-376 | a pre-hook failure stops the destination; otherwise, when some sync failed, the reply lists exactly the enabled sources whose sync failed, in order; then a post-hook failure; otherwise success |
| EngineRuns.AsWrittenAgreesWithoutAutoMount | backup_engine.py:325-334 | the code as written agrees with the corrected one unless auto-mount is on with a device; then it always fails with the argument-count error |
| EngineRuns.AutoMountDestinationExample | backup_engine.py:330-334 | in a world where every call succeeds, an auto-mount destination fails as written and succeeds once corrected |
| Engine.BackupEngine.MountDrive | backup_engine.py:71-107 | `mount_drive(destination)` behaves as the mount specification, on the engine's effects and mounted list |
| Engine.BackupEngine.UnmountDrive | backup_engine.py:109-127 | `unmount_drive(device)` behaves as the unmount specification |
| Engine.BackupEngine.RunCustomCommands | backup_engine.py:129-166 | the hook loop equals the hook-phase specification |
| Engine.BackupEngine.RunCommand | backup_engine.py:133-164 | one loop iteration equals the single-hook specification |
| Engine.BackupEngine.LogLines | backup_engine.py:211-213 | the loop logs exactly the non-blank lines, in order |
| Engine.BackupEngine.LogTruncated | backup_engine.py:200-208 | long output logs the header, the non-blank lines among the first 25, the mark, then those among the last 25 |
| Engine.BackupEngine.LogRsyncOutput | backup_engine.py:195-213 | the output is logged as the rsync report says and nothing else changes |
| Engine.BackupEngine.SyncDirectory | backup_engine.py:168-222 | `sync_directory` equals the sync specification into `Path(destination) / Path(source).name` |
| Engine.BackupEngine.Transfer | backup_engine.py:180-218 | the rsync step equals its specification |
| Engine.BackupEngine.SyncSources | backup_engine.py:356-364 | the source loop equals its specification, failed paths included |
| Engine.BackupEngine.BackUpTo | backup_engine.py:269-298 | the hooks-and-sources part of `run_backup` equals its specification |
| Engine.BackupEngine.ProcessDestination | backup_engine.py:239-302 | one iteration of the destination loop equals its specification, an escaping exception included |
| Engine.BackupEngine.RunBackup | backup_engine.py:224-313 | `run_backup` equals its specification: validation, the destination loop, then cleanup |
| Engine.BackupEngine.ReportValidation | backup_engine.py:229-234 | the error report is printed line by line |
| Engine.BackupEngine.Cleanup | backup_engine.py:304-313 | the cleanup loop equals its specification |
| Engine.BackupEngine.RunBackupToDestination | backup_engine.py:315-382 | `run_backup_to_destination` with the mount call corrected equals its specification |
| Engine.BackupEngine.BackUpToTarget | backup_engine.py:336-382 | the part after the mount equals its specification |
| Engine.BackupEngine.FinishDestination | backup_engine.py:366-376 | the post-hook gate and final reply equal their specification |
| Worker.ConfigStore | gui/workers/backup_worker.py:29-42 | the worker loads with `load_profile` and validates with `validate_profile`'s messages |
| Worker.EnabledTargets | gui/workers/backup_worker.py:53-58 | at most one target per destination |
| Worker.VisitVerdict | gui/workers/backup_worker.py:53-74 | a disabled destination adds no result and does nothing; an enabled one adds one result for its target, successful exactly when the engine's reply is, a failure carrying the engine's message, and the total stays true exactly when it succeeded |
| Worker.VisitFromKeepsVerdicts | gui/workers/backup_worker.py:50-74 | results are only appended |
| Worker.VisitTargets | gui/workers/backup_worker.py:53-74 | one destination adds its target to the results exactly when enabled |
| Worker.VisitFromTargets | gui/workers/backup_worker.py:50-74 | the results name the enabled destinations' targets, in order |
| Worker.VisitFromSuccess | gui/workers/backup_worker.py:50-78 | the total is true exactly when it was before and every new result succeeded |
| Worker.VisitFromAnnounces | gui/workers/backup_worker.py:53-58 | every destination is announced, as "Backing up to i/n" or as skipped |
| Worker.VisitFromSignals | gui/workers/backup_worker.py:50-74 | the loop's signals do not depend on the signals before it |
| Worker.VisitFromFailureMessages | gui/workers/backup_worker.py:50-74 | every failed result carries one of the engine's failure messages |
| Worker.MissingProfile | gui/workers/backup_worker.py:29-34 | an unknown profile gives the start, the not-found error and a failed finish, with nothing done |
| Worker.InvalidProfile | gui/workers/backup_worker.py:36-42 | an invalid profile finishes failed with the validation messages joined by ", ", with nothing done |
| Worker.RunSummary | gui/workers/backup_worker.py:44-78 | a valid profile finishes with one result per enabled destination, in order, successful exactly when all results are, each failed result carrying an engine failure message |
| Worker.BackupWorker.constructor | gui/workers/backup_worker.py:19-22 | a worker starts for its profile name, with no signal emitted |
| Worker.BackupWorker.Run | gui/workers/backup_worker.py:24-83 | `run()` emits exactly the signals of its specification |
| Worker.BackupWorker.RunLoaded | gui/workers/backup_worker.py:36-78 | the part after loading emits exactly the signals of its specification |
| Worker.BackupWorker.BackUpAll | gui/workers/backup_worker.py:50-75 | the destination loop equals its specification: signals, total and results |
| Worker.BackupWorker.BackUpToDestination | gui/workers/backup_worker.py:53-74 | one loop iteration equals its specification |
| Cron.CronDays | cron_manager.py:38-44 | one cron day per day, Sunday (6) as "0" and day d as d+1 |
| Cron.GenerateCronExpression | cron_manager.py:25-46 | the method builds the cron expression of the schedule |
| Cron.ConvertDays | cron_manager.py:38-44 | the loop gives the cron days, in order |
| Cron.CronDayIsShifted | cron_manager.py:40-43 | for 0..6 the cron day is (d + 1) mod 7 |
| Cron.DayFieldHasNoSpace | cron_manager.py:35-44 | the day field holds no space |
| Cron.CronExpressionFields | cron_manager.py:25-46 | a disabled schedule gives ""; an enabled one splits into minute, hour, "*", "*" and the day field |
| Cron.DayFieldLists | cron_manager.py:38-44 | a specific-days field splits at "," into the cron days |
| Cron.ValidateSchedule | cron_manager.py:220-236 | the method builds the schedule's error list |
| Cron.CheckDays | cron_manager.py:231-234 | the day loop gives its errors in order |
| Cron.DayErrorsCount | cron_manager.py:231-234 | one identical error per day outside 0..6 |
| Cron.ScheduleErrorsCount | cron_manager.py:220-236 | a disabled schedule has no errors; an enabled one has one error per bad hour, bad minute and bad day; none exactly when all are in range |
| Cron.ProfileCheckAgrees | backup_config.py:232-237 | the profile check finds the cron manager's errors except the day errors |
| Cron.DayNamesOf | cron_manager.py:274 | the full day name of each day |
| Cron.NextRunNamesDays | cron_manager.py:272-278 | for specific days, a text exactly when every day has a name (-7..6), and it ends " at HH:MM"; otherwise "Invalid schedule" |
| Cron.NextRunDaily | cron_manager.py:238-278 | None exactly when disabled; for every day, a daily time exactly when the time is in range, otherwise "Invalid schedule" |
| Cron.DaysTextNamed | cron_manager.py:274 | the day names exist exactly when every day has a name |
| Cron.FilterCrontab | cron_manager.py:143-156 | the filter loop keeps exactly the surviving lines |
| Cron.SurvivorsAreLines | cron_manager.py:146-156 | every kept line is a crontab line that survives the filter |
| Cron.CleanLinesSurvive | cron_manager.py:146-156 | lines without the job comment and not blank are all kept |
| Cron.RewrittenShape | cron_manager.py:158-161 | nothing kept gives ""; otherwise the lines joined by newlines, ending in one |
| Cron.KeptAreClean | cron_manager.py:146-156 | kept lines never hold the job comment and are never blank |
| Cron.RemovedJobsShape | cron_manager.py:135-163 | the new crontab is empty exactly when nothing was kept; otherwise it ends in a newline and its lines are the kept ones, none with the job comment and none blank |
| Cron.RemoveIsIdempotent | cron_manager.py:135-163 | removing the jobs twice is removing them once |
| Cron.IsJobLineStripped | cron_manager.py:210-211 | a line counts as a job exactly when it strips to something not starting with "#" |
| Cron.FirstJobFrom | cron_manager.py:205-214 | the first comment line followed by a job line, or none if there is none |
| Cron.JobStatus | cron_manager.py:201-214 | a status found is not empty and not a comment |
| Cron.RemovedHasNoJob | cron_manager.py:135-214 | after removal, no backup job is found |
| Cron.CronExpressionAvoids | cron_manager.py:25-46 | the expression holds only digits, "-", ",", "*" and spaces |
| Cron.CronExpressionStart | cron_manager.py:25-46 | an enabled schedule's expression starts with a digit or "-" |
| Cron.JobEntryLines | cron_manager.py:184-185 | the job entry is the comment line and the job line, ending in a newline |
| Cron.AppendedLines | cron_manager.py:184-190 | the new crontab's lines are the kept lines followed by the job entry's |
| Cron.AddedJobIsFound | cron_manager.py:165-214 | after adding a job, the status is the stripped job line |
| Cron.AppendedJobIsFound | cron_manager.py:184-212 | appending any well-formed entry makes its job line the status |
| Cron.FirstJobAfter | cron_manager.py:205-212 | the first comment line followed by a job line is found |
| Cron.AddJobOutcomes | cron_manager.py:165-199 | disabled gives "Schedule is not enabled"; a script error gives the error message; success means enabled, a script, the expression reported, the crontab accepted and the job found |
| Cron.CronManager.constructor | cron_manager.py:19-23 | the manager starts on the given crontab and its command outcomes |
| Cron.CronManager.CurrentCrontab | cron_manager.py:102-112 | the crontab, or "" when it cannot be read |
| Cron.CronManager.SetCrontab | cron_manager.py:114-133 | installs the content exactly when crontab accepts it |
| Cron.CronManager.RemoveBackupJobs | cron_manager.py:135-163 | installs the crontab without backup jobs, when accepted |
| Cron.CronManager.AddBackupJob | cron_manager.py:165-199 | equals the add-job specification, reply and crontab |
| Cron.CronManager.GetBackupJobStatus | cron_manager.py:201-214 | the loop finds the job status of the current crontab |
| Cron.CronManager.IsBackupScheduled | cron_manager.py:216-218 | scheduled exactly when a job status is found |
| Drives.WalkConcat | drive_manager.py:57-90 | walking two device lists is walking each in turn |
| Drives.SkippedSubtreeVanishes | drive_manager.py:63-67 | a loop, ram or rom device is dropped with all its children |
| Drives.DeviceBeforeChildren | drive_manager.py:84-90 | a listed device comes right before its children |
| Drives.WalkEntries | drive_manager.py:57-90 | every entry is "/dev/" plus a name not starting with loop or ram, has a filesystem or is removable, and is mounted exactly when it has a mount point |
| Drives.VisitEntries | drive_manager.py:59-90 | the same of one device's subtree |
| Drives.RefreshOutcome | drive_manager.py:38-55 | one lsblk run; it raises exactly when lsblk could not run or the key is missing; a non-empty list needs a device tree, and every entry is proper |
| Drives.MountTriesInOrder | drive_manager.py:92-123 | findmnt, directory, udisksctl, sudo mount, in order, stopping at the first that settles it; success exactly when already mounted or a mount command exits 0 |
| Drives.MountAsInEngine | drive_manager.py:92-123 | it mounts exactly as the engine does for an auto-mount destination |
| Drives.DriveManager.constructor | drive_manager.py:35-36 | the manager starts with no drives and nothing done |
| Drives.DriveManager.RefreshDrives | drive_manager.py:38-55 | equals the refresh specification, the drive list included |
| Drives.DriveManager.ParseLsblkOutput | drive_manager.py:57-90 | appends exactly the walk of the devices |
| Drives.DriveManager.ParseDevice | drive_manager.py:59-90 | appends exactly one device's subtree |
| Drives.DriveManager.MountDrive | drive_manager.py:92-123 | equals the mount specification |
| Drives.DriveManager.UnmountDrive | drive_manager.py:125-143 | equals the engine's unmount |
| ManagedDrives.Refresh | managers/drive_manager.py:40-64 | one lsblk run |
| ManagedDrives.RefreshAsOnBackupSide | managers/drive_manager.py:40-64 | the same list as the other drive manager, with any error giving an empty one |
| ManagedDrives.MountSkipsUdisks | managers/drive_manager.py:101-132 | findmnt, directory, sudo mount, never udisksctl; success exactly when already mounted or sudo mount exits 0 |
| ManagedDrives.UnmountToleratesUnmounted | managers/drive_manager.py:134-157 | one sudo umount; success exactly when it exits 0 or says "not mounted" |
| ManagedDrives.DriveManager.constructor | managers/drive_manager.py:36-38 | the manager starts with no drives and nothing done |
| ManagedDrives.DriveManager.RefreshDrives | managers/drive_manager.py:40-64 | equals the refresh specification |
| ManagedDrives.DriveManager.MountDrive | managers/drive_manager.py:101-132 | equals the mount specification |
| ManagedDrives.DriveManager.UnmountDrive | managers/drive_manager.py:134-157 | equals the unmount specification |
| ScheduleStatus.BelowSeven | managers/schedule_status_manager.py:51 | the days kept are all below 7 |
| ScheduleStatus.ShortName | managers/schedule_status_manager.py:50-51 | a short day name has three letters |
| ScheduleStatus.ShortNames | managers/schedule_status_manager.py:51 | one name per day |
| ScheduleStatus.BelowSevenCounts | managers/schedule_status_manager.py:51 | each day below 7 is kept as often as chosen, and no other |
| ScheduleStatus.BelowSevenSorted | managers/schedule_status_manager.py:51 | filtering keeps sorted order |
| ScheduleStatus.NamedDaysLength | managers/schedule_status_manager.py:43-52 | named days never give a five-letter text |
| ScheduleStatus.FormatDaysDailyNever | managers/schedule_status_manager.py:43-52 | "Daily" exactly for all seven days in any order; "Never" exactly for no days |
| ScheduleStatus.ShownDays | managers/schedule_status_manager.py:49-52 | the days shown are sorted, and are the days below 7, each as often as chosen |
| ScheduleStatus.ShownInRange | managers/schedule_status_manager.py:51 | every day shown is at least -7 exactly when every day chosen is |
| ScheduleStatus.FormatDaysRaises | managers/schedule_status_manager.py:43-52 | formatting named days raises exactly when some day is below -7 |
| ScheduleStatus.ActiveWhenScheduled | managers/schedule_status_manager.py:18-25 | active exactly when the schedule is on and a job is found |
| ScheduleStatus.DisplayInfoCases | managers/schedule_status_manager.py:27-41 | inactive gives grey "Manual Mode"; active gives blue "Scheduled Mode - HH:MM ...", raising only when formatting the days raises |
| ConfigView.TruncateFits | gui/backup_config_view.py:56-60 | a fitting text is unchanged; a longer one is cut to the limit and ends "..." |
| ConfigView.TruncateIdempotent | gui/backup_config_view.py:56-60 | truncating twice is truncating once |
| ConfigView.ReadyExactly | gui/backup_config_view.py:181-201 | ready exactly with a profile that has a source and a destination; otherwise the first missing item |
| ConfigView.ViewAgreesWithStatusManager | gui/backup_config_view.py:399-435 | the view shows the status manager's text cut to 40 characters, blue exactly when active, raising exactly when it does |
| SourcesTab.BestDrive | gui/tabs/sources_tab.py:94-103 | the drive chosen holds the path |
| SourcesTab.BestDriveIsLongest | gui/tabs/sources_tab.py:94-105 | a drive is chosen exactly when one holds the path; it has the longest mount point; ties keep the first |
| SourcesTab.MatchDrive | gui/tabs/sources_tab.py:88-105 | the loop gives "device → " of the best drive, or "" |
| SourcesTab.LabelEnds | gui/tabs/sources_tab.py:114-117 | a label starts with the tick or cross and ends with the path |
| SourcesTab.LoadSourcesItems | gui/tabs/sources_tab.py:107-117 | one entry per source, in order |
| SourcesTab.LoadSourcesEffects | gui/tabs/sources_tab.py:107-117 | one lsblk run per source and nothing else |
| SourcesTab.Tab.constructor | gui/tabs/sources_tab.py:21-26 | the tab starts with an empty list and its drive manager |
| SourcesTab.Tab.GetDriveForPath | gui/tabs/sources_tab.py:88-105 | refreshes the drives, then matches |
| SourcesTab.Tab.LoadFromProfile | gui/tabs/sources_tab.py:107-117 | equals the load specification |
| Translation.CodeOf | localization/translation.py:71-73 | the catalogue is "concrete_backup_" + code + ".qm" |
| Translation.GetAvailableLanguages | localization/translation.py:65-77 | sorted, each once, "en" included, exactly "en" and the catalogue codes found |
| Translation.CollectCodes | localization/translation.py:67-75 | "en" first, then each code found, each once |
| Translation.LanguagePartIsPrefix | localization/translation.py:31-36 | the part before the first "_" |
| Translation.SetLanguageOutcome | localization/translation.py:23-63 | coherent state; no application changes nothing; success exactly for "en" or a catalogue that loads; the language asked for on success, "en" on failure |
| Translation.TranslationManager.constructor | localization/translation.py:15-21 | the manager starts in English with no translator |
| Translation.TranslationManager.SetLanguageTo | localization/translation.py:23-63 | equals the specification |
| TsCatalogue.FindFrom | localization/manage_translations.py:82-87 | the first MainWindow context, or none if there is none |
| TsCatalogue.FindMainWindow | localization/manage_translations.py:81-92 | the loop finds that first context |
| TsCatalogue.KeptText | localization/manage_translations.py:96-104 | a kept translation is never empty |
| TsCatalogue.Preserved | localization/manage_translations.py:117-119 | a preserved translation is never empty |
| TsCatalogue.NewMessages | localization/manage_translations.py:110-124 | one message per string, in order |
| TsCatalogue.NonMessages | localization/manage_translations.py:106-108 | no message is left |
| TsCatalogue.UpdateTsFile | localization/manage_translations.py:67-129 | the update equals its specification |
| TsCatalogue.CollectExisting | localization/manage_translations.py:94-104 | the loop builds the existing-message map |
| TsCatalogue.RemoveMessages | localization/manage_translations.py:106-108 | the loop removes exactly the messages |
| TsCatalogue.AppendMessages | localization/manage_translations.py:110-124 | the loop appends the new messages |
| TsCatalogue.NonMessagesIdempotent | localization/manage_translations.py:106-108 | removing messages twice is removing them once |
| TsCatalogue.FirstNameIgnoresMessages | localization/manage_translations.py:83-87 | messages do not affect the context's name |
| TsCatalogue.ExistingOfNew | localization/manage_translations.py:94-124 | the new messages preserve the translations |
| TsCatalogue.NewMessageContent | localization/manage_translations.py:110-124 | source set; a non-empty old translation is kept without a type; otherwise empty and "unfinished" |
| TsCatalogue.UpdatedContextMessages | localization/manage_translations.py:94-124 | the other children are kept first, then one message per string in sorted order, with the old translations |
| TsCatalogue.UpdatedContextStable | localization/manage_translations.py:94-124 | updating the context again changes nothing |
| TsCatalogue.UpdateKeepsRoot | localization/manage_translations.py:71-92 | the root's attributes are kept, only the MainWindow context changes or is appended, and it is found afterwards |
| TsCatalogue.UpdateIdempotent | localization/manage_translations.py:67-129 | running the updater twice is running it once |

## Left out

- **Real I/O.** Processes, the filesystem, the clock and the threads are not
  modelled. Their outcomes are the `World` parameter.
- **`setup_logging`.** Its logger and its handlers are not modelled. The log
  file's timestamped name and the console handler are left out. Setting up
  the log is one effect that may raise.
- **The backup engine's other parts.** Its constructor and its `main`
  (`backup_engine.py:385-410`) are not part of this model. The constructor
  loads a profile by name; here the engine is given a profile.
- **Saving and deleting profiles.** `save_profile`, `delete_profile`,
  `create_profile` and the timestamps are not part of this model.
- **YAML and JSON parsing.** This is a parameter that gives a dictionary or
  None. A JSON `null` and a missing key are not told apart. Unknown keys
  raise a `TypeError` in the source; that error is not modelled.
- **`create_backup_script`.** It writes a file (`cron_manager.py:48-100`).
  It is a parameter giving a path or an error.
- **The crontab commands.** `set_crontab` uses a temporary file and the
  `crontab` command. Both are modelled as one acceptance test of the
  content.
- **The daily next-run text.** For a daily schedule, `get_next_run_time`
  answers "Today", "Tomorrow" or "Daily at". That depends on the clock, so
  it is modelled as one daily answer with the time.
- **Qt.** Widgets, message boxes, style calls other than those of
  `update_schedule_status`, and `retranslate_ui` are not modelled. The
  module-level wrappers are not modelled either, and neither is
  `get_current_language`, a plain getter.
- **The other translation-script functions.** `extract_strings` (a regular
  expression over the Python files) is not part of this model. Neither are
  `create_translation`, `compile_translations`, `open_linguist` or `main` of
  `manage_translations.py`.
- **The catalogue file itself.** Parsing, `ET.indent` and writing the XML
  are not modelled. The updater gets the parsed tree, or None for a missing
  or unreadable file. It gives back the new tree.
- **Catalogue details.** A message with no source text is stored under the
  key `None`; the model has no such key. Contexts other than MainWindow are
  carried along unchanged.
- **The worker's outer `except`.** The handler at
  `gui/workers/backup_worker.py:80-83` catches what `BackupEngine(...)` or
  the configuration manager raise. Those constructors are not part of this
  model. With the corrected engine, the per-destination handler at lines
  70-74 is never reached.
- Worker.VisitVerdict: the worker calls the corrected
  `run_backup_to_destination` (see "## Findings"). As written, an enabled
  destination with `auto_mount` on and a drive device always gets the reply
  (False, "Unexpected error during backup: ...") with the argument-count
  message. `EngineRuns.AsWrittenAgreesWithoutAutoMount` shows that the two
  agree for every other destination.
- Worker.Visit: runs the corrected engine, with the same difference.
- Worker.VisitFromFailureMessages: about the corrected engine's replies,
  with the same difference.
- Worker.RunSummary: summarises the corrected engine's replies, with the
  same difference.
- Worker.BackupWorker.Run: runs the corrected engine, with the same
  difference.
- Worker.BackupWorker.RunLoaded: runs the corrected engine, with the same
  difference.
- Worker.BackupWorker.BackUpAll: runs the corrected engine, with the same
  difference.
- Worker.BackupWorker.BackUpToDestination: runs the corrected engine, with
  the same difference.
- Paths.Parse: a leading "//" collapses to one root "/". `pathlib` keeps
  "//" as a root of its own.
- ManagedDrives.Refresh: when an exception is raised part-way through the
  device loop, `managers/drive_manager.py:40-64` returns the drives parsed
  so far; the model gives the empty list for every error. The `logger`
  calls of that file are not modelled.
- **The argument-count `TypeError`.** As written, `run_backup_to_destination`
  raises it. It is modelled as a constant message, not as Python's exact
  wording.
- **Hook timeouts.** They are an outcome of the `World`, like any other
  exception.

## Findings

| source | as written | input that shows it | evidently intended | confidence | as-written member | corrected member |
|---|---|---|---|---|---|---|
| backup_engine.py:332 | `self.mount_drive(destination.drive_device, destination.mount_point)` passes two arguments to `mount_drive(self, destination)` (line 71). The call raises a `TypeError`, and the outer handler turns it into the reply (False, "Unexpected error during backup: ..."). | An enabled destination with `auto_mount` on and a non-empty `drive_device`, in a world where every command succeeds. Every GUI backup to such a destination fails. | `self.mount_drive(destination)`: mount, then back up, as `run_backup` does at line 247 | not executed | EngineRuns.AutoMountDestinationExample | EngineRuns.DestinationReply |
