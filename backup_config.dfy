/**
 * Backup profiles (backup_config.py): the dataclasses and the checks their
 * constructors make, the profile validator, the dictionary form profiles are
 * stored in, and the profile listing and loading rules of the configuration
 * manager. File contents and the YAML/JSON codecs are parameters: a profile
 * file is whatever dictionary its parser returns.
 */
module Config {
  import opened Wrappers
  import opened Text
  import opened Sorting

  datatype Source = Source(path: string, enabled: bool)

  datatype Destination = Destination(
    driveDevice: string,
    mountPoint: string,
    targetPath: string,
    enabled: bool,
    autoMount: bool)

  datatype Command = Command(command: string, description: string, enabled: bool, timeout: int)

  /** Days count from 0 = Monday to 6 = Sunday. */
  datatype Schedule = Schedule(enabled: bool, hour: int, minute: int, daysOfWeek: seq<int>)

  datatype Profile = Profile(
    name: string,
    sources: seq<Source>,
    destinations: seq<Destination>,
    preCommands: seq<Command>,
    postCommands: seq<Command>,
    schedule: Schedule,
    logEnabled: bool,
    dryRun: bool,
    createdAt: string,
    modifiedAt: string)

  /** The exceptions a dataclass constructor raises: its own ValueError, or Python's TypeError for a missing argument. */
  datatype ConfigError = ValueError(message: string) | MissingArgument(field: string)

  const AllDays: seq<int> := [0, 1, 2, 3, 4, 5, 6]

  /** `BackupSource(path, enabled)`: the path must exist when the source is built. */
  function NewSource(path: string, enabled: bool, pathExists: string -> bool): (r: Result<Source, ConfigError>)
    ensures r.Success? <==> pathExists(path)
    ensures r.Success? ==> r.value.path == path && r.value.enabled == enabled
    ensures r.Failure? ==> r.error == ValueError("Source path does not exist: " + path)
  {
    if !pathExists(path) then Failure(ValueError("Source path does not exist: " + path))
    else Success(Source(path, enabled))
  }

  predicate DeviceInvariant(d: Destination) {
    d.autoMount ==> d.driveDevice != ""
  }

  /** `BackupDestination(...)`: an auto-mounted destination needs a device. */
  function NewDestination(device: string, mountPoint: string, targetPath: string, enabled: bool, autoMount: bool)
    : (r: Result<Destination, ConfigError>)
    ensures r.Success? <==> !(autoMount && device == "")
    ensures r.Success? ==> DeviceInvariant(r.value)
    ensures r.Success? ==> r.value == Destination(device, mountPoint, targetPath, enabled, autoMount)
    ensures r.Failure? ==> r.error == ValueError("Drive device required when auto_mount is enabled")
  {
    if autoMount && device == "" then Failure(ValueError("Drive device required when auto_mount is enabled"))
    else Success(Destination(device, mountPoint, targetPath, enabled, autoMount))
  }

  /** `CustomCommand(command)`: enabled, no description, a 300-second timeout. */
  function NewCommand(command: string): (c: Command)
    ensures c.command == command && c.enabled && c.timeout == 300 && c.description == ""
  {
    Command(command, "", true, 300)
  }

  /** `ScheduleConfig(...)`: a missing day list means every day; an empty list stays empty. */
  function NewSchedule(enabled: bool, hour: int, minute: int, days: Option<seq<int>>): (s: Schedule)
    ensures days.None? ==> s.daysOfWeek == AllDays
    ensures days.Some? ==> s.daysOfWeek == days.value
    ensures s.enabled == enabled && s.hour == hour && s.minute == minute
  {
    Schedule(enabled, hour, minute, if days.None? then AllDays else days.value)
  }

  /** `ScheduleConfig()`: disabled, at 02:00, every day. */
  function DefaultSchedule(): (s: Schedule)
    ensures !s.enabled && s.hour == 2 && s.minute == 0 && s.daysOfWeek == AllDays
  {
    NewSchedule(false, 2, 0, None)
  }

  /** `BackupProfile(...)`: a missing schedule becomes the default one. */
  function NewProfile(
    name: string, sources: seq<Source>, destinations: seq<Destination>,
    preCommands: seq<Command>, postCommands: seq<Command>, schedule: Option<Schedule>,
    logEnabled: bool, dryRun: bool, createdAt: string, modifiedAt: string): (p: Profile)
    ensures schedule.None? ==> p.schedule == DefaultSchedule()
    ensures schedule.Some? ==> p.schedule == schedule.value
    ensures p.name == name && p.sources == sources && p.destinations == destinations
    ensures p.preCommands == preCommands && p.postCommands == postCommands
    ensures p.logEnabled == logEnabled && p.dryRun == dryRun
  {
    Profile(name, sources, destinations, preCommands, postCommands,
            if schedule.None? then DefaultSchedule() else schedule.value,
            logEnabled, dryRun, createdAt, modifiedAt)
  }

  // ---------------------------------------------------------------------
  // validate_profile

  /**
   * The problems `validate_profile` reports, in the words `Describe` gives
   * them. Sources and destinations are numbered from 0 here and from 1 in
   * the messages.
   */
  datatype Problem =
    | NameRequired
    | NoSources
    | NoDestinations
    | PathRequired(source: nat)
    | PathMissing(source: nat, path: string)
    | TargetRequired(destination: nat)
    | DeviceRequired(destination: nat)
    | HourOutOfRange
    | MinuteOutOfRange

  /** The message `validate_profile` gives for a problem. */
  function Describe(e: Problem): string {
    match e
    case NameRequired => "Profile name is required"
    case NoSources => "At least one source directory is required"
    case NoDestinations => "At least one destination is required"
    case PathRequired(i) => "Source " + IntToString(i + 1) + ": Path is required"
    case PathMissing(i, path) => "Source " + IntToString(i + 1) + ": Path does not exist: " + path
    case TargetRequired(i) => "Destination " + IntToString(i + 1) + ": Target path is required"
    case DeviceRequired(i) => "Destination " + IntToString(i + 1) + ": Drive device required for auto-mount"
    case HourOutOfRange => "Schedule hour must be between 0 and 23"
    case MinuteOutOfRange => "Schedule minute must be between 0 and 59"
  }

  function DescribeAll(es: seq<Problem>): (r: seq<string>)
    ensures |r| == |es| && forall k :: 0 <= k < |es| ==> r[k] == Describe(es[k])
  {
    if es == [] then [] else [Describe(es[0])] + DescribeAll(es[1..])
  }

  function HeaderErrors(p: Profile): seq<Problem> {
    (if p.name == "" then [NameRequired] else []) +
    (if p.sources == [] then [NoSources] else []) +
    (if p.destinations == [] then [NoDestinations] else [])
  }

  /** The errors for source number i (counted from 0, reported from 1). */
  function SourceError(i: nat, s: Source, pathExists: string -> bool): seq<Problem> {
    if s.path == "" then [PathRequired(i)]
    else if !pathExists(s.path) then [PathMissing(i, s.path)]
    else []
  }

  /** The errors of the first n sources, in list order. */
  function SourceErrors(sources: seq<Source>, n: nat, pathExists: string -> bool): seq<Problem>
    requires n <= |sources|
  {
    if n == 0 then [] else SourceErrors(sources, n - 1, pathExists) + SourceError(n - 1, sources[n - 1], pathExists)
  }

  function DestinationError(i: nat, d: Destination): seq<Problem> {
    (if d.targetPath == "" then [TargetRequired(i)] else []) +
    (if d.autoMount && d.driveDevice == "" then [DeviceRequired(i)] else [])
  }

  function DestinationErrors(destinations: seq<Destination>, n: nat): seq<Problem>
    requires n <= |destinations|
  {
    if n == 0 then [] else DestinationErrors(destinations, n - 1) + DestinationError(n - 1, destinations[n - 1])
  }

  function ScheduleRangeErrors(s: Schedule): seq<Problem> {
    if !s.enabled then []
    else
      (if !(0 <= s.hour <= 23) then [HourOutOfRange] else []) +
      (if !(0 <= s.minute <= 59) then [MinuteOutOfRange] else [])
  }

  /** Every error `validate_profile` reports, in the order it reports them. */
  function ProfileErrors(p: Profile, pathExists: string -> bool): seq<Problem> {
    HeaderErrors(p) + SourceErrors(p.sources, |p.sources|, pathExists) +
    DestinationErrors(p.destinations, |p.destinations|) + ScheduleRangeErrors(p.schedule)
  }

  predicate SourceOk(s: Source, pathExists: string -> bool) {
    s.path != "" && pathExists(s.path)
  }

  predicate DestinationOk(d: Destination) {
    d.targetPath != "" && DeviceInvariant(d)
  }

  /** What a valid profile is, stated field by field. */
  predicate IsValid(p: Profile, pathExists: string -> bool) {
    && p.name != ""
    && p.sources != []
    && p.destinations != []
    && (forall i :: 0 <= i < |p.sources| ==> SourceOk(p.sources[i], pathExists))
    && (forall i :: 0 <= i < |p.destinations| ==> DestinationOk(p.destinations[i]))
    && (p.schedule.enabled ==> 0 <= p.schedule.hour <= 23 && 0 <= p.schedule.minute <= 59)
  }

  /** `validate_profile`: the header checks, then each source, each destination, then the schedule. */
  method ValidateProfile(p: Profile, pathExists: string -> bool) returns (errors: seq<Problem>)
    ensures errors == ProfileErrors(p, pathExists)
  {
    errors := [];
    if p.name == "" {
      errors := errors + [NameRequired];
    }
    if p.sources == [] {
      errors := errors + [NoSources];
    }
    if p.destinations == [] {
      errors := errors + [NoDestinations];
    }
    assert errors == HeaderErrors(p);
    errors := CheckSources(errors, p.sources, pathExists);
    errors := CheckDestinations(errors, p.destinations);
    ghost var listed := errors;
    if p.schedule.enabled {
      if !(0 <= p.schedule.hour <= 23) {
        errors := errors + [HourOutOfRange];
      }
      if !(0 <= p.schedule.minute <= 59) {
        errors := errors + [MinuteOutOfRange];
      }
    }
    assert errors == listed + ScheduleRangeErrors(p.schedule);
  }

  /** The source loop of `validate_profile`: appends the errors of every source, in order. */
  method CheckSources(errors: seq<Problem>, sources: seq<Source>, pathExists: string -> bool) returns (r: seq<Problem>)
    ensures r == errors + SourceErrors(sources, |sources|, pathExists)
  {
    r := errors;
    var i := 0;
    while i < |sources|
      invariant 0 <= i <= |sources|
      invariant r == errors + SourceErrors(sources, i, pathExists)
    {
      var source := sources[i];
      ghost var before := r;
      if source.path == "" {
        r := r + [PathRequired(i)];
      } else if !pathExists(source.path) {
        r := r + [PathMissing(i, source.path)];
      }
      assert r == before + SourceError(i, source, pathExists);
      i := i + 1;
    }
  }

  /** The destination loop of `validate_profile`. */
  method CheckDestinations(errors: seq<Problem>, destinations: seq<Destination>) returns (r: seq<Problem>)
    ensures r == errors + DestinationErrors(destinations, |destinations|)
  {
    r := errors;
    var j := 0;
    while j < |destinations|
      invariant 0 <= j <= |destinations|
      invariant r == errors + DestinationErrors(destinations, j)
    {
      var dest := destinations[j];
      ghost var before := r;
      if dest.targetPath == "" {
        r := r + [TargetRequired(j)];
      }
      if dest.autoMount && dest.driveDevice == "" {
        r := r + [DeviceRequired(j)];
      }
      assert r == before + DestinationError(j, dest);
      j := j + 1;
    }
  }

  lemma {:induction false} SourceErrorsEmpty(sources: seq<Source>, n: nat, pathExists: string -> bool)
    requires n <= |sources|
    ensures SourceErrors(sources, n, pathExists) == [] <==> forall i :: 0 <= i < n ==> SourceOk(sources[i], pathExists)
  {
    if n > 0 {
      SourceErrorsEmpty(sources, n - 1, pathExists);
    }
  }

  lemma {:induction false} DestinationErrorsEmpty(destinations: seq<Destination>, n: nat)
    requires n <= |destinations|
    ensures DestinationErrors(destinations, n) == [] <==> forall i :: 0 <= i < n ==> DestinationOk(destinations[i])
  {
    if n > 0 {
      DestinationErrorsEmpty(destinations, n - 1);
    }
  }

  /** `validate_profile` reports no error exactly for the valid profiles. */
  lemma NoErrorsIffValid(p: Profile, pathExists: string -> bool)
    ensures ProfileErrors(p, pathExists) == [] <==> IsValid(p, pathExists)
  {
    SourceErrorsEmpty(p.sources, |p.sources|, pathExists);
    DestinationErrorsEmpty(p.destinations, |p.destinations|);
    var sources := SourceErrors(p.sources, |p.sources|, pathExists);
    var destinations := DestinationErrors(p.destinations, |p.destinations|);
    assert ProfileErrors(p, pathExists) == [] <==>
      HeaderErrors(p) == [] && sources == [] && destinations == [] && ScheduleRangeErrors(p.schedule) == [];
  }

  /** Each source with an empty path is reported by its 1-based number, after the header errors. */
  lemma {:induction false} EmptySourcePathReported(sources: seq<Source>, n: nat, i: nat, pathExists: string -> bool)
    requires i < n <= |sources| && sources[i].path == ""
    ensures PathRequired(i) in SourceErrors(sources, n, pathExists)
  {
    if i < n - 1 {
      EmptySourcePathReported(sources, n - 1, i, pathExists);
    }
  }

  /** The source loop reports only source problems, each about one of the sources it has looked at. */
  lemma {:induction false} SourceErrorsAreAboutSources(sources: seq<Source>, n: nat, pathExists: string -> bool)
    requires n <= |sources|
    ensures forall e :: e in SourceErrors(sources, n, pathExists) ==> (e.PathRequired? || e.PathMissing?) && e.source < n
  {
    if n > 0 {
      SourceErrorsAreAboutSources(sources, n - 1, pathExists);
    }
  }

  /** The destination loop reports only destination problems, each about one of the destinations it has looked at. */
  lemma {:induction false} DestinationErrorsAreAboutDestinations(destinations: seq<Destination>, n: nat)
    requires n <= |destinations|
    ensures forall e :: e in DestinationErrors(destinations, n) ==> (e.TargetRequired? || e.DeviceRequired?) && e.destination < n
  {
    if n > 0 {
      DestinationErrorsAreAboutDestinations(destinations, n - 1);
    }
  }

  /** The name check comes first: an unnamed profile's first error is about the name, and a named one never gets it. */
  lemma NameErrorFirst(p: Profile, pathExists: string -> bool)
    ensures p.name == "" ==> ProfileErrors(p, pathExists)[0] == NameRequired
    ensures p.name != "" ==> NameRequired !in ProfileErrors(p, pathExists)
  {
    var header := HeaderErrors(p);
    var sources := SourceErrors(p.sources, |p.sources|, pathExists);
    var destinations := DestinationErrors(p.destinations, |p.destinations|);
    var schedule := ScheduleRangeErrors(p.schedule);
    SourceErrorsAreAboutSources(p.sources, |p.sources|, pathExists);
    DestinationErrorsAreAboutDestinations(p.destinations, |p.destinations|);
    assert NameRequired !in sources;
    assert NameRequired !in destinations;
    assert NameRequired !in schedule;
    assert ProfileErrors(p, pathExists) == header + sources + destinations + schedule;
  }

  // ---------------------------------------------------------------------
  // The dictionary form of a profile (what is written to YAML or JSON).
  // A key that is absent is None.

  datatype SourceDict = SourceDict(path: Option<string>, enabled: Option<bool>)

  datatype DestinationDict = DestinationDict(
    driveDevice: Option<string>,
    mountPoint: Option<string>,
    targetPath: Option<string>,
    enabled: Option<bool>,
    autoMount: Option<bool>)

  datatype CommandDict = CommandDict(
    command: Option<string>, description: Option<string>, enabled: Option<bool>, timeout: Option<int>)

  /** `daysOfWeek` is None when the key is absent or holds null: both mean every day. */
  datatype ScheduleDict = ScheduleDict(
    enabled: Option<bool>, hour: Option<int>, minute: Option<int>, daysOfWeek: Option<seq<int>>)

  datatype ProfileDict = ProfileDict(
    name: Option<string>,
    sources: Option<seq<SourceDict>>,
    destinations: Option<seq<DestinationDict>>,
    preCommands: Option<seq<CommandDict>>,
    postCommands: Option<seq<CommandDict>>,
    schedule: Option<ScheduleDict>,
    logEnabled: Option<bool>,
    dryRun: Option<bool>,
    createdAt: Option<string>,
    modifiedAt: Option<string>)

  /** `data.get(key, default)`. */
  function Get<T>(o: Option<T>, default: T): T {
    if o.Some? then o.value else default
  }

  function SourceToDict(s: Source): SourceDict {
    SourceDict(Some(s.path), Some(s.enabled))
  }

  function DestinationToDict(d: Destination): DestinationDict {
    DestinationDict(Some(d.driveDevice), Some(d.mountPoint), Some(d.targetPath), Some(d.enabled), Some(d.autoMount))
  }

  function CommandToDict(c: Command): CommandDict {
    CommandDict(Some(c.command), Some(c.description), Some(c.enabled), Some(c.timeout))
  }

  function ScheduleToDict(s: Schedule): ScheduleDict {
    ScheduleDict(Some(s.enabled), Some(s.hour), Some(s.minute), Some(s.daysOfWeek))
  }

  function SourcesToDicts(ss: seq<Source>): (r: seq<SourceDict>)
    ensures |r| == |ss| && forall i :: 0 <= i < |ss| ==> r[i] == SourceToDict(ss[i])
  {
    if ss == [] then [] else [SourceToDict(ss[0])] + SourcesToDicts(ss[1..])
  }

  function DestinationsToDicts(ds: seq<Destination>): (r: seq<DestinationDict>)
    ensures |r| == |ds| && forall i :: 0 <= i < |ds| ==> r[i] == DestinationToDict(ds[i])
  {
    if ds == [] then [] else [DestinationToDict(ds[0])] + DestinationsToDicts(ds[1..])
  }

  function CommandsToDicts(cs: seq<Command>): (r: seq<CommandDict>)
    ensures |r| == |cs| && forall i :: 0 <= i < |cs| ==> r[i] == CommandToDict(cs[i])
  {
    if cs == [] then [] else [CommandToDict(cs[0])] + CommandsToDicts(cs[1..])
  }

  /** `_profile_to_dict`: every field under its key. */
  function ProfileToDict(p: Profile): ProfileDict {
    ProfileDict(
      Some(p.name), Some(SourcesToDicts(p.sources)), Some(DestinationsToDicts(p.destinations)),
      Some(CommandsToDicts(p.preCommands)), Some(CommandsToDicts(p.postCommands)),
      Some(ScheduleToDict(p.schedule)), Some(p.logEnabled), Some(p.dryRun),
      Some(p.createdAt), Some(p.modifiedAt))
  }

  /** `BackupSource(**src)`. */
  function SourceFromDict(sd: SourceDict, pathExists: string -> bool): Result<Source, ConfigError> {
    if sd.path.None? then Failure(MissingArgument("path"))
    else NewSource(sd.path.value, Get(sd.enabled, true), pathExists)
  }

  /** `BackupDestination(**dest)`: the first missing required argument is reported. */
  function DestinationFromDict(dd: DestinationDict): Result<Destination, ConfigError> {
    if dd.driveDevice.None? then Failure(MissingArgument("drive_device"))
    else if dd.mountPoint.None? then Failure(MissingArgument("mount_point"))
    else if dd.targetPath.None? then Failure(MissingArgument("target_path"))
    else NewDestination(dd.driveDevice.value, dd.mountPoint.value, dd.targetPath.value,
                        Get(dd.enabled, true), Get(dd.autoMount, true))
  }

  /** `CustomCommand(**cmd)`. */
  function CommandFromDict(cd: CommandDict): Result<Command, ConfigError> {
    if cd.command.None? then Failure(MissingArgument("command"))
    else Success(Command(cd.command.value, Get(cd.description, ""), Get(cd.enabled, true), Get(cd.timeout, 300)))
  }

  /** `ScheduleConfig(**schedule)`. */
  function ScheduleFromDict(sd: ScheduleDict): Schedule {
    NewSchedule(Get(sd.enabled, false), Get(sd.hour, 2), Get(sd.minute, 0), sd.daysOfWeek)
  }

  /** The list comprehension over sources: the first element that fails raises. */
  function SourcesFromDicts(sds: seq<SourceDict>, pathExists: string -> bool): Result<seq<Source>, ConfigError> {
    if sds == [] then Success([])
    else
      var head := SourceFromDict(sds[0], pathExists);
      if head.Failure? then Failure(head.error)
      else
        var tail := SourcesFromDicts(sds[1..], pathExists);
        if tail.Failure? then tail else Success([head.value] + tail.value)
  }

  function DestinationsFromDicts(dds: seq<DestinationDict>): Result<seq<Destination>, ConfigError> {
    if dds == [] then Success([])
    else
      var head := DestinationFromDict(dds[0]);
      if head.Failure? then Failure(head.error)
      else
        var tail := DestinationsFromDicts(dds[1..]);
        if tail.Failure? then tail else Success([head.value] + tail.value)
  }

  function CommandsFromDicts(cds: seq<CommandDict>): Result<seq<Command>, ConfigError> {
    if cds == [] then Success([])
    else
      var head := CommandFromDict(cds[0]);
      if head.Failure? then Failure(head.error)
      else
        var tail := CommandsFromDicts(cds[1..]);
        if tail.Failure? then tail else Success([head.value] + tail.value)
  }

  /** `_dict_to_profile`: the keyword arguments are evaluated in order, so the first failing part raises. */
  function DictToProfile(d: ProfileDict, pathExists: string -> bool): Result<Profile, ConfigError> {
    var sources := SourcesFromDicts(Get(d.sources, []), pathExists);
    if sources.Failure? then Failure(sources.error)
    else
      var destinations := DestinationsFromDicts(Get(d.destinations, []));
      if destinations.Failure? then Failure(destinations.error)
      else
        var pre := CommandsFromDicts(Get(d.preCommands, []));
        if pre.Failure? then Failure(pre.error)
        else
          var post := CommandsFromDicts(Get(d.postCommands, []));
          if post.Failure? then Failure(post.error)
          else
            var schedule := if d.schedule.None? then DefaultSchedule() else ScheduleFromDict(d.schedule.value);
            Success(NewProfile(
              Get(d.name, ""), sources.value, destinations.value, pre.value, post.value, Some(schedule),
              Get(d.logEnabled, true), Get(d.dryRun, false), Get(d.createdAt, ""), Get(d.modifiedAt, "")))
  }

  lemma {:induction false} SourcesRoundTrip(ss: seq<Source>, pathExists: string -> bool)
    ensures SourcesFromDicts(SourcesToDicts(ss), pathExists).Success?
            <==> forall i :: 0 <= i < |ss| ==> pathExists(ss[i].path)
    ensures SourcesFromDicts(SourcesToDicts(ss), pathExists).Success? ==>
            SourcesFromDicts(SourcesToDicts(ss), pathExists).value == ss
  {
    if ss != [] {
      SourcesRoundTrip(ss[1..], pathExists);
      assert SourcesToDicts(ss)[1..] == SourcesToDicts(ss[1..]);
      assert forall i :: 1 <= i < |ss| ==> ss[i] == ss[1..][i - 1];
      assert [ss[0]] + ss[1..] == ss;
    }
  }

  lemma {:induction false} DestinationsRoundTrip(ds: seq<Destination>)
    ensures DestinationsFromDicts(DestinationsToDicts(ds)).Success?
            <==> forall i :: 0 <= i < |ds| ==> DeviceInvariant(ds[i])
    ensures DestinationsFromDicts(DestinationsToDicts(ds)).Success? ==>
            DestinationsFromDicts(DestinationsToDicts(ds)).value == ds
  {
    if ds != [] {
      DestinationsRoundTrip(ds[1..]);
      assert DestinationsToDicts(ds)[1..] == DestinationsToDicts(ds[1..]);
      assert forall i :: 1 <= i < |ds| ==> ds[i] == ds[1..][i - 1];
      assert [ds[0]] + ds[1..] == ds;
    }
  }

  lemma {:induction false} CommandsRoundTrip(cs: seq<Command>)
    ensures CommandsFromDicts(CommandsToDicts(cs)) == Success(cs)
  {
    if cs != [] {
      CommandsRoundTrip(cs[1..]);
      assert CommandsToDicts(cs)[1..] == CommandsToDicts(cs[1..]);
      assert [cs[0]] + cs[1..] == cs;
    }
  }

  /**
   * Reading back a stored profile gives the same profile, exactly when every
   * source path still exists and every destination keeps the device invariant.
   */
  lemma DictRoundTrip(p: Profile, pathExists: string -> bool)
    ensures DictToProfile(ProfileToDict(p), pathExists).Success? <==>
            (forall i :: 0 <= i < |p.sources| ==> pathExists(p.sources[i].path)) &&
            (forall i :: 0 <= i < |p.destinations| ==> DeviceInvariant(p.destinations[i]))
    ensures DictToProfile(ProfileToDict(p), pathExists).Success? ==>
            DictToProfile(ProfileToDict(p), pathExists).value == p
  {
    SourcesRoundTrip(p.sources, pathExists);
    DestinationsRoundTrip(p.destinations);
    CommandsRoundTrip(p.preCommands);
    CommandsRoundTrip(p.postCommands);
  }

  const EmptyDict := ProfileDict(None, None, None, None, None, None, None, None, None, None)

  /** Missing keys take the defaults: no name, no lists, the default schedule, logging on, no dry run. */
  lemma MissingKeysDefaults(pathExists: string -> bool)
    ensures DictToProfile(EmptyDict, pathExists)
            == Success(Profile("", [], [], [], [], DefaultSchedule(), true, false, "", ""))
  {
  }

  // ---------------------------------------------------------------------
  // list_profiles and load_profile

  const Extensions: seq<string> := [".yaml", ".yml", ".json"]

  /** `Path(name).stem` for a name ending in the extension: a name that is only the extension keeps it. */
  function Stem(name: string, ext: string): string
    requires EndsWith(name, ext)
  {
    if |name| > |ext| then name[..|name| - |ext|] else name
  }

  /** x is the stem of one of the first i files of the listing that end in ext. */
  ghost predicate StemAmong(files: seq<string>, i: nat, ext: string, x: string) {
    exists j :: 0 <= j < i && j < |files| && EndsWith(files[j], ext) && x == Stem(files[j], ext)
  }

  /** x is the stem of some file in the listing that one of the three globs matches. */
  ghost predicate IsProfileStem(files: seq<string>, x: string) {
    StemAmong(files, |files|, ".yaml", x) || StemAmong(files, |files|, ".yml", x) || StemAmong(files, |files|, ".json", x)
  }

  /** A name longer than its extension is its stem followed by the extension. */
  lemma StemRestores(name: string, ext: string)
    requires EndsWith(name, ext) && |name| > |ext|
    ensures name == Stem(name, ext) + ext && |Stem(name, ext)| > 0
  {
    assert name == name[..|name| - |ext|] + name[|name| - |ext|..];
  }

  /** Two different ".yaml" names share a stem only for the pair ".yaml" and ".yaml.yaml". */
  lemma StemCollision(a: string, b: string)
    requires EndsWith(a, ".yaml") && EndsWith(b, ".yaml") && a != b
    requires Stem(a, ".yaml") == Stem(b, ".yaml")
    ensures (a == ".yaml" && b == ".yaml.yaml") || (a == ".yaml.yaml" && b == ".yaml")
  {
    assert ".yaml" + ".yaml" == ".yaml.yaml";
    if |a| == 5 {
      assert a == ".yaml";
      StemRestores(b, ".yaml");
    } else if |b| == 5 {
      assert b == ".yaml";
      StemRestores(a, ".yaml");
    } else {
      StemRestores(a, ".yaml");
      StemRestores(b, ".yaml");
      assert false;
    }
  }

  /**
   * `list_profiles` over the names of the profile directory (in the order the
   * directory lists them): the stems of the ".yaml" files, then those of the
   * ".yml" and ".json" files not seen yet, sorted.
   */
  method ListProfiles(files: seq<string>) returns (names: seq<string>)
    requires Distinct(files)
    ensures SortedStrings(names)
    ensures forall x :: x in names <==> IsProfileStem(files, x)
    ensures !(".yaml" in files && ".yaml.yaml" in files) ==> Distinct(names)
  {
    var profiles := YamlStems(files);
    profiles := AddNewStems(files, ".yml", profiles);
    profiles := AddNewStems(files, ".json", profiles);
    names := SortStrings(profiles);
    if !(".yaml" in files && ".yaml.yaml" in files) {
      DistinctPermutation(profiles, names);
    }
    forall x ensures x in names <==> IsProfileStem(files, x) {
      assert x in names <==> x in multiset(names);
      assert x in profiles <==> x in multiset(profiles);
    }
  }

  /**
   * The first loop of `list_profiles`: the stem of every ".yaml" file, in
   * listing order. Two files give the same stem only for ".yaml" and ".yaml.yaml".
   */
  method YamlStems(files: seq<string>) returns (profiles: seq<string>)
    requires Distinct(files)
    ensures forall x :: x in profiles <==> StemAmong(files, |files|, ".yaml", x)
    ensures !(".yaml" in files && ".yaml.yaml" in files) ==> Distinct(profiles)
  {
    profiles := [];
    var i := 0;
    while i < |files|
      invariant 0 <= i <= |files|
      invariant forall x :: x in profiles <==> StemAmong(files, i, ".yaml", x)
      invariant !(".yaml" in files && ".yaml.yaml" in files) ==> Distinct(profiles)
    {
      var f := files[i];
      if EndsWith(f, ".yaml") {
        var stem := Stem(f, ".yaml");
        if !(".yaml" in files && ".yaml.yaml" in files) && stem in profiles {
          var j :| 0 <= j < i && EndsWith(files[j], ".yaml") && stem == Stem(files[j], ".yaml");
          StemCollision(files[j], f);
          assert false;
        }
        profiles := profiles + [stem];
      }
      i := i + 1;
    }
  }

  /** The later loops of `list_profiles`: the stem of every file ending in ext that is not listed yet. */
  method AddNewStems(files: seq<string>, ext: string, profiles: seq<string>) returns (r: seq<string>)
    ensures forall x :: x in r <==> x in profiles || StemAmong(files, |files|, ext, x)
    ensures Distinct(profiles) ==> Distinct(r)
  {
    r := profiles;
    var i := 0;
    while i < |files|
      invariant 0 <= i <= |files|
      invariant forall x :: x in r <==> x in profiles || StemAmong(files, i, ext, x)
      invariant Distinct(profiles) ==> Distinct(r)
    {
      var f := files[i];
      if EndsWith(f, ext) {
        var stem := Stem(f, ext);
        if stem !in r {
          r := r + [stem];
        }
      }
      i := i + 1;
    }
  }

  /** The file `load_profile` reads: the first of name.yaml, name.yml, name.json that exists. */
  function ProfileFile(name: string, fileExists: string -> bool): (f: Option<string>)
    ensures f.None? <==> forall k :: 0 <= k < 3 ==> !fileExists(name + Extensions[k])
    ensures f.Some? ==> exists k :: 0 <= k < 3 && f.value == name + Extensions[k] && fileExists(f.value) &&
                                    forall j :: 0 <= j < k ==> !fileExists(name + Extensions[j])
  {
    FirstExisting(name, fileExists, 0)
  }

  function FirstExisting(name: string, fileExists: string -> bool, k: nat): (f: Option<string>)
    requires k <= 3
    ensures f.None? <==> forall j :: k <= j < 3 ==> !fileExists(name + Extensions[j])
    ensures f.Some? ==> exists i :: k <= i < 3 && f.value == name + Extensions[i] && fileExists(f.value) &&
                                    forall j :: k <= j < i ==> !fileExists(name + Extensions[j])
    decreases 3 - k
  {
    if k == 3 then None
    else if fileExists(name + Extensions[k]) then Some(name + Extensions[k])
    else FirstExisting(name, fileExists, k + 1)
  }

  /**
   * `load_profile`: read the first existing file and convert it; a file that
   * does not parse, or a dictionary the constructors reject, gives None
   * without trying the next extension.
   */
  function LoadProfile(name: string, fileExists: string -> bool, parse: string -> Option<ProfileDict>,
                       pathExists: string -> bool): (r: Option<Profile>)
    ensures r.Some? <==> ProfileFile(name, fileExists).Some? &&
                         parse(ProfileFile(name, fileExists).value).Some? &&
                         DictToProfile(parse(ProfileFile(name, fileExists).value).value, pathExists).Success?
  {
    var file := ProfileFile(name, fileExists);
    if file.None? then None
    else
      var dict := parse(file.value);
      if dict.None? then None
      else
        var profile := DictToProfile(dict.value, pathExists);
        if profile.Failure? then None else Some(profile.value)
  }
}
