/**
 * `BackupWorker.run` (gui/workers/backup_worker.py): load and validate a
 * profile, then back up to every enabled destination in turn through
 * `run_backup_to_destination`, whatever happened to the earlier ones, and
 * finish with a summary line per destination. The Qt signals are kept as
 * the sequence of values emitted.
 */
module Worker {
  import Wrappers
  import opened Text
  import opened Messages
  import opened Effects
  import opened Config
  import opened EngineSteps
  import opened EngineRuns
  import opened Engine

  /** What the worker says in a signal; `NoteText` gives the wording. */
  datatype Note =
    | StartingBackup(name: string)
    | ProfileNotFound(name: string)
    | NotFound
    | ValidationFailedWith(errors: seq<string>)
    | EngineReady(sources: nat)
    | SkippingDisabled(target: string)
    | BackingUp(number: nat, total: nat, target: string)
    | BackedUp(target: string)
    | BackupFailed(target: string, message: Msg)
    | Results(verdicts: seq<Verdict>)

  /** One line of the final summary. */
  datatype Verdict = Succeeded(target: string) | FailedWith(target: string, message: Msg)

  /** The `progress`, `error` and `finished` signals. */
  datatype Signal = ProgressSignal(note: Note) | ErrorSignal(note: Note) | FinishedSignal(success: bool, note: Note)

  function VerdictText(v: Verdict): string {
    match v
    case Succeeded(t) => "\U{2713} " + t + ": Success"
    case FailedWith(t, m) => "\U{2717} " + t + ": " + Render(m)
  }

  function VerdictTexts(vs: seq<Verdict>): seq<string> {
    if vs == [] then [] else [VerdictText(vs[0])] + VerdictTexts(vs[1..])
  }

  function NoteText(n: Note): string {
    match n
    case StartingBackup(name) => "Starting backup for profile: " + name
    case ProfileNotFound(name) => "Profile '" + name + "' not found"
    case NotFound => "Profile not found"
    case ValidationFailedWith(errors) => "Profile validation failed: " + Join(errors, ", ")
    case EngineReady(count) => "Backup engine initialized for " + IntToString(count) + " sources"
    case SkippingDisabled(t) => "Skipping disabled destination: " + t
    case BackingUp(i, total, t) => "Backing up to destination " + IntToString(i) + "/" + IntToString(total) + ": " + t
    case BackedUp(t) => "\U{2713} Backup to " + t + " completed successfully"
    case BackupFailed(t, m) => "\U{2717} Backup to " + t + " failed: " + Render(m)
    case Results(vs) => "Backup completed. Results:\n" + Join(VerdictTexts(vs), "\n")
  }

  /**
   * The services `run()` asks of its `BackupConfigManager`: `load_profile`,
   * `validate_profile`, and the `os.path.exists` the engine's own validation
   * consults.
   */
  datatype Store = Store(load: string -> Wrappers.Option<Profile>, validate: Profile -> seq<string>, pathExists: string -> bool)

  /** The configuration manager over a profile directory. */
  function ConfigStore(fileExists: string -> bool, parse: string -> Wrappers.Option<ProfileDict>, pathExists: string -> bool): (r: Store)
    ensures r.pathExists == pathExists
    ensures forall name :: r.load(name) == LoadProfile(name, fileExists, parse, pathExists)
    ensures forall p :: r.validate(p) == DescribeAll(ProfileErrors(p, pathExists))
  {
    Store(name => LoadProfile(name, fileExists, parse, pathExists), p => DescribeAll(ProfileErrors(p, pathExists)), pathExists)
  }

  /** The loop variables of `run`: `total_success`, `backup_results`, the signals so far and the engine. */
  datatype Tally = Tally(success: bool, verdicts: seq<Verdict>, signals: seq<Signal>, st: State)

  /** One iteration of the destination loop. */
  function Visit(w: World, p: Profile, i: nat, t: Tally): Tally
    requires i < |p.destinations|
  {
    var d := p.destinations[i];
    if !d.enabled then t.(signals := t.signals + [ProgressSignal(SkippingDisabled(d.targetPath))])
    else
      var signals := t.signals + [ProgressSignal(BackingUp(i + 1, |p.destinations|, d.targetPath))];
      var step := RunToDestination(w, p, d, t.st);
      if step.reply.ok then
        Tally(t.success, t.verdicts + [Succeeded(d.targetPath)], signals + [ProgressSignal(BackedUp(d.targetPath))], step.st)
      else
        Tally(false, t.verdicts + [FailedWith(d.targetPath, step.reply.message)],
              signals + [ErrorSignal(BackupFailed(d.targetPath, step.reply.message))], step.st)
  }

  /** The destination loop from destination `i` on. */
  function VisitFrom(w: World, p: Profile, i: nat, t: Tally): Tally
    requires i <= |p.destinations|
    decreases |p.destinations| - i
  {
    if i == |p.destinations| then t else VisitFrom(w, p, i + 1, Visit(w, p, i, t))
  }

  /** The signals `run` emits and the engine's state at the end. */
  datatype Report = Report(signals: seq<Signal>, st: State)

  const Fresh := State([], Io([], []))

  /** `BackupWorker.run()`. */
  function RunReport(w: World, store: Store, name: string): Report {
    var started := [ProgressSignal(StartingBackup(name))];
    var loaded := store.load(name);
    if loaded.None? then
      Report(started + [ErrorSignal(ProfileNotFound(name)), FinishedSignal(false, NotFound)], Fresh)
    else
      var r := LoadedReport(w, store, loaded.value);
      Report(started + r.signals, r.st)
  }

  /** What `run()` does once the profile has loaded: validate it, then back up to each destination. */
  function LoadedReport(w: World, store: Store, p: Profile): Report {
    var errors := store.validate(p);
    if errors != [] then
      Report([ErrorSignal(ValidationFailedWith(errors)), FinishedSignal(false, ValidationFailedWith(errors))], Fresh)
    else
      var t := VisitFrom(w, p, 0, Tally(true, [], [], Fresh));
      Report([ProgressSignal(EngineReady(|p.sources|))] + t.signals + [FinishedSignal(t.success, Results(t.verdicts))], t.st)
  }

  /** The target paths of the enabled destinations, in order. */
  function EnabledTargets(ds: seq<Destination>): (r: seq<string>)
    ensures |r| <= |ds|
  {
    if ds == [] then []
    else (if ds[0].enabled then [ds[0].targetPath] else []) + EnabledTargets(ds[1..])
  }

  function Targets(vs: seq<Verdict>): seq<string> {
    if vs == [] then [] else [vs[0].target] + Targets(vs[1..])
  }

  lemma {:induction false} TargetsAppend(a: seq<Verdict>, b: seq<Verdict>)
    ensures Targets(a + b) == Targets(a) + Targets(b)
    decreases |a|
  {
    if a != [] {
      TargetsAppend(a[1..], b);
      assert (a + b)[1..] == a[1..] + b;
    } else {
      assert a + b == b;
    }
  }

  lemma EnabledTargetsStep(ds: seq<Destination>, i: nat)
    requires i < |ds|
    ensures EnabledTargets(ds[i..]) == (if ds[i].enabled then [ds[i].targetPath] else []) + EnabledTargets(ds[i + 1..])
  {
    assert ds[i..][1..] == ds[i + 1..];
  }

  /**
   * One iteration adds a summary line exactly for an enabled destination,
   * and clears the flag exactly on a failure. The line is the engine's
   * reply for that destination: a success when it answered True, otherwise
   * the engine's failure message.
   */
  lemma VisitVerdict(w: World, p: Profile, i: nat, t: Tally)
    requires i < |p.destinations|
    ensures var r := Visit(w, p, i, t);
            var d := p.destinations[i];
            var step := RunToDestination(w, p, d, t.st);
            && (!d.enabled ==> r.verdicts == t.verdicts && r.success == t.success && r.st == t.st)
            && (d.enabled ==> |r.verdicts| == |t.verdicts| + 1 && r.verdicts[..|t.verdicts|] == t.verdicts &&
                              r.verdicts[|t.verdicts|].target == d.targetPath &&
                              (r.success <==> t.success && r.verdicts[|t.verdicts|].Succeeded?) &&
                              (r.verdicts[|t.verdicts|].Succeeded? <==> step.reply.ok) &&
                              (r.verdicts[|t.verdicts|].FailedWith? ==>
                                 r.verdicts[|t.verdicts|].message == step.reply.message &&
                                 IsFailureReply(step.reply.message)) &&
                              r.st == step.st)
  {
    DestinationReply(w, p, p.destinations[i], t.st);
  }

  /** Every failed summary line the loop writes carries one of the engine's failure messages. */
  lemma {:induction false} VisitFromFailureMessages(w: World, p: Profile, i: nat, t: Tally)
    requires i <= |p.destinations|
    ensures var r := VisitFrom(w, p, i, t);
            |t.verdicts| <= |r.verdicts| &&
            forall k :: |t.verdicts| <= k < |r.verdicts| && r.verdicts[k].FailedWith? ==> IsFailureReply(r.verdicts[k].message)
    decreases |p.destinations| - i
  {
    if i < |p.destinations| {
      var t1 := Visit(w, p, i, t);
      VisitVerdict(w, p, i, t);
      VisitFromFailureMessages(w, p, i + 1, t1);
      VisitFromKeepsVerdicts(w, p, i + 1, t1);
      var r := VisitFrom(w, p, i + 1, t1);
      if p.destinations[i].enabled {
        assert r.verdicts[|t.verdicts|] == r.verdicts[..|t1.verdicts|][|t.verdicts|];
      }
    }
  }

  /** The loop only appends summary lines. */
  lemma {:induction false} VisitFromKeepsVerdicts(w: World, p: Profile, i: nat, t: Tally)
    requires i <= |p.destinations|
    ensures var r := VisitFrom(w, p, i, t);
            |t.verdicts| <= |r.verdicts| && r.verdicts[..|t.verdicts|] == t.verdicts
    decreases |p.destinations| - i
  {
    if i < |p.destinations| {
      var t1 := Visit(w, p, i, t);
      VisitVerdict(w, p, i, t);
      VisitFromKeepsVerdicts(w, p, i + 1, t1);
      var r := VisitFrom(w, p, i + 1, t1);
      assert r.verdicts[..|t.verdicts|] == r.verdicts[..|t1.verdicts|][..|t.verdicts|];
    }
  }

  lemma VisitTargets(w: World, p: Profile, i: nat, t: Tally)
    requires i < |p.destinations|
    ensures var d := p.destinations[i];
            Targets(Visit(w, p, i, t).verdicts) == Targets(t.verdicts) + (if d.enabled then [d.targetPath] else [])
  {
    var t1 := Visit(w, p, i, t);
    VisitVerdict(w, p, i, t);
    if p.destinations[i].enabled {
      assert t1.verdicts == t.verdicts + [t1.verdicts[|t.verdicts|]];
      TargetsAppend(t.verdicts, [t1.verdicts[|t.verdicts|]]);
    }
  }

  /** The loop writes one summary line per enabled destination, in list order. */
  lemma {:induction false} VisitFromTargets(w: World, p: Profile, i: nat, t: Tally)
    requires i <= |p.destinations|
    ensures Targets(VisitFrom(w, p, i, t).verdicts) == Targets(t.verdicts) + EnabledTargets(p.destinations[i..])
    decreases |p.destinations| - i
  {
    if i < |p.destinations| {
      var t1 := Visit(w, p, i, t);
      assert VisitFrom(w, p, i, t) == VisitFrom(w, p, i + 1, t1);
      VisitTargets(w, p, i, t);
      VisitFromTargets(w, p, i + 1, t1);
      EnabledTargetsStep(p.destinations, i);
    } else {
      assert p.destinations[i..] == [];
    }
  }

  /**
   * Whatever happened to the earlier destinations, `total_success` stays
   * true exactly when every summary line the loop writes is a success.
   */
  lemma {:induction false} VisitFromSuccess(w: World, p: Profile, i: nat, t: Tally)
    requires i <= |p.destinations|
    ensures var r := VisitFrom(w, p, i, t);
            |t.verdicts| <= |r.verdicts| &&
            (r.success <==> t.success && forall k :: |t.verdicts| <= k < |r.verdicts| ==> r.verdicts[k].Succeeded?)
    decreases |p.destinations| - i
  {
    if i < |p.destinations| {
      var t1 := Visit(w, p, i, t);
      VisitVerdict(w, p, i, t);
      VisitFromSuccess(w, p, i + 1, t1);
      VisitFromKeepsVerdicts(w, p, i + 1, t1);
      var r := VisitFrom(w, p, i + 1, t1);
      if p.destinations[i].enabled {
        assert r.verdicts[|t.verdicts|] == r.verdicts[..|t1.verdicts|][|t.verdicts|];
      }
    }
  }

  /** Each destination the loop reaches is announced, enabled or not. */
  lemma {:induction false} VisitFromAnnounces(w: World, p: Profile, i: nat, t: Tally)
    requires i <= |p.destinations|
    ensures var r := VisitFrom(w, p, i, t);
            && |t.signals| <= |r.signals| && r.signals[..|t.signals|] == t.signals
            && forall j :: i <= j < |p.destinations| ==>
                 var d := p.destinations[j];
                 (if d.enabled then ProgressSignal(BackingUp(j + 1, |p.destinations|, d.targetPath))
                  else ProgressSignal(SkippingDisabled(d.targetPath))) in r.signals[|t.signals|..]
    decreases |p.destinations| - i
  {
    if i < |p.destinations| {
      var t1 := Visit(w, p, i, t);
      VisitFromAnnounces(w, p, i + 1, t1);
      var r := VisitFrom(w, p, i + 1, t1);
      assert r.signals[..|t1.signals|] == t1.signals;
      assert r.signals[..|t.signals|] == t.signals by {
        assert r.signals[..|t.signals|] == r.signals[..|t1.signals|][..|t.signals|];
      }
      assert r.signals[|t.signals|] == t1.signals[|t.signals|];
      forall j | i + 1 <= j < |p.destinations|
        ensures var d := p.destinations[j];
                (if d.enabled then ProgressSignal(BackingUp(j + 1, |p.destinations|, d.targetPath))
                 else ProgressSignal(SkippingDisabled(d.targetPath))) in r.signals[|t.signals|..]
      {
        assert r.signals[|t1.signals|..] == r.signals[|t.signals|..][|t1.signals| - |t.signals|..];
      }
    }
  }

  /** The loop only appends signals, so the signals emitted before it pass through unchanged. */
  lemma {:induction false} VisitFromSignals(w: World, p: Profile, i: nat, t: Tally, before: seq<Signal>)
    requires i <= |p.destinations|
    ensures var r := VisitFrom(w, p, i, t);
            VisitFrom(w, p, i, t.(signals := before + t.signals)) == r.(signals := before + r.signals)
    decreases |p.destinations| - i
  {
    if i < |p.destinations| {
      var t1 := Visit(w, p, i, t);
      var d := p.destinations[i];
      assert Visit(w, p, i, t.(signals := before + t.signals)) == t1.(signals := before + t1.signals);
      VisitFromSignals(w, p, i + 1, t1, before);
    }
  }

  /**
   * A profile that cannot be loaded ends the run before the engine is
   * built: an error naming the profile, then failure with "Profile not found".
   */
  lemma MissingProfile(w: World, store: Store, name: string)
    requires store.load(name).None?
    ensures var r := RunReport(w, store, name);
            && r.st == Fresh
            && r.signals == [ProgressSignal(StartingBackup(name)), ErrorSignal(ProfileNotFound(name)), FinishedSignal(false, NotFound)]
  {
  }

  /**
   * A profile that fails validation ends the run before the engine is
   * built, failing with a message that lists every validation error.
   */
  lemma InvalidProfile(w: World, store: Store, name: string)
    requires store.load(name).Some? && store.validate(store.load(name).value) != []
    ensures var r := RunReport(w, store, name);
            var errors := store.validate(store.load(name).value);
            && r.st == Fresh
            && r.signals[|r.signals| - 1] == FinishedSignal(false, ValidationFailedWith(errors))
            && NoteText(ValidationFailedWith(errors)) == "Profile validation failed: " + Join(errors, ", ")
  {
  }

  /**
   * For a valid profile the run finishes with one summary line per enabled
   * destination, in order, and reports success exactly when every one of
   * them succeeded; a failed line carries the engine's failure message.
   */
  lemma RunSummary(w: World, store: Store, name: string)
    requires store.load(name).Some? && store.validate(store.load(name).value) == []
    ensures var p := store.load(name).value;
            var r := RunReport(w, store, name);
            var last := r.signals[|r.signals| - 1];
            && last.FinishedSignal? && last.note.Results?
            && Targets(last.note.verdicts) == EnabledTargets(p.destinations)
            && (last.success <==> forall k :: 0 <= k < |last.note.verdicts| ==> last.note.verdicts[k].Succeeded?)
            && (forall k :: 0 <= k < |last.note.verdicts| && last.note.verdicts[k].FailedWith? ==>
                  IsFailureReply(last.note.verdicts[k].message))
  {
    var p := store.load(name).value;
    var t0 := Tally(true, [], [], Fresh);
    VisitFromTargets(w, p, 0, t0);
    VisitFromSuccess(w, p, 0, t0);
    VisitFromFailureMessages(w, p, 0, t0);
    assert p.destinations[0..] == p.destinations;
  }

  /** The worker of the GUI: the signals it has emitted so far. */
  class BackupWorker {
    const profileName: string
    const store: Store
    const world: World
    var signals: seq<Signal>

    constructor(profileName: string, store: Store, world: World)
      ensures this.profileName == profileName && this.store == store && this.world == world && signals == []
    {
      this.profileName := profileName;
      this.store := store;
      this.world := world;
      signals := [];
    }

    method Emit(s: Signal)
      modifies this
      ensures signals == old(signals) + [s]
    {
      signals := signals + [s];
    }

    /** `run()`. */
    method Run()
      modifies this
      ensures signals == old(signals) + RunReport(world, store, profileName).signals
    {
      Emit(ProgressSignal(StartingBackup(profileName)));
      var loaded := store.load(profileName);
      if loaded.None? {
        Emit(ErrorSignal(ProfileNotFound(profileName)));
        Emit(FinishedSignal(false, NotFound));
        return;
      }
      RunLoaded(loaded.value);
    }

    /** `run()` from the validation of the loaded profile on. */
    method RunLoaded(profile: Profile)
      modifies this
      ensures signals == old(signals) + LoadedReport(world, store, profile).signals
    {
      var errors := store.validate(profile);
      if errors != [] {
        Emit(ErrorSignal(ValidationFailedWith(errors)));
        Emit(FinishedSignal(false, ValidationFailedWith(errors)));
        return;
      }
      var engine := new BackupEngine(profile, world, store.pathExists);
      Emit(ProgressSignal(EngineReady(|profile.sources|)));
      var totalSuccess, results := BackUpAll(engine, profile);
      Emit(FinishedSignal(totalSuccess, Results(results)));
    }

    /** The destination loop of `run()`, on a freshly built engine. */
    method BackUpAll(engine: BackupEngine, profile: Profile) returns (totalSuccess: bool, results: seq<Verdict>)
      requires engine.profile == profile && engine.world == world && engine.Snapshot() == Fresh
      modifies this, engine
      ensures var r := VisitFrom(world, profile, 0, Tally(true, [], [], Fresh));
              signals == old(signals) + r.signals && totalSuccess == r.success && results == r.verdicts
    {
      ghost var start := signals;
      totalSuccess := true;
      results := [];
      var i := 0;
      while i < |profile.destinations|
        invariant 0 <= i <= |profile.destinations|
        invariant VisitFrom(world, profile, 0, Tally(true, [], start, Fresh)) ==
                  VisitFrom(world, profile, i, Tally(totalSuccess, results, signals, engine.Snapshot()))
      {
        totalSuccess, results := BackUpToDestination(engine, profile, i, totalSuccess, results);
        i := i + 1;
      }
      VisitFromSignals(world, profile, 0, Tally(true, [], [], Fresh), start);
      assert Tally(true, [], [], Fresh).(signals := start + []) == Tally(true, [], start, Fresh);
    }

    /** One iteration of the destination loop of `run()`. */
    method BackUpToDestination(engine: BackupEngine, profile: Profile, i: nat, successSoFar: bool, resultsSoFar: seq<Verdict>)
      returns (totalSuccess: bool, results: seq<Verdict>)
      requires i < |profile.destinations| && engine.profile == profile && engine.world == world
      modifies this, engine
      ensures Visit(world, profile, i, Tally(successSoFar, resultsSoFar, old(signals), old(engine.Snapshot())))
              == Tally(totalSuccess, results, signals, engine.Snapshot())
    {
      totalSuccess, results := successSoFar, resultsSoFar;
      var destination := profile.destinations[i];
      if !destination.enabled {
        Emit(ProgressSignal(SkippingDisabled(destination.targetPath)));
        return;
      }
      Emit(ProgressSignal(BackingUp(i + 1, |profile.destinations|, destination.targetPath)));
      var success, message := engine.RunBackupToDestination(destination);
      if success {
        Emit(ProgressSignal(BackedUp(destination.targetPath)));
        results := results + [Succeeded(destination.targetPath)];
      } else {
        Emit(ErrorSignal(BackupFailed(destination.targetPath, message)));
        results := results + [FailedWith(destination.targetPath, message)];
        totalSuccess := false;
      }
    }
  }
}
