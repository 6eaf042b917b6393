/**
 * The outside world as the modelled code sees it. Every subprocess call,
 * directory creation and log-file opening is an effect; the k-th effect of a
 * run is answered by `w(k)`, an arbitrary function, so every property proved
 * over a world holds whatever the processes and the filesystem do. The record
 * of a run keeps the effects asked for, in order, and the lines written to
 * the log and to standard output.
 */
module Effects {
  import opened Messages

  /** The exception classes the modelled handlers tell apart. */
  datatype ErrorKind = TimeoutExpired | OSError | OtherError

  /**
   * How an effect ended: a process that exited, or an exception. For a
   * filesystem effect, `Exited` means the call returned normally.
   */
  datatype Outcome =
    | Exited(code: int, stdout: string, stderr: string)
    | Raised(kind: ErrorKind, message: string)

  /**
   * What the engine asks of the world. The processes run with
   * `capture_output=True, text=True`; `Argv` gives their command lines.
   */
  datatype Effect =
    | Findmnt(mountPoint: string)
    | UdisksMount(device: string)
    | SudoMount(device: string, mountPoint: string)
    | UdisksUnmount(device: string)
    | SudoUmount(device: string)
    | Rsync(source: string, destination: string, dryRun: bool)
    | RunShell(command: string, timeout: int) // subprocess.run(command, shell=True, timeout=...)
    | MakeDirs(path: string)                  // os.makedirs / Path.mkdir(parents=True, exist_ok=True)
    | OpenLog(dir: string)                    // the log directory and file set up for a destination
    | Lsblk                                   // the block-device listing, as JSON

  /** The command line of a process effect. */
  function Argv(e: Effect): (argv: seq<string>)
    ensures (e.RunShell? || e.MakeDirs? || e.OpenLog?) <==> argv == []
  {
    match e
    case Findmnt(mp) => ["findmnt", mp]
    case UdisksMount(dev) => ["udisksctl", "mount", "-b", dev]
    case SudoMount(dev, mp) => ["sudo", "mount", dev, mp]
    case UdisksUnmount(dev) => ["udisksctl", "unmount", "-b", dev]
    case SudoUmount(dev) => ["sudo", "umount", dev]
    case Rsync(source, dest, dryRun) => RsyncArgv(source, dest, dryRun)
    case Lsblk => ["lsblk", "-J", "-o", "NAME,UUID,LABEL,FSTYPE,SIZE,MOUNTPOINT,TYPE,HOTPLUG"]
    case _ => []
  }

  /** `rsync -av --delete --progress source/ dest`, with `--dry-run` last for a dry run. */
  function RsyncArgv(source: string, dest: string, dryRun: bool): seq<string> {
    ["rsync", "-av", "--delete", "--progress", source + "/", dest] + (if dryRun then ["--dry-run"] else [])
  }

  /**
   * rsync copies the contents of the source (the trailing "/") into dest,
   * and "--dry-run" is a seventh and last argument exactly for a dry run.
   */
  lemma RsyncArgvShape(source: string, dest: string, dryRun: bool)
    ensures var argv := RsyncArgv(source, dest, dryRun);
            && |argv| == (if dryRun then 7 else 6)
            && argv[0] == "rsync" && argv[4] == source + "/" && argv[5] == dest
            && (dryRun ==> argv[6] == "--dry-run")
  {
  }

  /** A logger line at INFO or ERROR level, or a line printed to standard output. */
  datatype Line = Info(msg: Msg) | Error(msg: Msg) | Out(msg: Msg)

  type World = nat -> Outcome

  datatype Io = Io(effects: seq<Effect>, log: seq<Line>)

  /** The answer the world gives to the next effect. */
  function Next(w: World, io: Io): Outcome {
    w(|io.effects|)
  }

  function Did(io: Io, e: Effect): (r: Io)
    ensures r.effects == io.effects + [e] && r.log == io.log
  {
    io.(effects := io.effects + [e])
  }

  function Say(io: Io, line: Line): (r: Io)
    ensures r.effects == io.effects && r.log == io.log + [line]
  {
    io.(log := io.log + [line])
  }

  function SayAll(io: Io, lines: seq<Line>): (r: Io)
    ensures r.effects == io.effects && r.log == io.log + lines
  {
    io.(log := io.log + lines)
  }

  /** A process that exited with status 0. */
  predicate Succeeded(o: Outcome) {
    o.Exited? && o.code == 0
  }

  /** `str(e)` of an exception. */
  function Message(o: Outcome): string {
    if o.Raised? then o.message else ""
  }
}
