/**
 * `DriveManager` (drive_manager.py): the drives lsblk reports, filtered for
 * the backup configuration, and mounting and unmounting a drive. lsblk and
 * the mount commands are effects answered by a world; decoding lsblk's JSON
 * output is a parameter.
 */
module Drives {
  import opened Wrappers
  import opened Text
  import opened Messages
  import opened Effects
  import EngineSteps
  import Config

  // ---------------------------------------------------------------------
  // The lsblk tree and the entries taken from it

  /** A JSON value of which the source only asks whether it is truthy. */
  datatype Flag = Missing | Null | Boolean(b: bool) | Number(n: int) | Chars(s: string)

  /** Python's `bool(device.get(key))`. */
  predicate Truthy(f: Flag) {
    match f
    case Boolean(b) => b
    case Number(n) => n != 0
    case Chars(s) => s != ""
    case _ => false
  }

  /**
   * One entry of lsblk's `blockdevices` tree. A text field holds what
   * `device.get(key, '')` gives: the string, "" for a missing key, None for
   * a JSON null. `kind` is `device.get('type')`; a missing `children` key
   * reads as no children.
   */
  datatype Device = Device(
    name: string,
    kind: Option<string>,
    uuid: Option<string>,
    fsLabel: Option<string>,
    fstype: Option<string>,
    size: Option<string>,
    mountpoint: Option<string>,
    hotplug: Flag,
    children: seq<Device>)

  /** Python's `bool(v)` of a text field. */
  predicate Filled(v: Option<string>) {
    v.Some? && v.value != ""
  }

  /** `DriveInfo`. */
  datatype DriveInfo = DriveInfo(
    device: string,
    uuid: Option<string>,
    fsLabel: Option<string>,
    fstype: Option<string>,
    size: Option<string>,
    mountpoint: Option<string>,
    isMounted: bool,
    isRemovable: bool)

  /** Loop devices, RAM disks and optical drives are passed over, with everything below them. */
  predicate Skipped(d: Device) {
    StartsWith(d.name, "loop") || StartsWith(d.name, "ram") || d.kind == Some("rom")
  }

  /** The entry built for a device. */
  function InfoOf(d: Device): DriveInfo {
    DriveInfo("/dev/" + d.name, d.uuid, d.fsLabel, d.fstype, d.size, d.mountpoint, Filled(d.mountpoint), Truthy(d.hotplug))
  }

  /** Only drives with a file system, or removable ones, are listed. */
  predicate Listed(info: DriveInfo) {
    Filled(info.fstype) || info.isRemovable
  }

  /** What `_parse_lsblk_output` appends for a list of devices: each device's share, in order. */
  function Walk(devices: seq<Device>): seq<DriveInfo>
    decreases devices
  {
    if devices == [] then [] else Walk(devices[..|devices| - 1]) + Visit(devices[|devices| - 1])
  }

  /** One device's share: nothing when it is skipped, else its entry if listed, then its children's shares. */
  function Visit(d: Device): seq<DriveInfo>
    decreases d
  {
    if Skipped(d) then [] else (if Listed(InfoOf(d)) then [InfoOf(d)] else []) + Walk(d.children)
  }

  /** Siblings keep their order: the entries of two runs of devices are those of each, one after the other. */
  lemma {:induction false} WalkConcat(xs: seq<Device>, ys: seq<Device>)
    ensures Walk(xs + ys) == Walk(xs) + Walk(ys)
    decreases |ys|
  {
    if ys == [] {
      assert xs + ys == xs;
    } else {
      var init := ys[..|ys| - 1];
      WalkConcat(xs, init);
      assert (xs + ys)[..|xs + ys| - 1] == xs + init;
      assert (xs + ys)[|xs + ys| - 1] == ys[|ys| - 1];
      assert Walk(xs + ys) == Walk(xs + init) + Visit(ys[|ys| - 1]);
    }
  }

  /** A skipped device takes itself and everything below it out, and leaves its neighbours' entries alone. */
  lemma SkippedSubtreeVanishes(xs: seq<Device>, d: Device, ys: seq<Device>)
    requires Skipped(d)
    ensures Walk(xs + [d] + ys) == Walk(xs) + Walk(ys)
  {
    WalkConcat(xs + [d], ys);
    assert (xs + [d])[..|xs|] == xs;
    assert (xs + [d])[|xs|] == d;
    assert Walk(xs + [d]) == Walk(xs) + Visit(d);
    assert Visit(d) == [];
  }

  /** A kept device comes before the entries of its children. */
  lemma DeviceBeforeChildren(xs: seq<Device>, d: Device)
    requires !Skipped(d) && Listed(InfoOf(d))
    ensures var w := Walk(xs + [d]);
            var k := |Walk(xs)|;
            k < |w| && w[k] == InfoOf(d) && w[k + 1..] == Walk(d.children)
  {
    assert (xs + [d])[..|xs|] == xs;
  }

  /**
   * What an entry looks like: a device path "/dev/" + name, for a name
   * that is not a loop device or a RAM disk; a file system or a removable
   * drive; mounted exactly when it has a mount point.
   */
  predicate ProperEntry(x: DriveInfo) {
    StartsWith(x.device, "/dev/") &&
    !StartsWith(x.device[5..], "loop") && !StartsWith(x.device[5..], "ram") &&
    Listed(x) && (x.isMounted <==> Filled(x.mountpoint))
  }

  lemma {:induction false} WalkEntries(devices: seq<Device>)
    ensures forall k :: 0 <= k < |Walk(devices)| ==> ProperEntry(Walk(devices)[k])
    decreases devices
  {
    if devices != [] {
      WalkEntries(devices[..|devices| - 1]);
      VisitEntries(devices[|devices| - 1]);
    }
  }

  lemma {:induction false} VisitEntries(d: Device)
    ensures forall k :: 0 <= k < |Visit(d)| ==> ProperEntry(Visit(d)[k])
    decreases d
  {
    if !Skipped(d) {
      WalkEntries(d.children);
      var info := InfoOf(d);
      assert info.device[5..] == d.name;
    }
  }

  // ---------------------------------------------------------------------
  // refresh_drives

  /** `json.loads(stdout)['blockdevices']`: the devices, bad JSON, or JSON without that key. */
  datatype Listing = Devices(devices: seq<Device>) | NotJson | NoBlockDevices

  /**
   * The outcome of `refresh_drives()`: the list it returns, or the message
   * of an exception it lets through, and the effects asked for.
   */
  datatype Refreshed = Refreshed(result: Result<seq<DriveInfo>, string>, io: Io)

  /**
   * `refresh_drives()`: a failing lsblk and bad JSON leave the list empty;
   * an lsblk that cannot be started, and JSON without `blockdevices`
   * (a KeyError), raise out of it.
   */
  function Refresh(w: World, decode: string -> Listing, io: Io): Refreshed {
    var listing := Next(w, io);
    var io1 := Did(io, Lsblk);
    if listing.Raised? then Refreshed(Failure(listing.message), io1)
    else if listing.code != 0 then Refreshed(Success([]), io1)
    else
      match decode(listing.stdout)
      case NotJson => Refreshed(Success([]), io1)
      case NoBlockDevices => Refreshed(Failure("'blockdevices'"), io1)
      case Devices(ds) => Refreshed(Success(Walk(ds)), io1)
  }

  /**
   * Refreshing asks lsblk once; the list it returns is empty unless lsblk
   * exited 0 with a device tree, and then it is that tree's proper
   * entries; it raises only when lsblk could not run or the key is missing.
   */
  lemma RefreshOutcome(w: World, decode: string -> Listing, io: Io)
    ensures var r := Refresh(w, decode, io);
            var o := w(|io.effects|);
            && r.io == Did(io, Lsblk)
            && (r.result.Failure? <==> o.Raised? || (Succeeded(o) && decode(o.stdout).NoBlockDevices?))
            && (r.result.Success? && r.result.value != [] ==> Succeeded(o) && decode(o.stdout).Devices?)
            && (r.result.Success? ==> forall k :: 0 <= k < |r.result.value| ==> ProperEntry(r.result.value[k]))
  {
    var o := w(|io.effects|);
    if Succeeded(o) && decode(o.stdout).Devices? {
      WalkEntries(decode(o.stdout).devices);
    }
  }

  // ---------------------------------------------------------------------
  // mount_drive

  /** A `(success, message)` pair and the effects asked for. */
  datatype Answer = Answer(reply: EngineSteps.Reply, io: Io)

  /** `mount_drive(drive_device, mount_point)`: findmnt, then the directory, then udisksctl, then sudo mount. */
  function Mount(w: World, device: string, mountPoint: string, io: Io): Answer {
    var check := Next(w, io);
    var io1 := Did(io, Findmnt(mountPoint));
    if check.Raised? then Answer(EngineSteps.Reply(false, MountRaised(check.message)), io1)
    else if check.code == 0 then Answer(EngineSteps.Reply(true, AlreadyMounted(mountPoint)), io1)
    else
      var made := Next(w, io1);
      var io2 := Did(io1, MakeDirs(mountPoint));
      if made.Raised? then Answer(EngineSteps.Reply(false, MountRaised(made.message)), io2)
      else
        var udisks := Next(w, io2);
        var io3 := Did(io2, UdisksMount(device));
        if udisks.Raised? then Answer(EngineSteps.Reply(false, MountRaised(udisks.message)), io3)
        else if udisks.code == 0 then Answer(EngineSteps.Reply(true, MountedDevice(device)), io3)
        else
          var sudo := Next(w, io3);
          var io4 := Did(io3, SudoMount(device, mountPoint));
          if sudo.Raised? then Answer(EngineSteps.Reply(false, MountRaised(sudo.message)), io4)
          else if sudo.code == 0 then Answer(EngineSteps.Reply(true, MountedDeviceAt(device, mountPoint)), io4)
          else Answer(EngineSteps.Reply(false, MountCommandFailed(sudo.stderr)), io4)
  }

  /** The steps of a mount, in the order they are tried. */
  function MountSteps(device: string, mountPoint: string): seq<Effect> {
    [Findmnt(mountPoint), MakeDirs(mountPoint), UdisksMount(device), SudoMount(device, mountPoint)]
  }

  /**
   * Mounting tries findmnt, the directory, udisksctl and sudo mount in
   * that order, stopping at the first that settles it. It succeeds exactly
   * when the mount point is already mounted, or the directory is made and
   * udisksctl or else sudo mount exits 0; so it fails only after both
   * mount commands have failed, or on an exception.
   */
  lemma MountTriesInOrder(w: World, device: string, mountPoint: string, io: Io)
    ensures var r := Mount(w, device, mountPoint, io);
            var n := |io.effects|;
            && r.io.log == io.log
            && n < |r.io.effects| <= n + 4
            && r.io.effects == io.effects + MountSteps(device, mountPoint)[..|r.io.effects| - n]
            && (r.reply.ok <==>
                  Succeeded(w(n)) ||
                  (w(n).Exited? && w(n + 1).Exited? && (Succeeded(w(n + 2)) || (w(n + 2).Exited? && Succeeded(w(n + 3))))))
  {
  }

  /**
   * The drive manager mounts as the backup engine does for a destination
   * with auto-mount on: same answer, same effects.
   */
  lemma MountAsInEngine(w: World, d: Config.Destination, mounted: seq<string>, io: Io)
    requires d.autoMount
    ensures var r := Mount(w, d.driveDevice, d.mountPoint, io);
            var e := EngineSteps.Mount(w, d, EngineSteps.State(mounted, io));
            r.reply == e.reply && r.io == e.st.io
  {
  }

  // ---------------------------------------------------------------------
  // The manager

  /** `DriveManager`, with the list of drives it keeps and the effects it has asked for. */
  class DriveManager {
    const world: World
    const decode: string -> Listing
    var drives: seq<DriveInfo>
    var io: Io

    constructor(world: World, decode: string -> Listing)
      ensures this.world == world && this.decode == decode && drives == [] && io == Io([], [])
    {
      this.world := world;
      this.decode := decode;
      drives := [];
      io := Io([], []);
    }

    method Perform(e: Effect) returns (o: Outcome)
      modifies this
      ensures o == Next(world, old(io)) && io == Did(old(io), e) && drives == old(drives)
    {
      o := world(|io.effects|);
      io := Did(io, e);
    }

    /** `refresh_drives()`. */
    method RefreshDrives() returns (r: Result<seq<DriveInfo>, string>)
      modifies this
      ensures Refreshed(r, io) == Refresh(world, decode, old(io))
      ensures drives == if r.Success? then r.value else []
    {
      drives := [];
      var listing := Perform(Lsblk);
      if listing.Raised? {
        return Failure(listing.message);
      }
      if listing.code != 0 {
        return Success(drives);
      }
      match decode(listing.stdout)
      case NotJson =>
        return Success(drives);
      case NoBlockDevices =>
        return Failure("'blockdevices'");
      case Devices(ds) =>
        ParseLsblkOutput(ds, "");
        assert drives == Walk(ds);
        return Success(drives);
    }

    /** `_parse_lsblk_output(devices, parent_device)`: appends the entries of the devices, depth first. */
    method ParseLsblkOutput(devices: seq<Device>, parentDevice: string)
      modifies this
      ensures drives == old(drives) + Walk(devices) && io == old(io)
      decreases devices
    {
      for i := 0 to |devices|
        invariant drives == old(drives) + Walk(devices[..i]) && io == old(io)
      {
        assert devices[..i + 1][..i] == devices[..i];
        ParseDevice(devices[i], parentDevice);
      }
      assert devices[..|devices|] == devices;
    }

    /** One pass of the loop in `_parse_lsblk_output`: the device's entry, then its children's. */
    method ParseDevice(device: Device, parentDevice: string)
      modifies this
      ensures drives == old(drives) + Visit(device) && io == old(io)
      decreases device
    {
      var devicePath := "/dev/" + device.name;
      if StartsWith(device.name, "loop") || StartsWith(device.name, "ram") || device.kind == Some("rom") {
        return;
      }
      if device.kind == Some("part") && parentDevice != "" {
        devicePath := "/dev/" + device.name;
      }
      var info := DriveInfo(devicePath, device.uuid, device.fsLabel, device.fstype, device.size,
                            device.mountpoint, Filled(device.mountpoint), Truthy(device.hotplug));
      if Filled(info.fstype) || info.isRemovable {
        drives := drives + [info];
      }
      if device.children != [] {
        ParseLsblkOutput(device.children, device.name);
      }
    }

    /** `mount_drive(drive_device, mount_point)`. */
    method MountDrive(device: string, mountPoint: string) returns (ok: bool, message: Msg)
      modifies this
      ensures Answer(EngineSteps.Reply(ok, message), io) == Mount(world, device, mountPoint, old(io))
      ensures drives == old(drives)
    {
      var check := Perform(Findmnt(mountPoint));
      if check.Raised? {
        return false, MountRaised(check.message);
      }
      if check.code == 0 {
        return true, AlreadyMounted(mountPoint);
      }
      var made := Perform(MakeDirs(mountPoint));
      if made.Raised? {
        return false, MountRaised(made.message);
      }
      var udisks := Perform(UdisksMount(device));
      if udisks.Raised? {
        return false, MountRaised(udisks.message);
      }
      if udisks.code == 0 {
        return true, MountedDevice(device);
      }
      var sudo := Perform(SudoMount(device, mountPoint));
      if sudo.Raised? {
        return false, MountRaised(sudo.message);
      }
      if sudo.code == 0 {
        return true, MountedDeviceAt(device, mountPoint);
      }
      return false, MountCommandFailed(sudo.stderr);
    }

    /** `unmount_drive(drive_device)`: the same steps as the backup engine's. */
    method UnmountDrive(device: string) returns (ok: bool)
      modifies this
      ensures EngineSteps.Done(ok, io) == EngineSteps.Unmount(world, device, old(io)) && drives == old(drives)
    {
      var udisks := Perform(UdisksUnmount(device));
      if udisks.Raised? {
        return false;
      }
      if udisks.code == 0 {
        return true;
      }
      var sudo := Perform(SudoUmount(device));
      if sudo.Raised? {
        return false;
      }
      return sudo.code == 0;
    }
  }
}
