/**
 * The configuration tool's `DriveManager` (managers/drive_manager.py): the
 * same lsblk listing as the backup side's drive manager, but every failure
 * of a refresh gives an empty list, mounting goes straight to sudo mount,
 * and unmounting a drive that is not mounted counts as success.
 */
module ManagedDrives {
  import opened Text
  import opened Messages
  import opened Effects
  import Drives

  /** The outcome of `refresh_drives()`: the list it returns and the effects asked for. */
  datatype Refreshed = Refreshed(drives: seq<Drives.DriveInfo>, io: Io)

  /** `refresh_drives()`: any exception on the way leaves the list empty. */
  function Refresh(w: World, decode: string -> Drives.Listing, io: Io): (r: Refreshed)
    ensures r.io == Did(io, Lsblk)
  {
    var listing := Next(w, io);
    var io1 := Did(io, Lsblk);
    if listing.Raised? || listing.code != 0 then Refreshed([], io1)
    else
      match decode(listing.stdout)
      case Devices(ds) => Refreshed(Drives.Walk(ds), io1)
      case _ => Refreshed([], io1)
  }

  /**
   * Both managers list the same drives whenever the backup side's refresh
   * returns; where that one raises, this one returns the empty list.
   */
  lemma RefreshAsOnBackupSide(w: World, decode: string -> Drives.Listing, io: Io)
    ensures var r := Refresh(w, decode, io);
            var b := Drives.Refresh(w, decode, io);
            && r.io == b.io
            && r.drives == (if b.result.Success? then b.result.value else [])
  {
  }

  /** A `(success, message)` pair and the effects asked for. */
  datatype Answer = Answer(ok: bool, message: Msg, io: Io)

  /** `mount_drive(drive_device, mount_point)`: findmnt, then the directory, then sudo mount. */
  function Mount(w: World, device: string, mountPoint: string, io: Io): Answer {
    var check := Next(w, io);
    var io1 := Did(io, Findmnt(mountPoint));
    if check.Raised? then Answer(false, MountRaised(check.message), io1)
    else if check.code == 0 then Answer(true, AlreadyMounted(mountPoint), io1)
    else
      var made := Next(w, io1);
      var io2 := Did(io1, MakeDirs(mountPoint));
      if made.Raised? then Answer(false, MountRaised(made.message), io2)
      else
        var sudo := Next(w, io2);
        var io3 := Did(io2, SudoMount(device, mountPoint));
        if sudo.Raised? then Answer(false, MountRaised(sudo.message), io3)
        else if sudo.code == 0 then Answer(true, MountedDeviceAt(device, mountPoint), io3)
        else Answer(false, MountCommandFailed(sudo.stderr), io3)
  }

  /**
   * Mounting never calls udisksctl: it tries findmnt, the directory and
   * sudo mount in that order, and succeeds exactly when the mount point is
   * already mounted or the directory is made and sudo mount exits 0.
   */
  lemma MountSkipsUdisks(w: World, device: string, mountPoint: string, io: Io)
    ensures var r := Mount(w, device, mountPoint, io);
            var n := |io.effects|;
            var steps := [Findmnt(mountPoint), MakeDirs(mountPoint), SudoMount(device, mountPoint)];
            && r.io.log == io.log
            && n < |r.io.effects| <= n + 3
            && r.io.effects == io.effects + steps[..|r.io.effects| - n]
            && (r.ok <==> Succeeded(w(n)) || (w(n).Exited? && w(n + 1).Exited? && Succeeded(w(n + 2))))
  {
  }

  /** `unmount_drive(drive_device)`: sudo umount, where "not mounted" on stderr also counts as done. */
  function Unmount(w: World, device: string, io: Io): (bool, Io) {
    var sudo := Next(w, io);
    var io1 := Did(io, SudoUmount(device));
    if sudo.Raised? then (false, io1)
    else if sudo.code == 0 then (true, io1)
    else if Contains(sudo.stderr, "not mounted") then (true, io1)
    else (false, io1)
  }

  /**
   * Unmounting runs sudo umount once, and reports success exactly when it
   * exits 0 or complains that the drive is not mounted; whenever the last
   * step of the backup side's unmount would succeed, so does this one.
   */
  lemma UnmountToleratesUnmounted(w: World, device: string, io: Io)
    ensures var (ok, io1) := Unmount(w, device, io);
            var o := w(|io.effects|);
            && io1 == Did(io, SudoUmount(device))
            && (ok <==> o.Exited? && (o.code == 0 || Contains(o.stderr, "not mounted")))
            && (Succeeded(o) ==> ok)
  {
  }

  /** The configuration tool's `DriveManager`, with its list of drives and the effects it has asked for. */
  class DriveManager {
    const world: World
    const decode: string -> Drives.Listing
    var drives: seq<Drives.DriveInfo>
    var io: Io

    constructor(world: World, decode: string -> Drives.Listing)
      ensures this.world == world && this.decode == decode && drives == [] && io == Io([], [])
    {
      this.world := world;
      this.decode := decode;
      drives := [];
      io := Io([], []);
    }

    method Perform(e: Effect) returns (o: Outcome)
      modifies this
      ensures o == Next(world, old(io)) && io == Did(old(io), e) && drives == old(drives)
    {
      o := world(|io.effects|);
      io := Did(io, e);
    }

    /** `refresh_drives()`. */
    method RefreshDrives() returns (found: seq<Drives.DriveInfo>)
      modifies this
      ensures Refreshed(found, io) == Refresh(world, decode, old(io)) && drives == found
    {
      drives := [];
      var listing := Perform(Lsblk);
      if listing.Raised? || listing.code != 0 {
        return drives;
      }
      var data := decode(listing.stdout);
      if data.Devices? {
        // `_parse_lsblk_output` here is the backup side's, line for line.
        var parser := new Drives.DriveManager(world, decode);
        parser.ParseLsblkOutput(data.devices, "");
        drives := parser.drives;
      }
      return drives;
    }

    /** `mount_drive(drive_device, mount_point)`. */
    method MountDrive(device: string, mountPoint: string) returns (ok: bool, message: Msg)
      modifies this
      ensures Answer(ok, message, io) == Mount(world, device, mountPoint, old(io)) && drives == old(drives)
    {
      var check := Perform(Findmnt(mountPoint));
      if check.Raised? {
        return false, MountRaised(check.message);
      }
      if check.code == 0 {
        return true, AlreadyMounted(mountPoint);
      }
      var made := Perform(MakeDirs(mountPoint));
      if made.Raised? {
        return false, MountRaised(made.message);
      }
      var sudo := Perform(SudoMount(device, mountPoint));
      if sudo.Raised? {
        return false, MountRaised(sudo.message);
      }
      if sudo.code == 0 {
        return true, MountedDeviceAt(device, mountPoint);
      }
      return false, MountCommandFailed(sudo.stderr);
    }

    /** `unmount_drive(drive_device)`. */
    method UnmountDrive(device: string) returns (ok: bool)
      modifies this
      ensures (ok, io) == Unmount(world, device, old(io)) && drives == old(drives)
    {
      var sudo := Perform(SudoUmount(device));
      if sudo.Raised? {
        return false;
      }
      if sudo.code == 0 {
        return true;
      }
      return Contains(sudo.stderr, "not mounted");
    }
  }
}
