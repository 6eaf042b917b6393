/**
 * `SourcesTab` (gui/tabs/sources_tab.py): each source directory is listed
 * with the drive it lives on, found as the mounted drive with the longest
 * mount point that starts the path. The drive list comes from the
 * configuration tool's drive manager, refreshed for every source.
 */
module SourcesTab {
  import opened Wrappers
  import opened Text
  import opened Effects
  import opened Config
  import Drives
  import ManagedDrives

  /** A drive that may hold the path: mounted, with a mount point that is a prefix of the path as text. */
  predicate Holds(d: Drives.DriveInfo, path: string) {
    d.isMounted && Drives.Filled(d.mountpoint) && StartsWith(path, d.mountpoint.value)
  }

  /** The length of the chosen mount point, 0 before any is chosen. */
  function BestLength(drives: seq<Drives.DriveInfo>, best: Option<nat>): nat
    requires best.Some? ==> best.value < |drives| && drives[best.value].mountpoint.Some?
  {
    if best.None? then 0 else |drives[best.value].mountpoint.value|
  }

  /**
   * The index of the drive `_get_drive_for_path` settles on after looking
   * at `drives`: a later drive replaces the choice only with a strictly
   * longer mount point.
   */
  function BestDrive(drives: seq<Drives.DriveInfo>, path: string): (r: Option<nat>)
    ensures r.Some? ==> r.value < |drives| && Holds(drives[r.value], path)
  {
    if drives == [] then None
    else
      var n := |drives| - 1;
      var before := BestDrive(drives[..n], path);
      if Holds(drives[n], path) && |drives[n].mountpoint.value| > BestLength(drives[..n], before) then Some(n)
      else before
  }

  /**
   * The choice is a drive holding the path, there is one exactly when some
   * drive holds it, no drive holding it has a longer mount point, and every
   * earlier one holding it has a shorter one: ties keep the first.
   */
  lemma {:induction false} BestDriveIsLongest(drives: seq<Drives.DriveInfo>, path: string)
    ensures var r := BestDrive(drives, path);
            && (r.None? <==> forall j :: 0 <= j < |drives| ==> !Holds(drives[j], path))
            && (r.Some? ==> forall j :: 0 <= j < |drives| && Holds(drives[j], path) ==>
                  |drives[j].mountpoint.value| <= |drives[r.value].mountpoint.value| &&
                  (j < r.value ==> |drives[j].mountpoint.value| < |drives[r.value].mountpoint.value|))
  {
    if drives != [] {
      var n := |drives| - 1;
      var init := drives[..n];
      BestDriveIsLongest(init, path);
      assert forall j :: 0 <= j < n ==> init[j] == drives[j];
    }
  }

  /** What is put before the path: the device and an arrow, or nothing. */
  function DrivePrefix(drives: seq<Drives.DriveInfo>, path: string): string {
    match BestDrive(drives, path)
    case None => ""
    case Some(k) => drives[k].device + " → "
  }

  /** The loop of `_get_drive_for_path` over the refreshed drives. */
  method MatchDrive(drives: seq<Drives.DriveInfo>, path: string) returns (prefix: string)
    ensures prefix == DrivePrefix(drives, path)
  {
    var bestMatch: Option<nat> := None;
    var bestLength := 0;
    for i := 0 to |drives|
      invariant bestMatch == BestDrive(drives[..i], path)
      invariant bestLength == BestLength(drives[..i], bestMatch)
    {
      assert drives[..i + 1][..i] == drives[..i];
      var drive := drives[i];
      if drive.isMounted && Drives.Filled(drive.mountpoint) {
        if StartsWith(path, drive.mountpoint.value) {
          if |drive.mountpoint.value| > bestLength {
            bestMatch := Some(i);
            bestLength := |drive.mountpoint.value|;
          }
        }
      }
    }
    assert drives[..|drives|] == drives;
    prefix := if bestMatch.Some? then drives[bestMatch.value].device + " → " else "";
  }

  /** An entry of the list: its label and the source it stands for. */
  datatype Item = Item(text: string, source: Source)

  /** The label of a source: a tick or a cross, then the drive prefix and the path. */
  function Label(source: Source, prefix: string): string {
    (if source.enabled then "✓" else "✗") + " " + prefix + source.path
  }

  /** What `load_from_profile` leaves: the list, the drive manager's record, its last drive list. */
  datatype Loaded = Loaded(items: seq<Item>, io: Io, drives: seq<Drives.DriveInfo>)

  /** Listing `sources` one after another, each after its own refresh of the drives. */
  function LoadSources(w: World, decode: string -> Drives.Listing, sources: seq<Source>, io: Io, drives: seq<Drives.DriveInfo>): Loaded
  {
    if sources == [] then Loaded([], io, drives)
    else
      var before := LoadSources(w, decode, sources[..|sources| - 1], io, drives);
      var source := sources[|sources| - 1];
      var found := ManagedDrives.Refresh(w, decode, before.io);
      Loaded(before.items + [Item(Label(source, DrivePrefix(found.drives, source.path)), source)], found.io, found.drives)
  }

  /** An entry for a source: that source, marked as it is enabled, labelled with its path at the end. */
  predicate EntryFor(item: Item, source: Source) {
    item.source == source &&
    StartsWith(item.text, if source.enabled then "✓ " else "✗ ") &&
    EndsWith(item.text, source.path)
  }

  lemma LabelEnds(source: Source, prefix: string)
    ensures EntryFor(Item(Label(source, prefix), source), source)
  {
    var shown := Label(source, prefix);
    assert shown[|shown| - |source.path|..] == source.path;
  }

  /** There is one entry per source, in order. */
  lemma {:induction false} LoadSourcesItems(w: World, decode: string -> Drives.Listing, sources: seq<Source>, io: Io, drives: seq<Drives.DriveInfo>)
    ensures var r := LoadSources(w, decode, sources, io, drives);
            |r.items| == |sources| && forall k :: 0 <= k < |sources| ==> EntryFor(r.items[k], sources[k])
  {
    if sources != [] {
      var n := |sources| - 1;
      LoadSourcesItems(w, decode, sources[..n], io, drives);
      var before := LoadSources(w, decode, sources[..n], io, drives);
      var found := ManagedDrives.Refresh(w, decode, before.io);
      var prefix := DrivePrefix(found.drives, sources[n].path);
      LabelEnds(sources[n], prefix);
      var r := LoadSources(w, decode, sources, io, drives);
      assert r.items == before.items + [Item(Label(sources[n], prefix), sources[n])];
      forall k | 0 <= k < n
        ensures EntryFor(r.items[k], sources[k])
      {
        assert r.items[k] == before.items[k] && sources[k] == sources[..n][k];
      }
    }
  }

  /** Every source costs one lsblk run, and nothing else is asked of the world. */
  lemma {:induction false} LoadSourcesEffects(w: World, decode: string -> Drives.Listing, sources: seq<Source>, io: Io, drives: seq<Drives.DriveInfo>)
    ensures var r := LoadSources(w, decode, sources, io, drives);
            && |r.io.effects| == |io.effects| + |sources|
            && r.io.effects[..|io.effects|] == io.effects
            && (forall k :: |io.effects| <= k < |r.io.effects| ==> r.io.effects[k] == Lsblk)
            && r.io.log == io.log
  {
    if sources != [] {
      LoadSourcesEffects(w, decode, sources[..|sources| - 1], io, drives);
    }
  }

  /** The tab, with its list of entries and the drive manager it asks. */
  class Tab {
    const manager: ManagedDrives.DriveManager
    var items: seq<Item>

    constructor(manager: ManagedDrives.DriveManager)
      ensures this.manager == manager && items == []
    {
      this.manager := manager;
      items := [];
    }

    /** `_get_drive_for_path(path)`. */
    method GetDriveForPath(path: string) returns (prefix: string)
      modifies manager
      ensures var found := ManagedDrives.Refresh(manager.world, manager.decode, old(manager.io));
              prefix == DrivePrefix(found.drives, path) && manager.io == found.io && manager.drives == found.drives
    {
      var drives := manager.RefreshDrives();
      prefix := MatchDrive(drives, path);
    }

    /** `load_from_profile(profile)`: the list is cleared, then one entry per source is added. */
    method LoadFromProfile(profile: Profile)
      modifies this, manager
      ensures Loaded(items, manager.io, manager.drives) ==
              LoadSources(manager.world, manager.decode, profile.sources, old(manager.io), old(manager.drives))
    {
      items := [];
      var sources := profile.sources;
      for i := 0 to |sources|
        invariant Loaded(items, manager.io, manager.drives) ==
                  LoadSources(manager.world, manager.decode, sources[..i], old(manager.io), old(manager.drives))
      {
        assert sources[..i + 1][..i] == sources[..i];
        var source := sources[i];
        var driveInfo := GetDriveForPath(source.path);
        items := items + [Item(Label(source, driveInfo), source)];
      }
      assert sources[..|sources|] == sources;
    }
  }
}
