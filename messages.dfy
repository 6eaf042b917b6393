/**
 * The lines the backup engine logs or prints and the messages it returns,
 * kept as values; `Render` gives each one's exact wording. Keeping them as
 * values lets the proofs about the engine talk about which line was written
 * without spelling out strings.
 */
module Messages {
  import opened Text

  datatype Msg =
    // mount_drive replies
    | AutoMountDisabled
    | AlreadyMounted(mountPoint: string)
    | MountedDevice(device: string)
    | MountedDeviceAt(device: string, mountPoint: string)
    | MountCommandFailed(stderr: string)
    | MountRaised(error: string)
    // run_custom_commands
    | RunningPhase(phase: string)
    | SkippingCommand(phase: string, number: nat, description: string)
    | RunningCommand(phase: string, number: nat, description: string)
    | CommandLine(command: string)
    | CommandSucceeded
    | CommandOutput(stdout: string)
    | CommandFailed(code: int)
    | StandardError(stderr: string)
    | CommandTimedOut(timeout: int)
    | CommandRaised(error: string)
    // sync_directory
    | Syncing(source: string, destination: string)
    | DryRunMode
    | SyncedSource(source: string)
    | RsyncHeader
    | RsyncHeaderTruncated
    | RsyncLine(line: string)
    | RsyncTruncated
    | RsyncFailed(source: string)
    | SyncRaised(source: string, error: string)
    // run_backup and run_backup_to_destination
    | ValidationFailed
    | ValidationItem(error: string)
    | StartingProfile(name: string)
    | SkippingDestination(number: nat)
    | ProcessingDestination(number: nat, target: string)
    | MountFailed(reason: Msg)
    | MountStatus(reason: Msg)
    | TargetFailed(error: string)
    | StartingBackupTo(target: string)
    | ProfileName(name: string)
    | SourceCount(count: nat)
    | PreFailedSkipping
    | PreFailed
    | SkippingSource(path: string)
    | PostFailed
    | SkippingPost
    | DestinationSucceeded
    | DestinationHadErrors
    | SourcesFailedLog(paths: seq<string>)
    | SourcesFailedReply(paths: seq<string>)
    | BackupSucceeded
    | DestinationDisabled
    | Unexpected(error: string)
    | Unmounting(device: string)
    | Unmounted(device: string)
    | UnmountFailed(device: string)

  /** The exact text of a message. */
  function Render(m: Msg): string {
    match m
    case AutoMountDisabled => "Auto-mount disabled"
    case AlreadyMounted(mp) => "Already mounted at " + mp
    case MountedDevice(dev) => "Mounted " + dev
    case MountedDeviceAt(dev, mp) => "Mounted " + dev + " at " + mp
    case MountCommandFailed(stderr) => "Failed to mount: " + stderr
    case MountRaised(e) => "Error mounting drive: " + e
    case RunningPhase(phase) => "Running " + phase + " commands..."
    case SkippingCommand(phase, n, d) => "Skipping disabled " + phase + " command " + IntToString(n) + ": " + d
    case RunningCommand(phase, n, d) => "Running " + phase + " command " + IntToString(n) + ": " + d
    case CommandLine(c) => "Command: " + c
    case CommandSucceeded => "Command completed successfully"
    case CommandOutput(out) => "Output: " + out
    case CommandFailed(code) => "Command failed with exit code " + IntToString(code)
    case StandardError(stderr) => "Error: " + stderr
    case CommandTimedOut(t) => "Command timed out after " + IntToString(t) + " seconds"
    case CommandRaised(e) => "Error running command: " + e
    case Syncing(s, d) => "Syncing " + s + " -> " + d
    case DryRunMode => "DRY RUN MODE - No files will actually be copied"
    case SyncedSource(s) => "Successfully synced " + s
    case RsyncHeader => "Rsync output:"
    case RsyncHeaderTruncated => "Rsync output (first 25 and last 25 lines):"
    case RsyncLine(line) => "  " + line
    case RsyncTruncated => "  ... (output truncated) ..."
    case RsyncFailed(s) => "Rsync failed for " + s
    case SyncRaised(s, e) => "Error syncing " + s + ": " + e
    case ValidationFailed => "Profile validation failed:"
    case ValidationItem(e) => "  - " + e
    case StartingProfile(name) => "Starting backup for profile: " + name
    case SkippingDestination(n) => "Skipping disabled destination " + IntToString(n)
    case ProcessingDestination(n, t) => "\nProcessing destination " + IntToString(n) + ": " + t
    case MountFailed(reason) => "Failed to mount drive: " + Render(reason)
    case MountStatus(reason) => "Mount status: " + Render(reason)
    case TargetFailed(e) => "Failed to create target directory: " + e
    case StartingBackupTo(t) => "Starting backup to " + t
    case ProfileName(name) => "Profile: " + name
    case SourceCount(n) => "Sources: " + IntToString(n) + " directories"
    case PreFailedSkipping => "Pre-backup commands failed, skipping this destination"
    case PreFailed => "Pre-backup commands failed"
    case SkippingSource(path) => "Skipping disabled source: " + path
    case PostFailed => "Post-backup commands failed"
    case SkippingPost => "Skipping post-backup commands due to source sync failures"
    case DestinationSucceeded => "Backup completed successfully for this destination"
    case DestinationHadErrors => "Backup completed with errors for this destination"
    case SourcesFailedLog(paths) => "Backup failed for sources: " + Join(paths, ", ")
    case SourcesFailedReply(paths) => "Failed to backup sources: " + Join(paths, ", ")
    case BackupSucceeded => "Backup completed successfully"
    case DestinationDisabled => "Destination is disabled"
    case Unexpected(e) => "Unexpected error during backup: " + e
    case Unmounting(dev) => "Unmounting " + dev + "..."
    case Unmounted(dev) => "Successfully unmounted " + dev
    case UnmountFailed(dev) => "Failed to unmount " + dev
  }
}
