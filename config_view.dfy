/**
 * The parts of `BackupConfigView` (gui/backup_config_view.py) that decide
 * something: the text truncation of its labels, the check made before a
 * backup is started, and the schedule status it shows. The message boxes
 * and the widget styling calls are output only.
 */
module ConfigView {
  import opened Wrappers
  import opened Text
  import opened Config
  import Cron
  import ScheduleStatus

  /** `_truncate_text(text, max_length)`: too long a text is cut and ends in "...". */
  function Truncate(text: string, maxLength: int): string {
    if |text| <= maxLength then text else PyPrefix(text, maxLength - 3) + "..."
  }

  /**
   * A text that fits comes back unchanged; a longer one keeps its first
   * `maxLength - 3` characters, so for a limit of at least 3 the result is
   * exactly `maxLength` long and agrees with the text up to the dots.
   */
  lemma TruncateFits(text: string, maxLength: int)
    ensures |text| <= maxLength ==> Truncate(text, maxLength) == text
    ensures |text| > maxLength >= 3 ==>
              var r := Truncate(text, maxLength);
              |r| == maxLength && r[..maxLength - 3] == text[..maxLength - 3] && EndsWith(r, "...")
  {
  }

  /** Truncating twice to a limit of at least 3 is truncating once. */
  lemma TruncateIdempotent(text: string, maxLength: int)
    requires maxLength >= 3
    ensures Truncate(Truncate(text, maxLength), maxLength) == Truncate(text, maxLength)
  {
    TruncateFits(text, maxLength);
  }

  /** What `validate_profile_for_backup` decides: go ahead, or the warning it shows. */
  datatype Readiness = Ready | Warn(title: string, message: string)

  /** `validate_profile_for_backup()`: a profile, a source and a destination are needed, checked in that order. */
  function ReadyForBackup(profile: Option<Profile>): Readiness {
    if profile.None? then Warn("No Profile", "No profile loaded. Please create or open a profile first.")
    else if profile.value.sources == [] then
      Warn("No Sources", "No backup sources defined. Please add at least one source directory.")
    else if profile.value.destinations == [] then
      Warn("No Destinations", "No backup destinations defined. Please add at least one destination.")
    else Ready
  }

  /**
   * A backup may start exactly when there is a profile with at least one
   * source and one destination; the warning names the first thing missing.
   */
  lemma ReadyExactly(profile: Option<Profile>)
    ensures ReadyForBackup(profile).Ready? <==> profile.Some? && profile.value.sources != [] && profile.value.destinations != []
    ensures ReadyForBackup(profile).Warn? ==>
              ReadyForBackup(profile).title ==
                if profile.None? then "No Profile" else if profile.value.sources == [] then "No Sources" else "No Destinations"
  {
  }

  /** The schedule status shown: the label text, its style, and the profile box's style. */
  datatype StatusView = StatusView(text: string, labelStyle: string, groupStyle: string)

  const ManualView := StatusView("Manual Mode", "font-size: 11px; color: #666;", "QGroupBox { border: 2px solid #CCCCCC; }")

  /**
   * `update_schedule_status()`, given the crontab the cron manager reads.
   * The days text is worked out as `_format_days` does; None when it raises.
   */
  function ScheduleView(profile: Option<Profile>, crontab: string): Option<StatusView> {
    if profile.None? then Some(ManualView)
    else
      var s := profile.value.schedule;
      var jobStatus := Cron.JobStatus(crontab);
      if s.enabled && jobStatus.Some? && jobStatus.value != "" then
        match ScheduleStatus.FormatDays(s.daysOfWeek)
        case None => None
        case Some(daysText) =>
          var text := "Scheduled Mode - " + ScheduleStatus.TimeText(s) + " " + daysText;
          Some(StatusView(Truncate(text, 40), "font-size: 11px; color: #007ACC; font-weight: bold;",
                          "QGroupBox { border: 2px solid #007ACC; }"))
      else Some(ManualView)
  }

  /**
   * The main view and the schedule status manager agree: the view shows the
   * manager's text cut to 40 characters, in blue exactly when the manager
   * says the schedule is active, and it raises exactly when the manager does.
   */
  lemma ViewAgreesWithStatusManager(profile: Option<Profile>, crontab: string)
    ensures var v := ScheduleView(profile, crontab);
            var d := ScheduleStatus.DisplayInfo(profile, Cron.JobStatus(crontab));
            && (v.None? <==> d.None?)
            && (v.Some? ==> v.value.text == Truncate(d.value.text, 40) && |v.value.text| <= 40)
            && (v.Some? ==> (v.value == ManualView <==> d.value.color == "#666"))
  {
    var v := ScheduleView(profile, crontab);
    var d := ScheduleStatus.DisplayInfo(profile, Cron.JobStatus(crontab));
    if v.Some? {
      TruncateFits(d.value.text, 40);
    }
  }
}
