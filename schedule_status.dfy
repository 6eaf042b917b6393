/**
 * `ScheduleStatusManager` (managers/schedule_status_manager.py): whether a
 * profile's schedule is live in cron, and the text and colour the main view
 * shows for it. The cron job status it asks its cron manager for is a
 * parameter.
 */
module ScheduleStatus {
  import opened Wrappers
  import opened Text
  import opened Sorting
  import opened Config
  import Cron

  const ShortDayNames: seq<string> := ["Mon", "Tue", "Wed", "Thu", "Fri", "Sat", "Sun"]

  /** `len(days) == 7 and set(days) == set(range(7))`. */
  predicate EveryDay(days: seq<int>) {
    |days| == 7 && (forall d :: 0 <= d < 7 ==> d in days) && (forall k :: 0 <= k < |days| ==> 0 <= days[k] < 7)
  }

  /** The days `i < 7` of a list, in order, duplicates and all. */
  function BelowSeven(days: seq<int>): (r: seq<int>)
    ensures forall k :: 0 <= k < |r| ==> r[k] < 7
  {
    if days == [] then []
    else (if days[0] < 7 then [days[0]] else []) + BelowSeven(days[1..])
  }

  /** `day_names[i]` for `-7 <= i < 7`, negative indices counting from the end. */
  function ShortName(day: int): (r: string)
    requires -7 <= day < 7
    ensures |r| == 3
  {
    ShortDayNames[if day < 0 then day + 7 else day]
  }

  function ShortNames(days: seq<int>): (r: seq<string>)
    requires forall k :: 0 <= k < |days| ==> -7 <= days[k] < 7
    ensures |r| == |days| && forall k :: 0 <= k < |days| ==> r[k] == ShortName(days[k])
  {
    if days == [] then [] else [ShortName(days[0])] + ShortNames(days[1..])
  }

  /**
   * `_format_days(days_of_week)`: "Daily", "Never", or the names of the
   * sorted days below 7. A day below -7 makes `day_names[i]` raise an
   * IndexError, given here as None.
   */
  function FormatDays(days: seq<int>): Option<string> {
    if EveryDay(days) then Some("Daily")
    else if |days| == 0 then Some("Never")
    else
      var shown := BelowSeven(SortInts(days));
      if forall k :: 0 <= k < |shown| ==> -7 <= shown[k] then Some(Join(ShortNames(shown), ", "))
      else None
  }

  /** A day list joined from three-letter names is never five characters long. */
  lemma {:induction false} JoinedNamesLength(names: seq<string>)
    requires forall k :: 0 <= k < |names| ==> |names[k]| == 3
    ensures |Join(names, ", ")| == if names == [] then 0 else 5 * |names| - 2
    decreases |names|
  {
    if |names| > 1 {
      JoinedNamesLength(names[1..]);
    }
  }

  /** The days kept for display are those below 7, each as often as it was chosen. */
  lemma {:induction false} BelowSevenCounts(days: seq<int>)
    ensures forall x :: multiset(BelowSeven(days))[x] == if x < 7 then multiset(days)[x] else 0
  {
    if days != [] {
      BelowSevenCounts(days[1..]);
      assert days == [days[0]] + days[1..];
    }
  }

  /** Filtering keeps the order. */
  lemma {:induction false} BelowSevenSorted(days: seq<int>)
    requires SortedInts(days)
    ensures SortedInts(BelowSeven(days))
  {
    if days != [] {
      BelowSevenSorted(days[1..]);
      BelowSevenBounded(days[1..], days[0]);
    }
  }

  lemma {:induction false} BelowSevenBounded(days: seq<int>, low: int)
    requires SortedInts(days) && (days != [] ==> low <= days[0])
    ensures forall k :: 0 <= k < |BelowSeven(days)| ==> low <= BelowSeven(days)[k]
  {
    if days != [] {
      BelowSevenBounded(days[1..], low);
    }
  }

  /** Named days never read "Daily" or "Never": their text is never five characters long. */
  lemma NamedDaysLength(days: seq<int>)
    requires !EveryDay(days) && days != [] && FormatDays(days).Some?
    ensures |FormatDays(days).value| != 5
  {
    JoinedNamesLength(ShortNames(BelowSeven(SortInts(days))));
  }

  /** "Daily" exactly for the seven days in some order, "Never" exactly for no days. */
  lemma FormatDaysDailyNever(days: seq<int>)
    ensures FormatDays(days) == Some("Daily") <==> EveryDay(days)
    ensures FormatDays(days) == Some("Never") <==> days == []
  {
    if !EveryDay(days) && days != [] && FormatDays(days).Some? {
      NamedDaysLength(days);
    }
  }

  /** The days shown by name are the sorted days below 7, each as often as it was chosen. */
  lemma ShownDays(days: seq<int>)
    ensures var shown := BelowSeven(SortInts(days));
            && SortedInts(shown)
            && (forall x :: multiset(shown)[x] == if x < 7 then multiset(days)[x] else 0)
  {
    BelowSevenCounts(SortInts(days));
    BelowSevenSorted(SortInts(days));
  }

  /** Every day shown is at least -7 exactly when every day chosen is. */
  lemma ShownInRange(days: seq<int>)
    ensures var shown := BelowSeven(SortInts(days));
            (forall k :: 0 <= k < |shown| ==> -7 <= shown[k]) <==> (forall k :: 0 <= k < |days| ==> -7 <= days[k])
  {
    var shown := BelowSeven(SortInts(days));
    ShownDays(days);
    if exists k :: 0 <= k < |days| && days[k] < -7 {
      var k :| 0 <= k < |days| && days[k] < -7;
      assert days[k] in multiset(days);
      assert days[k] in multiset(shown);
      assert days[k] in shown;
    }
    if exists j :: 0 <= j < |shown| && shown[j] < -7 {
      var j :| 0 <= j < |shown| && shown[j] < -7;
      assert shown[j] in multiset(shown);
      assert shown[j] in multiset(days);
      assert shown[j] in days;
    }
  }

  /** Formatting named days raises exactly when a day lies below -7. */
  lemma FormatDaysRaises(days: seq<int>)
    requires !EveryDay(days) && days != []
    ensures FormatDays(days).None? <==> exists k :: 0 <= k < |days| && days[k] < -7
  {
    ShownInRange(days);
  }

  /** `is_schedule_active(profile)`: the schedule is on and the cron status is truthy. */
  function IsScheduleActive(profile: Option<Profile>, cronStatus: Option<string>): bool {
    profile.Some? && profile.value.schedule.enabled && cronStatus.Some? && cronStatus.value != ""
  }

  /**
   * With the status read from a crontab, a profile's schedule is active
   * exactly when it is enabled and the crontab holds a backup job.
   */
  lemma ActiveWhenScheduled(p: Profile, crontab: string)
    ensures IsScheduleActive(Some(p), Cron.JobStatus(crontab)) <==> p.schedule.enabled && Cron.JobStatus(crontab).Some?
  {
  }

  /** The display text and CSS colour. */
  datatype Display = Display(text: string, color: string)

  const Manual := Display("Manual Mode", "#666")

  /** "HH:MM" of a schedule. */
  function TimeText(s: Schedule): string {
    Pad2(s.hour) + ":" + Pad2(s.minute)
  }

  /** `get_schedule_display_info(profile)`; None when formatting the days raises. */
  function DisplayInfo(profile: Option<Profile>, cronStatus: Option<string>): Option<Display> {
    if profile.None? then Some(Manual)
    else if IsScheduleActive(profile, cronStatus) then
      var s := profile.value.schedule;
      match FormatDays(s.daysOfWeek)
      case None => None
      case Some(daysText) => Some(Display("Scheduled Mode - " + TimeText(s) + " " + daysText, "#007ACC"))
    else Some(Manual)
  }

  /**
   * An inactive schedule shows "Manual Mode" in grey; an active one shows
   * "Scheduled Mode - " and the time in blue, the time taking five
   * characters for an hour and minute in range.
   */
  lemma DisplayInfoCases(profile: Option<Profile>, cronStatus: Option<string>)
    ensures var r := DisplayInfo(profile, cronStatus);
            && (!IsScheduleActive(profile, cronStatus) ==> r == Some(Manual))
            && (IsScheduleActive(profile, cronStatus) ==>
                  var s := profile.value.schedule;
                  && (r.None? <==> FormatDays(s.daysOfWeek).None?)
                  && (r.Some? ==> r.value.color == "#007ACC" && StartsWith(r.value.text, "Scheduled Mode - " + TimeText(s) + " "))
                  && (0 <= s.hour < 24 && 0 <= s.minute < 60 ==> |TimeText(s)| == 5))
  {
  }
}
