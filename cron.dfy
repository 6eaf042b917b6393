/**
 * `CronManager` (cron_manager.py): the cron line of a schedule, the edits
 * made to the root crontab, and the checks on a schedule. The crontab is
 * text: what `crontab -l` printed comes in as a parameter, and what would
 * be handed to `crontab <file>` comes out as a result; whether `crontab`
 * accepts it is a parameter too.
 */
module Cron {
  import opened Wrappers
  import opened Text
  import opened Sorting
  import opened Config

  /** `self.job_comment`: the line that marks a job of this program. */
  const JobComment := "# Concrete Backup Job"

  // ---------------------------------------------------------------------
  // generate_cron_expression

  /** A day counted from 0 = Monday as cron counts it, from 0 = Sunday. */
  function CronDay(day: int): string {
    if day == 6 then "0" else IntToString(day + 1)
  }

  function CronDays(days: seq<int>): (r: seq<string>)
    ensures |r| == |days| && forall k :: 0 <= k < |days| ==> r[k] == CronDay(days[k])
  {
    if days == [] then [] else [CronDay(days[0])] + CronDays(days[1..])
  }

  /** The day-of-week field: `*` for exactly the seven days in order, else the cron days joined by commas. */
  function DayField(days: seq<int>): string {
    if days == AllDays then "*" else Join(CronDays(days), ",")
  }

  /** `generate_cron_expression(schedule)`. */
  function CronExpression(s: Schedule): string {
    if !s.enabled then ""
    else IntToString(s.minute) + " " + IntToString(s.hour) + " * * " + DayField(s.daysOfWeek)
  }

  /** `generate_cron_expression(schedule)`. */
  method GenerateCronExpression(s: Schedule) returns (expr: string)
    ensures expr == CronExpression(s)
  {
    if !s.enabled {
      return "";
    }
    var minute := IntToString(s.minute);
    var hour := IntToString(s.hour);
    var dayOfWeek: string;
    if s.daysOfWeek == AllDays {
      dayOfWeek := "*";
    } else {
      var cronDays := ConvertDays(s.daysOfWeek);
      dayOfWeek := Join(cronDays, ",");
    }
    assert dayOfWeek == DayField(s.daysOfWeek);
    return minute + " " + hour + " * * " + dayOfWeek;
  }

  /** The loop of `generate_cron_expression` that converts each day, in order. */
  method ConvertDays(days: seq<int>) returns (cronDays: seq<string>)
    ensures cronDays == CronDays(days)
  {
    cronDays := [];
    for k := 0 to |days|
      invariant |cronDays| == k && forall j :: 0 <= j < k ==> cronDays[j] == CronDay(days[j])
    {
      var day := days[k];
      var cronDay: string;
      if day == 6 {
        cronDay := "0";
      } else {
        cronDay := IntToString(day + 1);
      }
      assert cronDay == CronDay(days[k]);
      cronDays := cronDays + [cronDay];
    }
  }

  /** Cron counts Sunday as 0: a day d of the week, counted from Monday, is (d + 1) mod 7 in cron. */
  lemma CronDayIsShifted(day: int)
    requires 0 <= day <= 6
    ensures CronDay(day) == IntToString((day + 1) % 7)
  {
    if day == 6 {
      assert (day + 1) % 7 == 0;
    }
  }

  /** A character that is neither in the separator nor in any part is not in the join. */
  lemma {:induction false} JoinAvoids(parts: seq<string>, sep: string, c: char)
    requires c !in sep && forall k :: 0 <= k < |parts| ==> c !in parts[k]
    ensures c !in Join(parts, sep)
    decreases |parts|
  {
    if |parts| > 1 {
      JoinAvoids(parts[1..], sep, c);
    }
  }

  lemma DayFieldHasNoSpace(days: seq<int>)
    ensures ' ' !in DayField(days)
  {
    if days != AllDays {
      JoinAvoids(CronDays(days), ",", ' ');
    }
  }

  /**
   * A disabled schedule has no cron line; an enabled one has the five
   * fields minute, hour, `*`, `*` and the day field, separated by spaces.
   */
  lemma CronExpressionFields(s: Schedule)
    ensures !s.enabled ==> CronExpression(s) == ""
    ensures s.enabled ==> Split(CronExpression(s), ' ') ==
                          [IntToString(s.minute), IntToString(s.hour), "*", "*", DayField(s.daysOfWeek)]
  {
    if s.enabled {
      DayFieldHasNoSpace(s.daysOfWeek);
      FiveFields(IntToString(s.minute), IntToString(s.hour), DayField(s.daysOfWeek));
    }
  }

  /** Minute, hour and day fields without spaces come back from the line they make. */
  lemma FiveFields(m: string, h: string, d: string)
    requires ' ' !in m && ' ' !in h && ' ' !in d
    ensures Split(m + " " + h + " * * " + d, ' ') == [m, h, "*", "*", d]
  {
    SplitWithoutSeparator(m, ' ');
    SplitWithoutSeparator(h, ' ');
    SplitWithoutSeparator("*", ' ');
    SplitWithoutSeparator(d, ' ');
    var t1 := "*" + [' '] + d;
    SplitConcat("*", ' ', d);
    var t2 := "*" + [' '] + t1;
    SplitConcat("*", ' ', t1);
    var t3 := h + [' '] + t2;
    SplitConcat(h, ' ', t2);
    SplitConcat(m, ' ', t3);
    CronLineParts(m, h, d);
  }

  lemma CronLineParts(m: string, h: string, d: string)
    ensures m + " " + h + " * * " + d == m + [' '] + (h + [' '] + ("*" + [' '] + ("*" + [' '] + d)))
  {
  }

  /** Unless it is exactly the seven days in order, the day field lists one cron day per day, in the given order. */
  lemma DayFieldLists(days: seq<int>)
    requires days != AllDays && days != []
    ensures Split(DayField(days), ',') == CronDays(days)
  {
    var parts := CronDays(days);
    forall k | 0 <= k < |parts|
      ensures ',' !in parts[k]
    {
    }
    SplitJoin(parts, ',');
  }

  // ---------------------------------------------------------------------
  // validate_schedule

  const HourError := "Hour must be between 0 and 23"
  const MinuteError := "Minute must be between 0 and 59"
  const DayError := "Days of week must be between 0 (Monday) and 6 (Sunday)"

  /** One error per day outside 0..6, in order. */
  function DayErrors(days: seq<int>): seq<string> {
    if days == [] then []
    else DayErrors(days[..|days| - 1]) + (if 0 <= days[|days| - 1] <= 6 then [] else [DayError])
  }

  /** `validate_schedule(schedule)`. */
  function ScheduleErrors(s: Schedule): seq<string> {
    if !s.enabled then []
    else
      (if 0 <= s.hour <= 23 then [] else [HourError]) +
      (if 0 <= s.minute <= 59 then [] else [MinuteError]) +
      DayErrors(s.daysOfWeek)
  }

  /** `validate_schedule(schedule)`. */
  method ValidateSchedule(s: Schedule) returns (errors: seq<string>)
    ensures errors == ScheduleErrors(s)
  {
    errors := [];
    if s.enabled {
      if !(0 <= s.hour <= 23) {
        errors := errors + [HourError];
      }
      if !(0 <= s.minute <= 59) {
        errors := errors + [MinuteError];
      }
      var dayErrors := CheckDays(s.daysOfWeek);
      errors := errors + dayErrors;
    }
  }

  /** The loop of `validate_schedule` over the days. */
  method CheckDays(days: seq<int>) returns (errors: seq<string>)
    ensures errors == DayErrors(days)
  {
    errors := [];
    for k := 0 to |days|
      invariant errors == DayErrors(days[..k])
    {
      if !(0 <= days[k] <= 6) {
        errors := errors + [DayError];
      }
      assert days[..k + 1][..k] == days[..k];
    }
    assert days[..|days|] == days;
  }

  /** The number of days outside 0..6. */
  function OutOfRange(days: seq<int>): nat {
    if days == [] then 0
    else OutOfRange(days[..|days| - 1]) + (if 0 <= days[|days| - 1] <= 6 then 0 else 1)
  }

  lemma {:induction false} DayErrorsCount(days: seq<int>)
    ensures |DayErrors(days)| == OutOfRange(days)
    ensures forall k :: 0 <= k < |DayErrors(days)| ==> DayErrors(days)[k] == DayError
    decreases |days|
  {
    if days != [] {
      DayErrorsCount(days[..|days| - 1]);
    }
  }

  /** No day is out of range exactly when every day is in 0..6. */
  lemma {:induction false} NoneOutOfRange(days: seq<int>)
    ensures OutOfRange(days) == 0 <==> forall k :: 0 <= k < |days| ==> 0 <= days[k] <= 6
    decreases |days|
  {
    if days != [] {
      var init := days[..|days| - 1];
      NoneOutOfRange(init);
      assert forall k :: 0 <= k < |init| ==> init[k] == days[k];
    }
  }

  /**
   * A disabled schedule has no errors; an enabled one has one error for an
   * hour outside 0..23, one for a minute outside 0..59 and one per day
   * outside 0..6, and none exactly when all of them are in range.
   */
  lemma ScheduleErrorsCount(s: Schedule)
    ensures !s.enabled ==> ScheduleErrors(s) == []
    ensures s.enabled ==>
              |ScheduleErrors(s)| ==
              (if 0 <= s.hour <= 23 then 0 else 1) + (if 0 <= s.minute <= 59 then 0 else 1) + OutOfRange(s.daysOfWeek)
    ensures ScheduleErrors(s) == [] <==>
              !s.enabled || (0 <= s.hour <= 23 && 0 <= s.minute <= 59 &&
                             forall k :: 0 <= k < |s.daysOfWeek| ==> 0 <= s.daysOfWeek[k] <= 6)
  {
    DayErrorsCount(s.daysOfWeek);
    NoneOutOfRange(s.daysOfWeek);
  }

  /**
   * The profile check of backup_config.py reports the same hour and minute
   * problems as the cron check; only the cron check looks at the days.
   */
  lemma ProfileCheckAgrees(s: Schedule)
    ensures s.enabled ==> |ScheduleRangeErrors(s)| + OutOfRange(s.daysOfWeek) == |ScheduleErrors(s)|
    ensures ScheduleRangeErrors(s) == [] ==> ScheduleErrors(s) == DayErrors(s.daysOfWeek) || !s.enabled
  {
    DayErrorsCount(s.daysOfWeek);
  }

  // ---------------------------------------------------------------------
  // get_next_run_time, for a schedule that names its days

  const DayNames: seq<string> := ["Monday", "Tuesday", "Wednesday", "Thursday", "Friday", "Saturday", "Sunday"]

  /**
   * When the backup runs next. For a daily schedule the source says
   * "Today", "Tomorrow" or "Daily" at the time, by the clock; `DailyAt`
   * stands for all three.
   */
  datatype NextRun = NotScheduled | DailyAt(time: string) | On(text: string) | InvalidSchedule

  /** `day_names[day]` accepts Python's negative indices down to -7. */
  predicate HasDayName(day: int) {
    -7 <= day <= 6
  }

  function DayName(day: int): string
    requires HasDayName(day)
  {
    DayNames[if day < 0 then day + 7 else day]
  }

  function DayNamesOf(days: seq<int>): (r: seq<string>)
    requires AllNamed(days)
    ensures |r| == |days| && forall k :: 0 <= k < |days| ==> r[k] == DayName(days[k])
  {
    if days == [] then [] else [DayName(days[0])] + DayNamesOf(days[1..])
  }

  /** `get_next_run_time(schedule)`; an IndexError gives "Invalid schedule". */
  function NextRunTime(s: Schedule): NextRun {
    if !s.enabled then NotScheduled
    else
      var time := Pad2(s.hour) + ":" + Pad2(s.minute);
      if s.daysOfWeek == AllDays then
        (if 0 <= s.hour <= 23 && 0 <= s.minute <= 59 then DailyAt(time) else InvalidSchedule)
      else
        match DaysText(s.daysOfWeek)
        case Some(days) => On(days + " at " + time)
        case None => InvalidSchedule
  }

  /** The names of the days in ascending order, comma-separated; nothing when a day has no name. */
  function DaysText(days: seq<int>): Option<string> {
    var sorted := SortInts(days);
    if AllNamed(sorted) then Some(Join(DayNamesOf(sorted), ", ")) else None
  }

  predicate AllNamed(days: seq<int>) {
    forall k :: 0 <= k < |days| ==> HasDayName(days[k])
  }

  /** Sorting keeps the days, so it keeps whether each of them has a name. */
  lemma SortKeepsNames(days: seq<int>)
    ensures AllNamed(SortInts(days)) <==> AllNamed(days)
  {
    var sorted := SortInts(days);
    if AllNamed(sorted) {
      forall k | 0 <= k < |days|
        ensures HasDayName(days[k])
      {
        assert days[k] in multiset(sorted);
      }
    } else {
      var k :| 0 <= k < |sorted| && !HasDayName(sorted[k]);
      assert sorted[k] in multiset(days);
      assert sorted[k] in days;
      var j :| 0 <= j < |days| && days[j] == sorted[k];
      assert !HasDayName(days[j]);
    }
  }

  /**
   * A schedule that names its days is described exactly when each day can
   * be looked up; the description is the days' text followed by " at "
   * and the time, which is five characters for an hour and minute in range.
   */
  lemma NextRunNamesDays(s: Schedule)
    requires s.enabled && s.daysOfWeek != AllDays
    ensures NextRunTime(s).On? <==> AllNamed(s.daysOfWeek)
    ensures !NextRunTime(s).On? ==> NextRunTime(s) == InvalidSchedule
    ensures NextRunTime(s).On? ==>
              var time := Pad2(s.hour) + ":" + Pad2(s.minute);
              EndsWith(NextRunTime(s).text, " at " + time) &&
              (0 <= s.hour <= 23 && 0 <= s.minute <= 59 ==> |time| == 5)
  {
    DaysTextNamed(s.daysOfWeek);
    var time := Pad2(s.hour) + ":" + Pad2(s.minute);
    match DaysText(s.daysOfWeek)
    case None =>
      assert NextRunTime(s) == InvalidSchedule;
    case Some(t) =>
      var text := t + " at " + time;
      assert NextRunTime(s) == On(text);
      assert text[|text| - |" at " + time|..] == " at " + time;
  }

  /**
   * There is no next run exactly for a disabled schedule; a daily one
   * runs at its five-character time when hour and minute are in range,
   * and is invalid otherwise, since no clock time has them.
   */
  lemma NextRunDaily(s: Schedule)
    ensures NextRunTime(s) == NotScheduled <==> !s.enabled
    ensures s.enabled && s.daysOfWeek == AllDays ==>
              (NextRunTime(s).DailyAt? <==> 0 <= s.hour <= 23 && 0 <= s.minute <= 59) &&
              (NextRunTime(s).DailyAt? ==> |NextRunTime(s).time| == 5) &&
              (!NextRunTime(s).DailyAt? ==> NextRunTime(s) == InvalidSchedule)
  {
  }

  /** The days have a text exactly when each of them has a name. */
  lemma DaysTextNamed(days: seq<int>)
    ensures DaysText(days).Some? <==> AllNamed(days)
  {
    SortKeepsNames(days);
  }

  // ---------------------------------------------------------------------
  // remove_backup_jobs

  /**
   * Whether `remove_backup_jobs` keeps line k: it drops a line holding the
   * job comment, the non-blank line after one that does not start with
   * '#', and every blank line.
   */
  predicate Survives(lines: seq<string>, k: nat)
    requires k < |lines|
  {
    !Contains(lines[k], JobComment) && !IsBlank(lines[k]) &&
    !(k > 0 && Contains(lines[k - 1], JobComment) && !StartsWith(lines[k], "#"))
  }

  /** The lines among the first n that survive, in order. */
  function Survivors(lines: seq<string>, n: nat): seq<string>
    requires n <= |lines|
  {
    if n == 0 then [] else Survivors(lines, n - 1) + (if Survives(lines, n - 1) then [lines[n - 1]] else [])
  }

  /** The filtering loop of `remove_backup_jobs`, with its `skip_next` flag. */
  method FilterCrontab(lines: seq<string>) returns (filtered: seq<string>)
    ensures filtered == Survivors(lines, |lines|)
  {
    filtered := [];
    var skipNext := false;
    for k := 0 to |lines|
      invariant filtered == Survivors(lines, k)
      invariant skipNext == (k > 0 && Contains(lines[k - 1], JobComment))
    {
      var line := lines[k];
      if Contains(line, JobComment) {
        skipNext := true;
      } else if skipNext && Strip(line) != [] && !StartsWith(line, "#") {
        skipNext := false;
      } else {
        skipNext := false;
        if Strip(line) != [] {
          filtered := filtered + [line];
        }
      }
    }
  }

  /** The new crontab text: the kept lines joined, with a final line break added when missing. */
  function Rewritten(filtered: seq<string>): string {
    var joined := Join(filtered, "\n");
    if joined != "" && !EndsWith(joined, "\n") then joined + "\n" else joined
  }

  /** The lines of a crontab text that `remove_backup_jobs` keeps. */
  function Kept(crontab: string): seq<string> {
    var lines := Split(crontab, '\n');
    Survivors(lines, |lines|)
  }

  /** The crontab text `remove_backup_jobs` writes back for a given current text. */
  function RemovedJobs(crontab: string): string {
    Rewritten(Kept(crontab))
  }

  /** A line that holds no job comment, is not blank, and holds no line break. */
  predicate CleanLine(x: string) {
    !Contains(x, JobComment) && !IsBlank(x) && '\n' !in x
  }

  /** Every kept line is one of the given lines, and one that survives. */
  lemma {:induction false} SurvivorsAreLines(lines: seq<string>, n: nat)
    requires n <= |lines|
    ensures forall x :: x in Survivors(lines, n) ==> exists k :: 0 <= k < n && x == lines[k] && Survives(lines, k)
    decreases n
  {
    if n > 0 {
      SurvivorsAreLines(lines, n - 1);
    }
  }

  /** Lines that are all kept, because none is blank or holds the comment, come through unchanged. */
  lemma {:induction false} CleanLinesSurvive(lines: seq<string>, n: nat)
    requires n <= |lines|
    requires forall k :: 0 <= k < n ==> !Contains(lines[k], JobComment) && !IsBlank(lines[k])
    ensures Survivors(lines, n) == lines[..n]
    decreases n
  {
    if n > 0 {
      CleanLinesSurvive(lines, n - 1);
      assert Survives(lines, n - 1);
      assert lines[..n] == lines[..n - 1] + [lines[n - 1]];
    }
  }

  /** A join whose last part is not empty and holds no line break does not end with one. */
  lemma JoinEndsWithoutBreak(parts: seq<string>)
    requires parts != [] && parts[|parts| - 1] != [] && '\n' !in parts[|parts| - 1]
    ensures Join(parts, "\n") != "" && !EndsWith(Join(parts, "\n"), "\n")
  {
    var last := parts[|parts| - 1];
    JoinEndsWithLastPart(parts, "\n");
    var joined := Join(parts, "\n");
    assert joined[|joined| - 1] == last[|last| - 1];
    assert last[|last| - 1] in last;
  }

  /**
   * Clean kept lines are written as nothing at all, or as those lines
   * each ended by one line break.
   */
  lemma RewrittenShape(filtered: seq<string>)
    requires forall k :: 0 <= k < |filtered| ==> CleanLine(filtered[k])
    ensures filtered == [] ==> Rewritten(filtered) == ""
    ensures filtered != [] ==> Rewritten(filtered) == Join(filtered, "\n") + "\n" &&
                               Split(Rewritten(filtered), '\n') == filtered + [""]
  {
    if filtered != [] {
      var joined := Join(filtered, "\n");
      assert CleanLine(filtered[|filtered| - 1]);
      JoinEndsWithoutBreak(filtered);
      assert Rewritten(filtered) == joined + "\n";
      forall k | 0 <= k < |filtered|
        ensures '\n' !in filtered[k]
      {
        assert CleanLine(filtered[k]);
      }
      SplitJoin(filtered, '\n');
      SplitWithoutSeparator("", '\n');
      SplitConcat(joined, '\n', "");
      assert joined + "\n" == joined + ['\n'] + "";
    }
  }

  /** No kept line holds the comment or a line break, and none is blank. */
  lemma KeptAreClean(crontab: string)
    ensures forall k :: 0 <= k < |Kept(crontab)| ==> CleanLine(Kept(crontab)[k])
  {
    var lines := Split(crontab, '\n');
    SurvivorsAreLines(lines, |lines|);
    var kept := Kept(crontab);
    forall k | 0 <= k < |kept|
      ensures CleanLine(kept[k])
    {
      assert kept[k] in kept;
    }
  }

  /**
   * The rewritten crontab is empty when nothing is kept; otherwise it is
   * the kept lines, each ended by exactly one line break. No job comment
   * and no blank line is left among them.
   */
  lemma RemovedJobsShape(crontab: string)
    ensures Kept(crontab) == [] <==> RemovedJobs(crontab) == ""
    ensures Kept(crontab) != [] ==> EndsWith(RemovedJobs(crontab), "\n") && Split(RemovedJobs(crontab), '\n') == Kept(crontab) + [""]
    ensures forall k :: 0 <= k < |Kept(crontab)| ==> !Contains(Kept(crontab)[k], JobComment) && !IsBlank(Kept(crontab)[k])
  {
    KeptAreClean(crontab);
    RewrittenShape(Kept(crontab));
  }

  /** Removing the jobs twice leaves the same text as removing them once. */
  lemma RemoveIsIdempotent(crontab: string)
    ensures RemovedJobs(RemovedJobs(crontab)) == RemovedJobs(crontab)
  {
    var kept := Kept(crontab);
    RemovedJobsShape(crontab);
    var again := Split(RemovedJobs(crontab), '\n');
    if kept == [] {
      SplitWithoutSeparator("", '\n');
      assert again == [""];
      assert !Survives(again, 0);
      assert Survivors(again, 1) == [];
    } else {
      assert again == kept + [""];
      CleanLinesSurvive(again, |kept|);
      assert again[..|kept|] == kept;
      assert !Survives(again, |kept|);
      assert Survivors(again, |again|) == kept;
    }
  }

  // ---------------------------------------------------------------------
  // get_backup_job_status and is_backup_scheduled

  /** The first character of the line that is not white space exists and is not '#'. */
  predicate IsJobLine(x: string)
    decreases |x|
  {
    x != [] && if IsSpace(x[0]) then IsJobLine(x[1..]) else x[0] != '#'
  }

  /** `IsJobLine` is the check of `get_backup_job_status`: the stripped line is neither empty nor a comment. */
  lemma {:induction false} IsJobLineStripped(x: string)
    ensures IsJobLine(x) <==> Strip(x) != [] && !StartsWith(Strip(x), "#")
    decreases |x|
  {
    if x == [] {
      assert IsBlank(x);
    } else if IsSpace(x[0]) {
      IsJobLineStripped(x[1..]);
      assert StripStart(x) == StripStart(x[1..]);
    } else {
      StripKeepsFirst(x);
      assert StartsWith(Strip(x), "#") <==> Strip(x)[0] == '#';
    }
  }

  /** Line i holds the comment and the next line, stripped, is neither empty nor a comment. */
  predicate JobAt(lines: seq<string>, i: nat)
    requires i < |lines|
  {
    Contains(lines[i], JobComment) && i + 1 < |lines| && IsJobLine(lines[i + 1])
  }

  /** Where the search from line i on stops: the first line that starts a job, if any. */
  function FirstJobFrom(lines: seq<string>, i: nat): (r: Option<nat>)
    ensures r.Some? ==> i <= r.value < |lines| && JobAt(lines, r.value) && forall j :: i <= j < r.value ==> !JobAt(lines, j)
    ensures r.None? ==> forall j :: i <= j < |lines| ==> !JobAt(lines, j)
    decreases |lines| - i
  {
    if i >= |lines| then None
    else if JobAt(lines, i) then Some(i)
    else FirstJobFrom(lines, i + 1)
  }

  /** `get_backup_job_status()` on a crontab text: the stripped line after the first comment that starts a job. */
  function JobStatus(crontab: string): (r: Option<string>)
    ensures r.Some? ==> r.value != [] && !StartsWith(r.value, "#")
  {
    var lines := Split(crontab, '\n');
    match FirstJobFrom(lines, 0)
    case None => None
    case Some(k) =>
      IsJobLineStripped(lines[k + 1]);
      Some(Strip(lines[k + 1]))
  }

  /** Lines without the comment are passed over. */
  lemma {:induction false} JobStatusSkips(lines: seq<string>, i: nat, m: nat)
    requires i <= m <= |lines|
    requires forall j :: i <= j < m ==> !Contains(lines[j], JobComment)
    ensures FirstJobFrom(lines, i) == FirstJobFrom(lines, m)
    decreases m - i
  {
    if i < m {
      JobStatusSkips(lines, i + 1, m);
    }
  }

  /** After `remove_backup_jobs` has rewritten the crontab, no job is reported. */
  lemma RemovedHasNoJob(crontab: string)
    ensures JobStatus(RemovedJobs(crontab)) == None
  {
    RemovedJobsShape(crontab);
    var after := Split(RemovedJobs(crontab), '\n');
    var kept := Kept(crontab);
    if kept == [] {
      SplitWithoutSeparator("", '\n');
    }
    assert forall j :: 0 <= j < |after| ==> !Contains(after[j], JobComment) by {
      forall j | 0 <= j < |after|
        ensures !Contains(after[j], JobComment)
      {
        if j < |kept| {
          assert after[j] == kept[j];
        } else {
          assert after[j] == "";
        }
      }
    }
    JobStatusSkips(after, 0, |after|);
  }

  // ---------------------------------------------------------------------
  // add_backup_job

  /** The two lines `add_backup_job` appends: the comment naming the profile, then the cron line. */
  function JobEntry(name: string, expr: string, script: string): string {
    JobComment + " - " + name + "\n" + expr + " " + script + "\n"
  }

  /** The current text, ended by a line break if it is not empty and lacks one, followed by the entry. */
  function WithJob(current: string, entry: string): string {
    (if current != "" && !EndsWith(current, "\n") then current + "\n" else current) + entry
  }

  /** A character that is no digit, sign, comma, star or space does not occur in a cron line. */
  lemma CronExpressionAvoids(s: Schedule, c: char)
    requires c != ',' && c != '-' && c != '*' && c != ' ' && !('0' <= c <= '9')
    ensures c !in CronExpression(s)
  {
    if s.enabled && s.daysOfWeek != AllDays {
      JoinAvoids(CronDays(s.daysOfWeek), ",", c);
    }
  }

  /** An enabled schedule's cron line starts with the first digit or the sign of its minute. */
  lemma CronExpressionStart(s: Schedule)
    requires s.enabled
    ensures CronExpression(s) != [] && (CronExpression(s)[0] == '-' || '0' <= CronExpression(s)[0] <= '9')
  {
    assert CronExpression(s)[0] == IntToString(s.minute)[0];
  }

  /** The lines of the job entry: the comment line, the cron line and the empty rest. */
  lemma JobEntryLines(name: string, expr: string, script: string)
    requires '\n' !in name && '\n' !in expr && '\n' !in script
    ensures Split(JobEntry(name, expr, script), '\n') == [JobComment + " - " + name, expr + " " + script, ""]
  {
    var header := JobComment + " - " + name;
    var job := expr + " " + script;
    SplitWithoutSeparator(header, '\n');
    SplitWithoutSeparator(job, '\n');
    SplitWithoutSeparator("", '\n');
    SplitConcat(job, '\n', "");
    SplitConcat(header, '\n', job + ['\n'] + "");
    assert JobEntry(name, expr, script) == header + ['\n'] + (job + ['\n'] + "");
  }

  /** The lines of the rewritten crontab with a job appended: the kept lines, then the entry's. */
  lemma AppendedLines(crontab: string, name: string, expr: string, script: string)
    requires '\n' !in name && '\n' !in expr && '\n' !in script
    ensures Split(WithJob(RemovedJobs(crontab), JobEntry(name, expr, script)), '\n') ==
            Kept(crontab) + [JobComment + " - " + name, expr + " " + script, ""]
  {
    var entry := JobEntry(name, expr, script);
    JobEntryLines(name, expr, script);
    RemovedJobsShape(crontab);
    var kept := Kept(crontab);
    if kept == [] {
      assert WithJob(RemovedJobs(crontab), entry) == entry;
    } else {
      KeptAreClean(crontab);
      RewrittenShape(kept);
      var joined := Join(kept, "\n");
      assert WithJob(RemovedJobs(crontab), entry) == joined + ['\n'] + entry;
      SplitConcat(joined, '\n', entry);
      forall k | 0 <= k < |kept|
        ensures '\n' !in kept[k]
      {
        assert CleanLine(kept[k]);
      }
      SplitJoin(kept, '\n');
    }
  }

  /**
   * A job added after the old jobs were removed is the one reported: the
   * status is its cron line and script, stripped.
   */
  lemma AddedJobIsFound(crontab: string, s: Schedule, name: string, script: string)
    requires s.enabled && '\n' !in name && '\n' !in script
    ensures JobStatus(WithJob(RemovedJobs(crontab), JobEntry(name, CronExpression(s), script))) ==
            Some(Strip(CronExpression(s) + " " + script))
  {
    CronExpressionAvoids(s, '\n');
    CronExpressionStart(s);
    AppendedJobIsFound(crontab, name, CronExpression(s), script);
  }

  /** The same for any cron line that starts with a character other than white space or '#'. */
  lemma AppendedJobIsFound(crontab: string, name: string, expr: string, script: string)
    requires '\n' !in name && '\n' !in expr && '\n' !in script
    requires expr != [] && !IsSpace(expr[0]) && expr[0] != '#'
    ensures JobStatus(WithJob(RemovedJobs(crontab), JobEntry(name, expr, script))) == Some(Strip(expr + " " + script))
  {
    var header := JobComment + " - " + name;
    var job := expr + " " + script;
    var kept := Kept(crontab);
    var after := Split(WithJob(RemovedJobs(crontab), JobEntry(name, expr, script)), '\n');
    AppendedLines(crontab, name, expr, script);
    assert StartsWith(header, JobComment);
    forall j | 0 <= j < |kept|
      ensures !Contains(after[j], JobComment)
    {
      RemovedJobsShape(crontab);
      assert after[j] == kept[j];
    }
    FirstJobAfter(after, |kept|, job);
  }

  /** Lines without the comment, then one with it, then a job line: the search stops at the comment. */
  lemma FirstJobAfter(lines: seq<string>, n: nat, job: string)
    requires n + 1 < |lines| && lines[n + 1] == job && Contains(lines[n], JobComment)
    requires forall j :: 0 <= j < n ==> !Contains(lines[j], JobComment)
    requires job != [] && !IsSpace(job[0]) && job[0] != '#'
    ensures FirstJobFrom(lines, 0) == Some(n)
  {
    JobStatusSkips(lines, 0, n);
    assert IsJobLine(job);
    assert JobAt(lines, n);
  }

  /** The outcome of `add_backup_job`: its result pair and the root crontab afterwards. */
  datatype Added = Added(ok: bool, message: string, crontab: string)

  /**
   * `add_backup_job(profile)`: `readable` says whether `crontab -l`
   * succeeds, `accepts` whether `crontab <file>` takes a text, and
   * `script` is what `create_backup_script` gave, a path or the message of
   * the error it raised.
   */
  function AddJob(p: Profile, crontab: string, readable: bool, accepts: string -> bool,
                  script: Result<string, string>): Added
  {
    if !p.schedule.enabled then Added(false, "Schedule is not enabled", crontab)
    else
      var removal := RemovedJobs(if readable then crontab else "");
      var cleaned := if accepts(removal) then removal else crontab;
      if script.Failure? then Added(false, "Error adding backup job: " + script.error, cleaned)
      else
        var expr := CronExpression(p.schedule);
        var updated := WithJob(if readable then cleaned else "", JobEntry(p.name, expr, script.value));
        if accepts(updated) then Added(true, "Backup job scheduled in root crontab: " + expr, updated)
        else Added(false, "Failed to update crontab", cleaned)
  }

  /**
   * Adding a job fails with "Schedule is not enabled" for a disabled
   * schedule and leaves the crontab alone; it fails with the script's
   * error, or, when `crontab` refuses the new text, with "Failed to
   * update crontab"; or it succeeds, names the cron line in its message,
   * and the job it added is then the one reported, when `crontab -l`
   * worked and `crontab` accepted the removal too.
   */
  lemma AddJobOutcomes(p: Profile, crontab: string, readable: bool, accepts: string -> bool, script: Result<string, string>)
    requires '\n' !in p.name && (script.Success? ==> '\n' !in script.value)
    ensures var a := AddJob(p, crontab, readable, accepts, script);
            (!p.schedule.enabled ==> a == Added(false, "Schedule is not enabled", crontab)) &&
            (p.schedule.enabled && script.Failure? ==> !a.ok && a.message == "Error adding backup job: " + script.error) &&
            (a.ok ==> p.schedule.enabled && script.Success? && a.message == "Backup job scheduled in root crontab: " + CronExpression(p.schedule)) &&
            (p.schedule.enabled && script.Success? && !a.ok ==> a.message == "Failed to update crontab") &&
            (a.ok && readable && accepts(RemovedJobs(crontab)) ==>
               JobStatus(a.crontab) == Some(Strip(CronExpression(p.schedule) + " " + script.value)))
  {
    if p.schedule.enabled && script.Success? {
      var removal := RemovedJobs(if readable then crontab else "");
      var cleaned := if accepts(removal) then removal else crontab;
      var expr := CronExpression(p.schedule);
      var updated := WithJob(if readable then cleaned else "", JobEntry(p.name, expr, script.value));
      if accepts(updated) {
        assert AddJob(p, crontab, readable, accepts, script) == Added(true, "Backup job scheduled in root crontab: " + expr, updated);
        AddedJobIsFound(crontab, p.schedule, p.name, script.value);
      } else {
        assert AddJob(p, crontab, readable, accepts, script) == Added(false, "Failed to update crontab", cleaned);
      }
    }
  }

  // ---------------------------------------------------------------------
  // The manager and the root crontab it edits

  /** `CronManager`, with the root crontab it reads with `crontab -l` and replaces with `crontab <file>`. */
  class CronManager {
    /** The root crontab; "" when there is none. */
    var crontab: string
    /** Whether `crontab -l` succeeds. */
    const readable: bool
    /** Whether `crontab <file>` accepts a text. */
    const accepts: string -> bool
    /** `create_backup_script(name)`: the script's path, or the message of the error it raises. */
    const scriptFor: string -> Result<string, string>

    constructor(crontab: string, readable: bool, accepts: string -> bool, scriptFor: string -> Result<string, string>)
      ensures this.crontab == crontab && this.readable == readable && this.accepts == accepts && this.scriptFor == scriptFor
    {
      this.crontab := crontab;
      this.readable := readable;
      this.accepts := accepts;
      this.scriptFor := scriptFor;
    }

    /** `get_current_crontab()`: the text, or "" when `crontab -l` fails. */
    function CurrentCrontab(): (r: string)
      reads this
      ensures readable ==> r == crontab
      ensures !readable ==> r == ""
    {
      if readable then crontab else ""
    }

    /** `set_crontab(content)`. */
    method SetCrontab(content: string) returns (ok: bool)
      modifies this
      ensures ok == accepts(content)
      ensures crontab == if ok then content else old(crontab)
    {
      ok := accepts(content);
      if ok {
        crontab := content;
      }
    }

    /** `remove_backup_jobs()`. */
    method RemoveBackupJobs() returns (ok: bool)
      modifies this
      ensures ok == accepts(RemovedJobs(old(CurrentCrontab())))
      ensures crontab == if ok then RemovedJobs(old(CurrentCrontab())) else old(crontab)
    {
      var current := CurrentCrontab();
      var lines := Split(current, '\n');
      var filtered := FilterCrontab(lines);
      var newContent := Join(filtered, "\n");
      if newContent != "" && !EndsWith(newContent, "\n") {
        newContent := newContent + "\n";
      }
      ok := SetCrontab(newContent);
    }

    /** `add_backup_job(profile)`. */
    method AddBackupJob(p: Profile) returns (ok: bool, message: string)
      modifies this
      ensures Added(ok, message, crontab) == AddJob(p, old(crontab), readable, accepts, scriptFor(p.name))
    {
      if !p.schedule.enabled {
        return false, "Schedule is not enabled";
      }
      var _ := RemoveBackupJobs();
      var script := scriptFor(p.name);
      if script.Failure? {
        return false, "Error adding backup job: " + script.error;
      }
      var expr := GenerateCronExpression(p.schedule);
      var current := CurrentCrontab();
      var backupJob := JobComment + " - " + p.name + "\n";
      backupJob := backupJob + expr + " " + script.value + "\n";
      var newCrontab := current;
      if newCrontab != "" && !EndsWith(newCrontab, "\n") {
        newCrontab := newCrontab + "\n";
      }
      newCrontab := newCrontab + backupJob;
      assert newCrontab == WithJob(current, JobEntry(p.name, expr, script.value));
      var written := SetCrontab(newCrontab);
      if written {
        ok, message := true, "Backup job scheduled in root crontab: " + expr;
      } else {
        ok, message := false, "Failed to update crontab";
      }
    }

    /** `get_backup_job_status()`. */
    method GetBackupJobStatus() returns (status: Option<string>)
      ensures status == JobStatus(CurrentCrontab())
    {
      var lines := Split(CurrentCrontab(), '\n');
      for i := 0 to |lines|
        invariant FirstJobFrom(lines, 0) == FirstJobFrom(lines, i)
      {
        if Contains(lines[i], JobComment) {
          if i + 1 < |lines| {
            var jobLine := Strip(lines[i + 1]);
            if jobLine != [] && !StartsWith(jobLine, "#") {
              IsJobLineStripped(lines[i + 1]);
              assert FirstJobFrom(lines, i) == Some(i);
              return Some(jobLine);
            }
            IsJobLineStripped(lines[i + 1]);
          }
        }
        assert !JobAt(lines, i);
      }
      assert FirstJobFrom(lines, |lines|) == None;
      return None;
    }

    /** `is_backup_scheduled()`. */
    method IsBackupScheduled() returns (scheduled: bool)
      ensures scheduled <==> JobStatus(CurrentCrontab()).Some?
    {
      var status := GetBackupJobStatus();
      scheduled := status.Some?;
    }
  }
}
