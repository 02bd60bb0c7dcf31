/**
 Calendar scheduling of heartbeat tasks (vscode-extension/heartbeat.go), on a clock
 with a fixed offset: days are counted from 1 January 1970, a Thursday, and times are
 milliseconds of that count.
 */
module Heartbeat {
  import opened Wrappers

  type Time = int
  type Day = int

  const MINUTE := 60_000
  const DAY := 86_400_000

  type Weekday = d: int | 0 <= d < 7   // Sunday is 0

  datatype Kind = Daily | Weekly | Biweekly

  /** A parsed calendar rule. */
  datatype Schedule = Schedule(kind: Kind, days: seq<Weekday>, hour: nat, minute: nat)

  predicate ValidSchedule(s: Schedule) {
    s.hour < 24 && s.minute < 60 && (!s.kind.Daily? ==> s.days != [])
  }

  // ---------- the calendar ----------

  function DayOf(t: Time): Day {
    t / DAY
  }

  function WeekdayOf(d: Day): Weekday {
    (d + 4) % 7
  }

  function At(s: Schedule, d: Day): Time {
    d * DAY + (s.hour * 60 + s.minute) * MINUTE
  }

  /** The Monday of a day's week. */
  function WeekStart(d: Day): Day {
    d - (WeekdayOf(d) + 6) % 7
  }

  function WeeksBetween(a: Day, b: Day): nat {
    if b < a then (a - b) / 7 else (b - a) / 7
  }

  /** The week of d counts for a rule anchored at some day: always, without an anchor. */
  predicate CountingWeek(anchor: Option<Day>, d: Day) {
    anchor.None? || WeeksBetween(WeekStart(anchor.value), WeekStart(d)) % 2 == 0
  }

  /** The rule asks for a run on day d. */
  predicate Asks(s: Schedule, anchor: Option<Day>, d: Day) {
    WeekdayOf(d) in s.days && CountingWeek(anchor, d)
  }

  lemma AtIsOnItsDay(s: Schedule, d: Day)
    requires s.hour < 24 && s.minute < 60
    ensures d * DAY <= At(s, d) < (d + 1) * DAY && DayOf(At(s, d)) == d
  {
  }

  lemma DaysInOrder(s: Schedule, d: Day, now: Time)
    requires s.hour < 24 && s.minute < 60
    ensures d < DayOf(now) ==> At(s, d) <= now
    ensures d > DayOf(now) ==> At(s, d) > now
  {
    AtIsOnItsDay(s, d);
  }

  /** A week runs from Monday to Sunday. */
  lemma WeekStartExactly(d: Day)
    ensures WeekdayOf(WeekStart(d)) == 1 && WeekStart(d) <= d < WeekStart(d) + 7
  {
  }

  // ---------- the latest asked-for instant ----------

  predicate Hits(s: Schedule, anchor: Option<Day>, now: Time, d: Day) {
    Asks(s, anchor, d) && At(s, d) <= now
  }

  /** The latest hit among the n days up to now's. */
  function LatestOf(s: Schedule, anchor: Option<Day>, now: Time, n: nat): Option<Time> {
    if n == 0 then None
    else
      var later := LatestOf(s, anchor, now, n - 1);
      var d := DayOf(now) - (n - 1);
      if later.Some? then later else if Hits(s, anchor, now, d) then Some(At(s, d)) else None
  }

  lemma {:induction false} LatestOfIs(s: Schedule, anchor: Option<Day>, now: Time, n: nat)
    requires s.hour < 24 && s.minute < 60
    ensures LatestOf(s, anchor, now, n).None? <==> forall d :: DayOf(now) - n < d <= DayOf(now) ==> !Hits(s, anchor, now, d)
    ensures LatestOf(s, anchor, now, n).Some? ==>
              exists d :: DayOf(now) - n < d <= DayOf(now) && Hits(s, anchor, now, d) && LatestOf(s, anchor, now, n) == Some(At(s, d))
                          && forall e :: d < e ==> !Hits(s, anchor, now, e)
    decreases n
  {
    hide Hits, At, DayOf;
    if n > 0 {
      LatestOfIs(s, anchor, now, n - 1);
      var d := DayOf(now) - (n - 1);
      if LatestOf(s, anchor, now, n - 1).None? && Hits(s, anchor, now, d) {
        forall e | d < e ensures !Hits(s, anchor, now, e) { NoHitAfterToday(s, anchor, now, e); }
      }
    }
  }

  lemma NoHitAfterToday(s: Schedule, anchor: Option<Day>, now: Time, e: Day)
    requires s.hour < 24 && s.minute < 60
    ensures e > DayOf(now) ==> !Hits(s, anchor, now, e)
  {
    DaysInOrder(s, e, now);
  }

  method PreviousHeartbeatWeeklyAt(s: Schedule, now: Time, windowDays: nat, anchor: Option<Day>) returns (best: Option<Time>)
    requires s.hour < 24 && s.minute < 60
    ensures best == LatestOf(s, anchor, now, windowDays)
  {
    hide At, DayOf, WeekdayOf, CountingWeek;
    best := None;
    for offset := 0 to windowDays
      invariant best == LatestOf(s, anchor, now, offset)
    {
      var day := DayOf(now) - offset;
      ghost var later := best;
      for i := 0 to |s.days|
        invariant best == if later.Some? then later
                          else if WeekdayOf(day) in s.days[..i] && CountingWeek(anchor, day) && At(s, day) <= now then Some(At(s, day))
                          else None
      {
        assert s.days[..i + 1] == s.days[..i] + [s.days[i]];
        if WeekdayOf(day) != s.days[i] {
          continue;
        }
        var candidate := At(s, day);
        if candidate > now {
          continue;
        }
        if anchor.Some? && WeeksBetween(WeekStart(anchor.value), WeekStart(day)) % 2 != 0 {
          CountingIs(anchor, day);
          continue;
        }
        CountingIs(anchor, day);
        if best.None? || candidate > best.value {
          LaterIsLater(s, anchor, now, offset);
          best := Some(candidate);
        }
      }
      assert s.days[..|s.days|] == s.days;
    }
  }

  lemma CountingIs(anchor: Option<Day>, d: Day)
    ensures CountingWeek(anchor, d) <==> anchor.None? || WeeksBetween(WeekStart(anchor.value), WeekStart(d)) % 2 == 0
  {
  }

  /** What was found on a later day is not before any candidate of this one. */
  lemma LaterIsLater(s: Schedule, anchor: Option<Day>, now: Time, n: nat)
    requires s.hour < 24 && s.minute < 60
    ensures LatestOf(s, anchor, now, n).Some? ==> LatestOf(s, anchor, now, n).value > At(s, DayOf(now) - n)
  {
    if LatestOf(s, anchor, now, n).Some? {
      LatestOfIs(s, anchor, now, n);
      var d :| DayOf(now) - n < d <= DayOf(now) && LatestOf(s, anchor, now, n) == Some(At(s, d));
      AtIsOnItsDay(s, d);
      AtIsOnItsDay(s, DayOf(now) - n);
    }
  }

  // ---------- when nothing is found ----------

  /** Every weekday occurs once in any seven days. */
  lemma LastWith(today: Day, wd: Weekday) returns (d: Day)
    ensures today - 7 < d <= today && WeekdayOf(d) == wd
    ensures forall e :: today - 7 < e <= today && WeekdayOf(e) == wd ==> e == d
  {
    d := today - (WeekdayOf(today) - wd) % 7;
  }

  /** Within an hour-of-day of now's day, the weekly rule finds nothing exactly when today is its only weekday and its time has not come. */
  lemma WeeklyFailsExactly(s: Schedule, now: Time)
    requires ValidSchedule(s) && s.kind.Weekly?
    ensures LatestOf(s, None, now, 7).None? <==>
            (forall wd :: wd in s.days ==> wd == WeekdayOf(DayOf(now))) && At(s, DayOf(now)) > now
  {
    hide At, DayOf, WeekdayOf;
    var today := DayOf(now);
    LatestOfIs(s, None, now, 7);
    if LatestOf(s, None, now, 7).None? {
      forall wd | wd in s.days ensures wd == WeekdayOf(today) && At(s, today) > now {
        var d := LastWith(today, wd);
        DaysInOrder(s, d, now);
        assert !Hits(s, None, now, d);
      }
      assert s.days[0] in s.days;
    } else {
      var d :| today - 7 < d <= today && Hits(s, None, now, d);
      var e := LastWith(today, WeekdayOf(today));
      assert WeekdayOf(d) == WeekdayOf(today) ==> d == e && today == e;
    }
  }

  /** Of two days a week apart exactly one is in a counting week. */
  lemma WeeksAlternate(anchor: Day, d: Day)
    ensures CountingWeek(Some(anchor), d) != CountingWeek(Some(anchor), d - 7)
  {
    MondayOf(anchor);
    MondayOf(d);
    hide WeekdayOf;
    NextWeek(WeekStart(anchor), WeekStart(d));
  }

  lemma MondayOf(d: Day)
    ensures WeekStart(d) % 7 == 4 && WeekStart(d - 7) == WeekStart(d) - 7
  {
    var w: int := WeekdayOf(d);
    assert w == (d + 4) % 7 && WeekStart(d) == d - (w + 6) % 7;
    assert WeekdayOf(d - 7) == (d - 3) % 7 == w;
    assert WeekStart(d - 7) == d - 7 - (w + 6) % 7;
  }

  lemma NextWeek(a: Day, b: Day)
    requires a % 7 == 4 && b % 7 == 4
    ensures (WeeksBetween(a, b) % 2 == 0) != (WeeksBetween(a, b - 7) % 2 == 0)
  {
    var k, l := a / 7, b / 7;
    assert a == 7 * k + 4 && b == 7 * l + 4;
    assert WeeksBetween(a, b) == (if l < k then k - l else l - k);
    assert WeeksBetween(a, b - 7) == (if l - 1 < k then k - l + 1 else l - 1 - k);
  }

  /** The biweekly rule finds nothing exactly then, if moreover today's week counts. */
  lemma BiweeklyFailsExactly(s: Schedule, anchor: Day, now: Time)
    requires ValidSchedule(s) && s.kind.Biweekly?
    ensures LatestOf(s, Some(anchor), now, 14).None? <==>
            (forall wd :: wd in s.days ==> wd == WeekdayOf(DayOf(now))) && CountingWeek(Some(anchor), DayOf(now)) && At(s, DayOf(now)) > now
  {
    hide At, DayOf, WeekdayOf, CountingWeek;
    var today := DayOf(now);
    LatestOfIs(s, Some(anchor), now, 14);
    if LatestOf(s, Some(anchor), now, 14).None? {
      forall wd | wd in s.days ensures wd == WeekdayOf(today) && At(s, today) > now && CountingWeek(Some(anchor), today) {
        var d := LastWith(today, wd);
        WeekdayAWeekAgo(d);
        WeeksAlternate(anchor, d);
        DaysInOrder(s, d, now);
        DaysInOrder(s, d - 7, now);
        assert !Hits(s, Some(anchor), now, d) && !Hits(s, Some(anchor), now, d - 7);
      }
      assert s.days[0] in s.days;
    } else {
      var d :| today - 14 < d <= today && Hits(s, Some(anchor), now, d);
      if WeekdayOf(d) == WeekdayOf(today) {
        var e := LastWith(today, WeekdayOf(today));
        WeekdayAWeekAgo(d + 7);
        WeeksAlternate(anchor, d + 7);
        assert d == today || d + 7 == today;
      }
    }
  }

  lemma WeekdayAWeekAgo(d: Day)
    ensures WeekdayOf(d - 7) == WeekdayOf(d)
  {
  }

  // ---------- tasks ----------

  /** A time window as configured; a bound that does not parse is absent. */
  datatype Window = Window(configured: bool, start: Option<nat>, end: Option<nat>)

  /** A time of 0 means that it was never set; an interval that does not parse is absent. */
  datatype Task = Task(schedule: Option<Schedule>, interval: Option<int>, createdAt: Time, lastRunAt: Time, window: Window)

  predicate ValidTask(t: Task) {
    t.schedule.Some? ==> ValidSchedule(t.schedule.value)
  }

  function AnchorDay(t: Task, now: Time): Day {
    DayOf(if t.createdAt != 0 then t.createdAt else if t.lastRunAt != 0 then t.lastRunAt else now)
  }

  function AnchorOf(t: Task, now: Time): Option<Day>
    requires t.schedule.Some?
  {
    if t.schedule.value.kind.Biweekly? then Some(AnchorDay(t, now)) else None
  }

  function PreviousScheduleAt(t: Task, now: Time): Option<Time> {
    if t.schedule.None? then None
    else
      var s := t.schedule.value;
      match s.kind
      case Daily => Some(if At(s, DayOf(now)) > now then At(s, DayOf(now) - 1) else At(s, DayOf(now)))
      case Weekly => LatestOf(s, None, now, 7)
      case Biweekly => LatestOf(s, AnchorOf(t, now), now, 14)
  }

  function MinuteOfDay(t: Time): nat {
    (t % DAY) / MINUTE
  }

  predicate WithinTimeWindow(w: Window, now: Time) {
    var m := MinuteOfDay(now);
    if w.start.None? && w.end.None? then true
    else if w.end.None? then m >= w.start.value
    else if w.start.None? then m < w.end.value
    else if w.start.value < w.end.value then w.start.value <= m < w.end.value
    else m >= w.start.value || m < w.end.value
  }

  /** A window and the one with its bounds exchanged split the day; equal bounds leave the whole day open. */
  lemma ExchangedWindowsSplitTheDay(w: Window, v: Window, now: Time)
    requires w.start.Some? && w.end.Some? && v == w.(start := w.end, end := w.start)
    ensures WithinTimeWindow(w, now) && WithinTimeWindow(v, now) <==> w.start == w.end
    ensures WithinTimeWindow(w, now) || WithinTimeWindow(v, now)
  {
    hide MinuteOfDay;
  }

  /** Milliseconds since midnight. */
  function SinceMidnight(t: Time): nat {
    t - DayOf(t) * DAY
  }

  /** An instant of a rule is its clock time on its day. */
  lemma AtIsClockTime(s: Schedule, d: Day)
    requires s.hour < 24 && s.minute < 60
    ensures DayOf(At(s, d)) == d && SinceMidnight(At(s, d)) == s.hour * 3_600_000 + s.minute * 60_000
  {
    AtIsOnItsDay(s, d);
  }

  /**
   The window, on the clock face: between its bounds going forward from the start,
   over midnight if need be; with one bound, from there to midnight or from midnight
   to there; without any, and with equal ones, all day.
   */
  lemma WindowExactly(w: Window, now: Time)
    requires w.start.Some? ==> w.start.value < 1440
    requires w.end.Some? ==> w.end.value < 1440
    ensures WithinTimeWindow(w, now) <==>
            match (w.start, w.end)
            case (None, None) => true
            case (Some(a), None) => SinceMidnight(now) >= a * MINUTE
            case (None, Some(b)) => SinceMidnight(now) < b * MINUTE
            case (Some(a), Some(b)) =>
              a == b || (SinceMidnight(now) - a * MINUTE) % DAY < ((b - a) * MINUTE) % DAY
  {
    var since := SinceMidnight(now);
    assert since == now % DAY && MinuteOfDay(now) == since / MINUTE;
    if w.start.Some? { Minutes(since, w.start.value); }
    if w.end.Some? { Minutes(since, w.end.value); }
    hide MinuteOfDay, SinceMidnight, DayOf;
    if w.start.Some? && w.end.Some? {
      Round(since - w.start.value * MINUTE);
      Round((w.end.value - w.start.value) * MINUTE);
    }
  }

  lemma Minutes(since: nat, a: nat)
    ensures since / MINUTE >= a <==> since >= a * MINUTE
  {
  }

  lemma Round(x: int)
    ensures 0 <= x < DAY ==> x % DAY == x
    ensures -DAY <= x < 0 ==> x % DAY == x + DAY
  {
  }

  /** The rule of a task without a calendar instant to go by. */
  predicate IntervalDue(t: Task, now: Time) {
    t.interval.Some? && t.interval.value > 0 &&
    var base := if t.lastRunAt == 0 then t.createdAt else t.lastRunAt;
    (base == 0 || now - base >= t.interval.value) && (t.window.configured ==> WithinTimeWindow(t.window, now))
  }

  predicate DueAt(t: Task, now: Time) {
    var scheduled := PreviousScheduleAt(t, now);
    if scheduled.Some? then
      !(t.createdAt != 0 && scheduled.value < t.createdAt)
      && !(t.lastRunAt != 0 && !(t.lastRunAt < scheduled.value))
      && !(scheduled.value > now)
    else IntervalDue(t, now)
  }

  method HeartbeatTaskDueAt(t: Task, now: Time) returns (due: bool)
    requires ValidTask(t)
    ensures due == DueAt(t, now)
  {
    hide At, DayOf;
    var scheduled: Option<Time> := None;
    if t.schedule.Some? {
      var s := t.schedule.value;
      match s.kind {
        case Daily =>
          var candidate := At(s, DayOf(now));
          if candidate > now {
            candidate := At(s, DayOf(now) - 1);
          }
          scheduled := Some(candidate);
        case Weekly => scheduled := PreviousHeartbeatWeeklyAt(s, now, 7, None);
        case Biweekly => scheduled := PreviousHeartbeatWeeklyAt(s, now, 14, AnchorOf(t, now));
      }
    }
    if scheduled.Some? {
      if t.createdAt != 0 && scheduled.value < t.createdAt {
        return false;
      }
      if t.lastRunAt != 0 && !(t.lastRunAt < scheduled.value) {
        return false;
      }
      return !(scheduled.value > now);
    }
    due := IntervalDue(t, now);
  }

  // ---------- what being due means ----------

  /** The rule of t asks for a run on day d. */
  predicate RunsOn(t: Task, now: Time, d: Day)
    requires t.schedule.Some?
  {
    t.schedule.value.kind.Daily? || Asks(t.schedule.value, AnchorOf(t, now), d)
  }

  /** The calendar's answer is an asked-for instant that has come, and no other has come after it, however far one looks. */
  lemma PreviousIsLatest(t: Task, now: Time)
    requires ValidTask(t) && PreviousScheduleAt(t, now).Some?
    ensures exists d :: RunsOn(t, now, d) && PreviousScheduleAt(t, now) == Some(At(t.schedule.value, d)) && At(t.schedule.value, d) <= now
    ensures forall d :: RunsOn(t, now, d) && At(t.schedule.value, d) <= now ==> At(t.schedule.value, d) <= PreviousScheduleAt(t, now).value
  {
    var s, today := t.schedule.value, DayOf(now);
    if s.kind.Daily? {
      var d := if At(s, today) > now then today - 1 else today;
      DaysInOrder(s, today - 1, now);
      assert RunsOn(t, now, d) && PreviousScheduleAt(t, now) == Some(At(s, d)) && At(s, d) <= now;
      forall e | At(s, e) <= now ensures At(s, e) <= At(s, d) { DaysInOrder(s, e, now); }
    } else {
      var anchor, n := AnchorOf(t, now), if s.kind.Weekly? then 7 else 14;
      LatestOfIs(s, anchor, now, n);
      hide LatestOf, WeekdayOf, CountingWeek, DayOf;
      var d :| today - n < d <= today && Hits(s, anchor, now, d) && LatestOf(s, anchor, now, n) == Some(At(s, d))
               && forall e :: d < e ==> !Hits(s, anchor, now, e);
      forall e | RunsOn(t, now, e) && At(s, e) <= now ensures At(s, e) <= At(s, d) { assert Hits(s, anchor, now, e); }
    }
  }

  /** An asked-for instant that has come, not before t was created and after its last run. */
  predicate Owes(t: Task, now: Time, d: Day)
    requires t.schedule.Some?
  {
    var x := At(t.schedule.value, d);
    RunsOn(t, now, d) && x <= now && (t.createdAt != 0 ==> t.createdAt <= x) && (t.lastRunAt != 0 ==> t.lastRunAt < x)
  }

  /** On the calendar path a task is due exactly when it owes a run at some instant, of all instants there ever were. */
  lemma DueExactlyWhenOwing(t: Task, now: Time)
    requires ValidTask(t) && PreviousScheduleAt(t, now).Some?
    ensures DueAt(t, now) <==> exists d :: Owes(t, now, d)
  {
    PreviousIsLatest(t, now);
    hide PreviousScheduleAt, RunsOn, At;
    if DueAt(t, now) {
      var d :| RunsOn(t, now, d) && PreviousScheduleAt(t, now) == Some(At(t.schedule.value, d)) && At(t.schedule.value, d) <= now;
      assert Owes(t, now, d);
    }
    if exists d :: Owes(t, now, d) {
      var d :| Owes(t, now, d);
      assert At(t.schedule.value, d) <= PreviousScheduleAt(t, now).value;
    }
  }

  /** A biweekly rule counts the weeks from the one in which the task was created, or else last ran: that week, not the next, and so on. */
  lemma BiweeklyCountsFrom(t: Task, now: Time, d: Day)
    requires t.schedule.Some? && t.schedule.value.kind.Biweekly? && (t.createdAt != 0 || t.lastRunAt != 0)
    requires WeekdayOf(d) in t.schedule.value.days
    ensures var first := WeekStart(DayOf(if t.createdAt != 0 then t.createdAt else t.lastRunAt));
            && (first <= d < first + 7 ==> RunsOn(t, now, d))
            && (first + 7 <= d < first + 14 ==> !RunsOn(t, now, d))
            && (RunsOn(t, now, d) <==> !Asks(t.schedule.value, AnchorOf(t, now), d - 7))
  {
    var anchor := AnchorDay(t, now);
    WeekStartExactly(anchor);
    WeekStartExactly(d);
    WeeksAlternate(anchor, d);
    WeekdayAWeekAgo(d);
    MondayOf(anchor);
    MondayOf(d);
    hide WeekdayOf, DayOf;
  }

  // ---------- being due without owing ----------

  /** Today is the only day the weekly or biweekly rule lists, it counts, and its time has not come. */
  predicate OnlyTodayAhead(t: Task, now: Time)
    requires t.schedule.Some?
  {
    var s, today := t.schedule.value, DayOf(now);
    && !s.kind.Daily? && (forall wd :: wd in s.days ==> wd == WeekdayOf(today))
    && CountingWeek(AnchorOf(t, now), today) && At(s, today) > now
  }

  function PeriodDays(s: Schedule): nat {
    if s.kind.Biweekly? then 14 else 7
  }

  /** The instant before today's, when today is the only day listed. */
  function LastInstant(t: Task, now: Time): Time
    requires t.schedule.Some?
  {
    At(t.schedule.value, DayOf(now) - PeriodDays(t.schedule.value))
  }

  lemma NothingFoundExactly(t: Task, now: Time)
    requires ValidTask(t) && t.schedule.Some?
    ensures PreviousScheduleAt(t, now).None? <==> OnlyTodayAhead(t, now)
  {
    var s := t.schedule.value;
    match s.kind
    case Daily =>
    case Weekly => WeeklyFailsExactly(s, now);
    case Biweekly => BiweeklyFailsExactly(s, AnchorDay(t, now), now);
  }

  /** Then the days asked for before today lie a whole number of periods back, and the latest of them one period. */
  lemma EarlierInstants(t: Task, now: Time, d: Day)
    requires ValidTask(t) && t.schedule.Some? && OnlyTodayAhead(t, now)
    ensures RunsOn(t, now, d) && At(t.schedule.value, d) <= now ==> At(t.schedule.value, d) <= LastInstant(t, now)
    ensures RunsOn(t, now, DayOf(now) - PeriodDays(t.schedule.value)) && LastInstant(t, now) <= now
  {
    var s, today := t.schedule.value, DayOf(now);
    LastDayAsked(t, now);
    if RunsOn(t, now, d) && At(s, d) <= now {
      DaysInOrder(s, d, now);
      SameWeekday(d, today);
      if s.kind.Biweekly? {
        WeeksAlternate(AnchorDay(t, now), today);
      }
      AtIsMonotone(s, d, today - PeriodDays(s));
    }
    hide At, DayOf, WeekdayOf, CountingWeek, AnchorDay;
  }

  lemma SameWeekday(d: Day, today: Day)
    ensures d <= today && WeekdayOf(d) == WeekdayOf(today) ==> d == today || d == today - 7 || d <= today - 14
  {
  }

  lemma AtIsMonotone(s: Schedule, d: Day, e: Day)
    ensures d <= e ==> At(s, d) <= At(s, e)
  {
  }

  lemma LastDayAsked(t: Task, now: Time)
    requires ValidTask(t) && t.schedule.Some? && OnlyTodayAhead(t, now)
    ensures RunsOn(t, now, DayOf(now) - PeriodDays(t.schedule.value)) && LastInstant(t, now) <= now
  {
    var s, today := t.schedule.value, DayOf(now);
    WeekdayAWeekAgo(today);
    WeekdayAWeekAgo(today - 7);
    DaysInOrder(s, today - PeriodDays(s), now);
    assert s.days[0] in s.days;
    if s.kind.Biweekly? {
      WeeksAlternate(AnchorDay(t, now), today);
      WeeksAlternate(AnchorDay(t, now), today - 7);
    }
    hide At, DayOf, WeekdayOf, CountingWeek, AnchorDay;
  }

  /** A run that no instant asked for. */
  ghost predicate DueEarly(t: Task, now: Time)
    requires t.schedule.Some?
  {
    DueAt(t, now) && forall d :: !Owes(t, now, d)
  }

  /** Created after the last instant, or run since: nothing is owed until today's time comes. */
  predicate UpToDate(t: Task, now: Time)
    requires t.schedule.Some?
  {
    (t.createdAt != 0 && t.createdAt > LastInstant(t, now)) || (t.lastRunAt != 0 && t.lastRunAt >= LastInstant(t, now))
  }

  lemma OwesNothingExactly(t: Task, now: Time)
    requires ValidTask(t) && t.schedule.Some? && OnlyTodayAhead(t, now)
    ensures (forall d :: !Owes(t, now, d)) <==> UpToDate(t, now)
  {
    var last := DayOf(now) - PeriodDays(t.schedule.value);
    EarlierInstants(t, now, last);
    hide At, DayOf, WeekdayOf, RunsOn, OnlyTodayAhead, AnchorDay;
    if UpToDate(t, now) {
      forall d ensures !Owes(t, now, d) { EarlierInstants(t, now, d); }
    } else {
      assert Owes(t, now, last);
    }
  }

  /**
   A run that no instant asked for happens exactly when today is the only day listed,
   its time has not come, nothing is owed, and the plain interval rule, which then
   takes over, finds enough time passed.
   */
  lemma DueEarlyExactly(t: Task, now: Time)
    requires ValidTask(t) && t.schedule.Some?
    ensures DueEarly(t, now) <==> OnlyTodayAhead(t, now) && IntervalDue(t, now) && UpToDate(t, now)
  {
    NothingFoundExactly(t, now);
    if PreviousScheduleAt(t, now).Some? {
      DueExactlyWhenOwing(t, now);
    } else {
      OwesNothingExactly(t, now);
    }
    hide PreviousScheduleAt, OnlyTodayAhead, IntervalDue, UpToDate, Owes;
  }

  /** An interval of at least the period never runs early, unless the creation time was set after the last run. */
  lemma LongIntervalsNeverRunEarly(t: Task, now: Time)
    requires ValidTask(t) && t.schedule.Some?
    requires t.interval.Some? ==> t.interval.value >= PeriodDays(t.schedule.value) * DAY
    ensures DueEarly(t, now) ==> 0 != t.lastRunAt < t.createdAt
  {
    DueEarlyExactly(t, now);
    hide DueEarly, WeekdayOf, CountingWeek, AnchorOf, WithinTimeWindow;
  }

  /** Any shorter one does: a weekly rule of one day, not at midnight, run at last week's instant, is due just before this week's. */
  lemma ShortIntervalsRunEarly(s: Schedule, interval: int, today: Day)
    requires ValidSchedule(s) && s.kind.Weekly? && s.days == [WeekdayOf(today)] && today > 14
    requires (s.hour > 0 || s.minute > 0) && 0 < interval < 7 * DAY
    ensures var t := Task(Some(s), Some(interval), At(s, today - 7), At(s, today - 7), Window(false, None, None));
            DueEarly(t, At(s, today) - 1)
  {
    var t, now := Task(Some(s), Some(interval), At(s, today - 7), At(s, today - 7), Window(false, None, None)), At(s, today) - 1;
    assert At(s, today) > today * DAY && DayOf(now) == today;
    assert At(s, today - 7) == At(s, today) - 7 * DAY > 0;
    hide DayOf;
    DueEarlyExactly(t, now);
  }

  /**
   A daily cycle with one weekday is written as an interval of a day with a weekly
   rule. Run last Monday at nine, it is due this Monday at midnight.
   */
  lemma DailyCycleOnMondaysRunsAtMidnight()
    ensures var s := Schedule(Weekly, [1], 9, 0);
            var t := Task(Some(s), Some(DAY), 60 * DAY, At(s, 67), Window(false, None, None));
            WeekdayOf(74) == 1 && DueEarly(t, 74 * DAY)
  {
    var s := Schedule(Weekly, [1], 9, 0);
    var t := Task(Some(s), Some(DAY), 60 * DAY, At(s, 67), Window(false, None, None));
    DueEarlyExactly(t, 74 * DAY);
  }

  /**
   One that has neither a creation time nor a run goes by the interval alone while
   nothing is found, and is due at once if interval and window allow.
   */
  lemma NeverRunTaskIsDueEarly(t: Task, now: Time)
    requires ValidTask(t) && t.schedule.Some? && OnlyTodayAhead(t, now)
    requires t.createdAt == 0 && t.lastRunAt == 0
    ensures DueAt(t, now) <==>
            t.interval.Some? && t.interval.value > 0 && (t.window.configured ==> WithinTimeWindow(t.window, now))
  {
    NothingFoundExactly(t, now);
    hide PreviousScheduleAt, OnlyTodayAhead, WithinTimeWindow;
  }

  // ---------- runs over time ----------

  /** The engine looks at its task list at now; when it runs this one, or the user asks for a run, the run is recorded at ran. */
  datatype Look = Look(now: Time, byUser: bool, ran: Option<Time>)

  predicate Happens(t: Task, l: Look) {
    0 < l.now && (l.ran.Some? ==> l.now <= l.ran.value && (l.byUser || DueAt(t, l.now)))
  }

  function AfterLook(t: Task, l: Look): Task {
    if l.ran.None? then t
    else t.(lastRunAt := l.ran.value, createdAt := if t.createdAt == 0 then l.ran.value else t.createdAt)
  }

  predicate History(t: Task, ls: seq<Look>)
    decreases |ls|
  {
    ls == [] || (Happens(t, ls[0]) && t.lastRunAt <= ls[0].now && History(AfterLook(t, ls[0]), ls[1..]))
  }

  function TaskAt(t: Task, ls: seq<Look>, i: nat): Task
    requires i <= |ls|
    decreases i
  {
    if i == 0 then t else TaskAt(AfterLook(t, ls[0]), ls[1..], i - 1)
  }

  lemma {:induction false} HistoryAt(t: Task, ls: seq<Look>, i: nat)
    requires History(t, ls) && i < |ls|
    ensures Happens(TaskAt(t, ls, i), ls[i]) && TaskAt(t, ls, i).lastRunAt <= ls[i].now && TaskAt(t, ls, i).schedule == t.schedule
    decreases i
  {
    hide Happens;
    if i > 0 {
      HistoryAt(AfterLook(t, ls[0]), ls[1..], i - 1);
    }
  }

  lemma {:induction false} LastRunGrows(t: Task, ls: seq<Look>, i: nat, j: nat)
    requires History(t, ls) && i < j <= |ls| && ls[i].ran.Some?
    ensures TaskAt(t, ls, j).lastRunAt >= ls[i].ran.value > 0
    decreases j
  {
    if i > 0 {
      LastRunGrows(AfterLook(t, ls[0]), ls[1..], i - 1, j - 1);
    } else {
      LastRunStays(AfterLook(t, ls[0]), ls[1..], j - 1);
    }
  }

  lemma {:induction false} LastRunStays(t: Task, ls: seq<Look>, j: nat)
    requires History(t, ls) && j <= |ls|
    ensures TaskAt(t, ls, j).lastRunAt >= t.lastRunAt
    decreases j
  {
    if j > 0 {
      LastRunStays(AfterLook(t, ls[0]), ls[1..], j - 1);
    }
  }

  /** Between any recorded run and a later due run on the calendar path lies an asked-for instant: no instant is served twice. */
  lemma InstantBetweenRuns(t: Task, ls: seq<Look>, i: nat, j: nat)
    requires ValidTask(t) && History(t, ls) && i < j < |ls|
    requires ls[i].ran.Some? && ls[j].ran.Some? && !ls[j].byUser
    requires PreviousScheduleAt(TaskAt(t, ls, j), ls[j].now).Some?
    ensures t.schedule.Some? && TaskAt(t, ls, j).schedule == t.schedule &&
            exists d :: RunsOn(TaskAt(t, ls, j), ls[j].now, d) && ls[i].ran.value < At(t.schedule.value, d) <= ls[j].now
  {
    var u, now := TaskAt(t, ls, j), ls[j].now;
    HistoryAt(t, ls, j);
    LastRunGrows(t, ls, i, j);
    hide History, TaskAt, RunsOn, At;
    DueExactlyWhenOwing(u, now);
    var d :| Owes(u, now, d);
  }

  // ---------- tasks that go by an interval ----------

  /** Any two runs of an interval task, the later one not by hand, are at least the interval apart. */
  lemma IntervalRunsAreSpaced(t: Task, ls: seq<Look>, i: nat, j: nat)
    requires t.schedule.None? && History(t, ls) && i < j < |ls|
    requires ls[i].ran.Some? && ls[j].ran.Some? && !ls[j].byUser
    ensures t.interval.Some? && t.interval.value > 0 && ls[j].now >= ls[i].ran.value + t.interval.value
  {
    HistoryAt(t, ls, j);
    LastRunGrows(t, ls, i, j);
    RunsKeepRule(t, ls, j);
  }

  lemma {:induction false} RunsKeepRule(t: Task, ls: seq<Look>, i: nat)
    requires i <= |ls|
    ensures TaskAt(t, ls, i).interval == t.interval && TaskAt(t, ls, i).schedule == t.schedule && TaskAt(t, ls, i).window == t.window
    decreases i
  {
    if i > 0 {
      RunsKeepRule(AfterLook(t, ls[0]), ls[1..], i - 1);
    }
  }

  lemma {:induction false} LastRunIs(t: Task, ls: seq<Look>, i: nat, j: nat)
    requires i < j <= |ls| && ls[i].ran.Some? && forall k :: i < k < j ==> ls[k].ran.None?
    ensures TaskAt(t, ls, j).lastRunAt == ls[i].ran.value
    decreases j
  {
    if i > 0 {
      forall k | i - 1 < k < j - 1 ensures ls[1..][k].ran.None? { assert ls[1..][k] == ls[k + 1]; }
      LastRunIs(AfterLook(t, ls[0]), ls[1..], i - 1, j - 1);
    } else {
      forall k | 0 <= k < j - 1 ensures ls[1..][k].ran.None? { assert ls[1..][k] == ls[k + 1]; }
      NoRunKeepsTask(AfterLook(t, ls[0]), ls[1..], j - 1);
    }
  }

  lemma {:induction false} NoRunKeepsTask(t: Task, ls: seq<Look>, j: nat)
    requires j <= |ls| && forall k :: 0 <= k < j ==> ls[k].ran.None?
    ensures TaskAt(t, ls, j) == t
    decreases j
  {
    if j > 0 {
      forall k | 0 <= k < j - 1 ensures ls[1..][k].ran.None? { assert ls[1..][k] == ls[k + 1]; }
      NoRunKeepsTask(AfterLook(t, ls[0]), ls[1..], j - 1);
    }
  }

  /** And it is due at every look since its last run at i exactly when the interval has passed, inside its window. */
  lemma IntervalComesDue(t: Task, ls: seq<Look>, i: nat, j: nat)
    requires t.schedule.None? && t.interval.Some? && t.interval.value > 0 && History(t, ls) && i < j < |ls|
    requires ls[i].ran.Some? && forall k :: i < k < j ==> ls[k].ran.None?
    ensures DueAt(TaskAt(t, ls, j), ls[j].now) <==>
            ls[j].now >= ls[i].ran.value + t.interval.value && (t.window.configured ==> WithinTimeWindow(t.window, ls[j].now))
  {
    RunsKeepRule(t, ls, j);
    LastRunIs(t, ls, i, j);
    HistoryAt(t, ls, i);
    hide WithinTimeWindow;
  }
}
