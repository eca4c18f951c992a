/**
 * Wall-clock texts ("HH:MM") and the daily shift that a booking needs
 * (src/common/utils/working-window.util.ts).
 */
module WorkingWindow {
  import opened Domain

  // ----- "HH:MM" texts -----

  function Digit(d: int): char
    requires 0 <= d < 10
  {
    (48 + d) as char
  }

  function TwoDigits(n: int): (t: string)
    requires 0 <= n < 100
    ensures |t| == 2
  {
    [Digit(n / 10), Digit(n % 10)]
  }

  function HHMM(m: int): (t: string)
    requires 0 <= m <= 1440
    ensures |t| == 5
  {
    TwoDigits(m / 60) + ":" + TwoDigits(m % 60)
  }

  /** Texts accepted by the profile DTOs: two digits below 24, a colon, two digits below 60. */
  predicate ValidClock(t: string) {
    && |t| == 5 && t[2] == ':'
    && '0' <= t[0] <= '9' && '0' <= t[1] <= '9' && '0' <= t[3] <= '9' && '0' <= t[4] <= '9'
    && DigitValue(t[0]) * 10 + DigitValue(t[1]) < 24 && DigitValue(t[3]) < 6
  }

  function DigitValue(c: char): int {
    c as int - 48
  }

  /** `parseTimeToMinutes` on a five-character text. */
  function ToMinutes(t: string): int
    requires |t| == 5
  {
    (DigitValue(t[0]) * 10 + DigitValue(t[1])) * 60 + DigitValue(t[3]) * 10 + DigitValue(t[4])
  }

  /** The `<` of JavaScript strings, which is also the text order of the database. */
  predicate LexLess(a: string, b: string) {
    b != [] && (a == [] || a[0] < b[0] || (a[0] == b[0] && LexLess(a[1..], b[1..])))
  }

  predicate LexAtMost(a: string, b: string) {
    !LexLess(b, a)
  }

  lemma LexLessFive(a: string, b: string)
    requires |a| == 5 && |b| == 5 && a[2] == b[2]
    ensures LexLess(a, b) <==>
            a[0] < b[0] || (a[0] == b[0] && (a[1] < b[1] || (a[1] == b[1] &&
            (a[3] < b[3] || (a[3] == b[3] && a[4] < b[4])))))
  {
    assert LexLess(a[1..], b[1..]) <==>
           a[1] < b[1] || (a[1] == b[1] && LexLess(a[1..][1..], b[1..][1..]));
    assert a[1..][1..] == a[2..] && b[1..][1..] == b[2..];
    assert LexLess(a[2..], b[2..]) <==> LexLess(a[2..][1..], b[2..][1..]);
    assert a[2..][1..] == a[3..] && b[2..][1..] == b[3..];
    assert LexLess(a[3..], b[3..]) <==>
           a[3] < b[3] || (a[3] == b[3] && LexLess(a[3..][1..], b[3..][1..]));
    assert a[3..][1..] == a[4..] && b[3..][1..] == b[4..];
    assert LexLess(a[4..], b[4..]) <==>
           a[4] < b[4] || (a[4] == b[4] && LexLess(a[4..][1..], b[4..][1..]));
  }

  lemma TwoDigitsOrder(a: int, b: int)
    requires 0 <= a < 100 && 0 <= b < 100
    ensures var s, t := TwoDigits(a), TwoDigits(b);
            && (a < b <==> s[0] < t[0] || (s[0] == t[0] && s[1] < t[1]))
            && (a == b <==> s[0] == t[0] && s[1] == t[1])
  {
  }

  lemma ClockRoundTrip(m: int)
    requires 0 <= m <= 1440
    ensures ToMinutes(HHMM(m)) == m
  {
  }

  lemma TwoDigitsOfValue(c: char, d: char)
    requires '0' <= c <= '9' && '0' <= d <= '9'
    ensures TwoDigits(DigitValue(c) * 10 + DigitValue(d)) == [c, d]
  {
  }

  lemma ValidClockIsHHMM(t: string)
    requires ValidClock(t)
    ensures 0 <= ToMinutes(t) < 1440 && HHMM(ToMinutes(t)) == t
  {
    var h, m := DigitValue(t[0]) * 10 + DigitValue(t[1]), DigitValue(t[3]) * 10 + DigitValue(t[4]);
    assert ToMinutes(t) == h * 60 + m;
    assert ToMinutes(t) / 60 == h && ToMinutes(t) % 60 == m;
    TwoDigitsOfValue(t[0], t[1]);
    TwoDigitsOfValue(t[3], t[4]);
  }

  /** Comparing "HH:MM" texts compares the minutes they name. */
  lemma TextOrderIsClockOrder(a: int, b: int)
    requires 0 <= a <= 1440 && 0 <= b <= 1440
    ensures LexLess(HHMM(a), HHMM(b)) <==> a < b
  {
    LexLessFive(HHMM(a), HHMM(b));
    TwoDigitsOrder(a / 60, b / 60);
    TwoDigitsOrder(a % 60, b % 60);
    assert a < b <==> a / 60 < b / 60 || (a / 60 == b / 60 && a % 60 < b % 60);
  }

  // ----- Local time -----

  /**
   * A branch timezone: the offset, in whole minutes, in force during each UTC minute.
   * Nothing else is assumed, so offset changes in either direction are covered.
   */
  type Zone = int -> int

  function MinuteOf(instant: int): int {
    instant / 60000
  }

  /** `Math.ceil(instant / MINUTE_MS)`. */
  function CeilMinute(instant: int): int {
    (instant + 60000 - 1) / 60000
  }

  function LocalDay(z: Zone, minute: int): int {
    (minute + z(minute)) / 1440
  }

  function LocalTime(z: Zone, minute: int): (t: int)
    ensures 0 <= t < 1440
  {
    (minute + z(minute)) % 1440
  }

  datatype Window = Window(startTime: string, endTime: string)

  /** Every instant of [start, end), and the end rounded up to a minute, fall on the start's local day. */
  predicate OneLocalDay(z: Zone, start: int, end: int) {
    && (forall m | MinuteOf(start) <= m <= MinuteOf(end - 1) :: LocalDay(z, m) == LocalDay(z, MinuteOf(start)))
    && LocalDay(z, CeilMinute(end)) == LocalDay(z, MinuteOf(start))
  }

  function Earliest(z: Zone, lo: int, hi: int): (t: int)
    requires lo <= hi
    ensures 0 <= t < 1440
    decreases hi - lo
  {
    if lo == hi then LocalTime(z, lo)
    else
      var t := Earliest(z, lo, hi - 1);
      if LocalTime(z, hi) < t then LocalTime(z, hi) else t
  }

  function Latest(z: Zone, lo: int, hi: int): (t: int)
    requires lo <= hi
    ensures 0 <= t < 1440
    decreases hi - lo
  {
    if lo == hi then LocalTime(z, lo)
    else
      var t := Latest(z, lo, hi - 1);
      if t < LocalTime(z, hi) then LocalTime(z, hi) else t
  }

  lemma {:induction false} EarliestAndLatest(z: Zone, lo: int, hi: int)
    requires lo <= hi
    ensures forall m :: lo <= m <= hi ==> Earliest(z, lo, hi) <= LocalTime(z, m) <= Latest(z, lo, hi)
    ensures exists m :: lo <= m <= hi && Earliest(z, lo, hi) == LocalTime(z, m)
    ensures exists m :: lo <= m <= hi && Latest(z, lo, hi) == LocalTime(z, m)
    decreases hi - lo
  {
    if lo == hi {
      assert Earliest(z, lo, hi) == Latest(z, lo, hi) == LocalTime(z, lo);
    } else {
      EarliestAndLatest(z, lo, hi - 1);
      assert LocalTime(z, hi) == LocalTime(z, hi);
    }
  }

  lemma MinutesOrdered(start: int, end: int)
    requires start < end
    ensures MinuteOf(start) <= MinuteOf(end - 1)
  {
  }

  /** What `workingWindowForInterval` computes. */
  function WindowFor(z: Zone, start: int, end: int): Option<Window> {
    if end <= start || !OneLocalDay(z, start, end) then None
    else
      MinutesOrdered(start, end);
      var lo, hi := MinuteOf(start), MinuteOf(end - 1);
      Some(Window(HHMM(Earliest(z, lo, hi)), HHMM(Latest(z, lo, hi) + 1)))
  }

  function NextMinute(time: string): string
    requires |time| == 5 && 0 <= ToMinutes(time) < 1440
  {
    HHMM(ToMinutes(time) + 1)
  }

  /** The walk over UTC minute segments, comparing texts as the code does. */
  method WorkingWindowForInterval(start: int, end: int, z: Zone) returns (w: Option<Window>)
    ensures w == WindowFor(z, start, end)
  {
    if end <= start {
      return None;
    }
    var first := MinuteOf(start);
    var day := LocalDay(z, first);
    if LocalDay(z, CeilMinute(end)) != day {
      return None;
    }
    var startTime, endTime := HHMM(LocalTime(z, first)), HHMM(0);
    ghost var from, to := LocalTime(z, first), 0;
    var cursor := start;
    while cursor < end
      invariant Walked(z, start, end, cursor, from, to)
      invariant startTime == HHMM(from) && endTime == HHMM(to)
      decreases end - cursor
    {
      var boundary := (MinuteOf(cursor) + 1) * 60000;
      var segmentEnd := if boundary < end then boundary else end;
      SegmentIsOneMinute(cursor, segmentEnd);
      var minute := MinuteOf(segmentEnd - 1);
      if LocalDay(z, MinuteOf(cursor)) != day || LocalDay(z, minute) != day {
        LeavesTheDay(z, start, end, cursor);
        return None;
      }
      var firstTime, lastTime := LocalTime(z, MinuteOf(cursor)), LocalTime(z, minute);
      WalkStep(z, start, end, cursor, segmentEnd, from, to);
      startTime, endTime := Widen(startTime, endTime, firstTime, lastTime, from, to);
      from, to := if firstTime < from then firstTime else from, if to < lastTime + 1 then lastTime + 1 else to;
      cursor := segmentEnd;
    }
    WalkComplete(z, start, end, from, to);
    w := Some(Window(startTime, endTime));
  }

  /** The two text comparisons of one step of the walk. */
  method Widen(startTime: string, endTime: string, first: int, last: int, ghost from: int, ghost to: int)
    returns (startTime': string, endTime': string)
    requires 0 <= first < 1440 && 0 <= last < 1440 && 0 <= from < 1440 && 0 <= to <= 1440
    requires startTime == HHMM(from) && endTime == HHMM(to)
    ensures startTime' == HHMM(if first < from then first else from)
    ensures endTime' == HHMM(if to < last + 1 then last + 1 else to)
  {
    ClockRoundTrip(last);
    var segmentEndTime := NextMinute(HHMM(last));
    TextOrderIsClockOrder(first, from);
    TextOrderIsClockOrder(to, last + 1);
    startTime' := if LexLess(HHMM(first), startTime) then HHMM(first) else startTime;
    endTime' := if LexLess(endTime, segmentEndTime) then segmentEndTime else endTime;
  }

  /** The walk has reached `cursor`, having seen every local minute before it. */
  ghost predicate Walked(z: Zone, start: int, end: int, cursor: int, from: int, to: int) {
    var first := MinuteOf(start);
    && start <= cursor <= end
    && 0 <= from < 1440 && 0 <= to <= 1440
    && (cursor == start || cursor == end || cursor % 60000 == 0)
    && (cursor == start ==> from == LocalTime(z, first) && to == 0)
    && (cursor > start ==>
          && first <= MinuteOf(cursor - 1)
          && (forall m | first <= m <= MinuteOf(cursor - 1) :: LocalDay(z, m) == LocalDay(z, first))
          && from == Earliest(z, first, MinuteOf(cursor - 1))
          && to == Latest(z, first, MinuteOf(cursor - 1)) + 1)
  }

  lemma SegmentIsOneMinute(cursor: int, segmentEnd: int)
    requires cursor < segmentEnd <= (MinuteOf(cursor) + 1) * 60000
    ensures MinuteOf(segmentEnd - 1) == MinuteOf(cursor)
  {
  }

  lemma WalkComplete(z: Zone, start: int, end: int, from: int, to: int)
    requires start < end && Walked(z, start, end, end, from, to)
    requires LocalDay(z, CeilMinute(end)) == LocalDay(z, MinuteOf(start))
    ensures WindowFor(z, start, end) == Some(Window(HHMM(from), HHMM(to)))
  {
  }

  lemma LeavesTheDay(z: Zone, start: int, end: int, cursor: int)
    requires start <= cursor < end && LocalDay(z, MinuteOf(cursor)) != LocalDay(z, MinuteOf(start))
    ensures WindowFor(z, start, end) == None
  {
  }

  lemma PreviousMinute(start: int, cursor: int)
    requires start < cursor && cursor % 60000 == 0
    ensures MinuteOf(cursor - 1) == MinuteOf(cursor) - 1
  {
  }

  /** One more segment extends the earliest and latest local times seen so far. */
  lemma WalkStep(z: Zone, start: int, end: int, cursor: int, segmentEnd: int, from: int, to: int)
    requires Walked(z, start, end, cursor, from, to) && cursor < segmentEnd <= end
    requires segmentEnd == (MinuteOf(cursor) + 1) * 60000 || segmentEnd == end
    requires MinuteOf(segmentEnd - 1) == MinuteOf(cursor)
    requires LocalDay(z, MinuteOf(cursor)) == LocalDay(z, MinuteOf(start))
    ensures var t := LocalTime(z, MinuteOf(cursor));
            Walked(z, start, end, segmentEnd, if t < from then t else from, if to < t + 1 then t + 1 else to)
  {
    if cursor > start {
      PreviousMinute(start, cursor);
    }
  }

  /** Local day and time are the UTC minute moved by the offset in force; an instant lies in its minute, and rounding up adds less than one. */
  lemma LocalClock(z: Zone, instant: int)
    ensures LocalDay(z, instant) * 1440 + LocalTime(z, instant) == instant + z(instant)
    ensures MinuteOf(instant) * 60000 <= instant < (MinuteOf(instant) + 1) * 60000
    ensures instant <= CeilMinute(instant) * 60000 < instant + 60000
  {
  }

  /** The shift texts that profiles may hold are the clock times of a day. */
  lemma ValidClockIff(t: string)
    ensures ValidClock(t) <==> exists m :: 0 <= m < 1440 && HHMM(m) == t
  {
    if ValidClock(t) {
      ValidClockIsHHMM(t);
    }
    forall m | 0 <= m < 1440 && HHMM(m) == t
      ensures ValidClock(t)
    {
      ClockRoundTrip(m);
      TwoDigitsOrder(m / 60, 24);
      TwoDigitsOrder(m % 60, 60);
      assert m / 60 < 24 && m % 60 < 60;
    }
  }

  // ----- What the window means -----

  /** A shift [from, to) of minutes since local midnight covers every instant of [start, end). */
  predicate Covers(z: Zone, start: int, end: int, from: int, to: int) {
    forall t | start <= t < end :: from <= LocalTime(z, MinuteOf(t)) < to
  }

  lemma CoversByMinute(z: Zone, start: int, end: int, from: int, to: int)
    requires start < end
    ensures Covers(z, start, end, from, to) <==>
            forall m | MinuteOf(start) <= m <= MinuteOf(end - 1) :: from <= LocalTime(z, m) < to
  {
    if Covers(z, start, end, from, to) {
      forall m | MinuteOf(start) <= m <= MinuteOf(end - 1)
        ensures from <= LocalTime(z, m) < to
      {
        var t := if m * 60000 < start then start else m * 60000;
        assert start <= t < end && MinuteOf(t) == m;
      }
    }
    if forall m | MinuteOf(start) <= m <= MinuteOf(end - 1) :: from <= LocalTime(z, m) < to {
      forall t | start <= t < end
        ensures from <= LocalTime(z, MinuteOf(t)) < to
      {
        assert MinuteOf(start) <= MinuteOf(t) <= MinuteOf(end - 1);
      }
    }
  }

  /**
   * The window is the least one: a well-formed shift passes the text comparisons with it
   * exactly when it covers every instant of the booking.
   */
  lemma WindowIsLeast(z: Zone, start: int, end: int, shiftStart: string, shiftEnd: string)
    requires WindowFor(z, start, end).Some? && ValidClock(shiftStart) && ValidClock(shiftEnd)
    ensures var w := WindowFor(z, start, end).value;
            (LexAtMost(shiftStart, w.startTime) && LexAtMost(w.endTime, shiftEnd)) <==>
            Covers(z, start, end, ToMinutes(shiftStart), ToMinutes(shiftEnd))
  {
    hide HHMM, LexLess;
    var lo, hi := MinuteOf(start), MinuteOf(end - 1);
    MinutesOrdered(start, end);
    var e, l := Earliest(z, lo, hi), Latest(z, lo, hi);
    EarliestAndLatest(z, lo, hi);
    ValidClockIsHHMM(shiftStart);
    ValidClockIsHHMM(shiftEnd);
    TextOrderIsClockOrder(e, ToMinutes(shiftStart));
    TextOrderIsClockOrder(ToMinutes(shiftEnd), l + 1);
    CoversByMinute(z, start, end, ToMinutes(shiftStart), ToMinutes(shiftEnd));
  }

  /** The window itself covers the booking (its ends name the earliest and the last local minute). */
  lemma WindowCovers(z: Zone, start: int, end: int)
    requires WindowFor(z, start, end).Some?
    ensures var w := WindowFor(z, start, end).value;
            && |w.startTime| == 5 && |w.endTime| == 5
            && Covers(z, start, end, ToMinutes(w.startTime), ToMinutes(w.endTime))
  {
    var lo, hi := MinuteOf(start), MinuteOf(end - 1);
    MinutesOrdered(start, end);
    EarliestAndLatest(z, lo, hi);
    ClockRoundTrip(Earliest(z, lo, hi));
    ClockRoundTrip(Latest(z, lo, hi) + 1);
    CoversByMinute(z, start, end, Earliest(z, lo, hi), Latest(z, lo, hi) + 1);
  }

  /** No window: the interval is empty, or an instant or the rounded-up end is on another local day. */
  lemma NoWindowIff(z: Zone, start: int, end: int)
    ensures WindowFor(z, start, end).None? <==>
            || end <= start
            || (exists t :: start <= t < end && LocalDay(z, MinuteOf(t)) != LocalDay(z, MinuteOf(start)))
            || LocalDay(z, CeilMinute(end)) != LocalDay(z, MinuteOf(start))
  {
    if start < end {
      var day := LocalDay(z, MinuteOf(start));
      forall m | MinuteOf(start) <= m <= MinuteOf(end - 1) && LocalDay(z, m) != day
        ensures exists t :: start <= t < end && LocalDay(z, MinuteOf(t)) != day
      {
        var t := if m * 60000 < start then start else m * 60000;
        assert start <= t < end && MinuteOf(t) == m;
      }
      forall t | start <= t < end && LocalDay(z, MinuteOf(t)) != day
        ensures !OneLocalDay(z, start, end)
      {
        assert MinuteOf(start) <= MinuteOf(t) <= MinuteOf(end - 1);
      }
    }
  }
}
