/** The week grid of `src/components/schedule/weekly-calendar.tsx`: the hour rows and
    their labels, where a session block sits and how tall it is (in minutes), when it
    shows the full badge, and how the sessions are grouped into day columns. */
module WeeklyCalendar {
  import opened Domain
  import Text
  import Seqs = Lists
  import Week
  import ScheduleApi

  /** `HOURS`: the rows 6 AM to 8 PM. */
  function Hours(): (hours: seq<int>)
    ensures |hours| == 15
    ensures forall i :: 0 <= i < 15 ==> hours[i] == 6 + i
  {
    seq(15, i requires 0 <= i < 15 => 6 + i)
  }

  /** The column labels, Monday first. */
  const Days: seq<string> := ["Mon", "Tue", "Wed", "Thu", "Fri", "Sat", "Sun"]

  /** The caption of an hour row on a twelve-hour clock. */
  function HourLabel(hour: nat): (caption: string)
    ensures |caption| >= 4
    ensures caption[|caption| - 3..] == if hour < 12 then " AM" else " PM"
  {
    if hour == 12 then "12 PM"
    else if hour > 12 then Text.IntToString(hour - 12) + " PM"
    else Text.IntToString(hour) + " AM"
  }

  /** The number and the half of the day a caption shows. */
  lemma {:induction false} HourLabelParts(hour: nat)
    requires 1 <= hour <= 23
    ensures var caption := HourLabel(hour);
            |caption| >= 4
            && Text.ParseInt(caption[..|caption| - 3]) == Text.Int(if hour > 12 then hour - 12 else hour)
            && (caption[|caption| - 3..] == " PM" <==> hour >= 12)
  {
    var n := if hour > 12 then hour - 12 else hour;
    var caption := HourLabel(hour);
    assert caption == Text.NatToString(n) + (if hour >= 12 then " PM" else " AM");
    assert caption[..|caption| - 3] == Text.NatToString(n);
    Text.ParseIntOfIntToString(n);
  }

  /** Every row of the grid has its own caption. */
  lemma {:induction false} HourLabelsDistinct(i: int, j: int)
    requires 0 <= i < j < |Hours()|
    ensures HourLabel(Hours()[i]) != HourLabel(Hours()[j])
  {
    HourLabelParts(Hours()[i]);
    HourLabelParts(Hours()[j]);
  }

  /** The local clock readings of a session's start and end. */
  datatype Clock = Clock(hour: int, minute: int)

  function MinuteOfDay(c: Clock): int {
    c.hour * 60 + c.minute
  }

  /** `top` of `getSessionPosition`, in minutes after 6:00. */
  function TopMinutes(start: Clock): (top: int)
    ensures top == MinuteOfDay(start) - MinuteOfDay(Clock(6, 0))
  {
    (start.hour - 6) * 60 + start.minute
  }

  /** `height` of `getSessionPosition`, in minutes: the end's reading minus the start's,
      which is negative for a session that ends on a later day at an earlier time. */
  function DurationMinutes(start: Clock, end: Clock): (d: int)
    ensures d == MinuteOfDay(end) - MinuteOfDay(start)
    ensures TopMinutes(start) + d == TopMinutes(end)
  {
    (end.hour - start.hour) * 60 + (end.minute - start.minute)
  }

  /** The block height in pixels, `max(height * 64 - 4, 40)`, on exact rationals. */
  function HeightPx(duration: int): (px: real)
    ensures px >= 40.0
    ensures px == 40.0 || px == (duration as real) * 64.0 / 60.0 - 4.0
  {
    var raw := (duration as real) / 60.0 * 64.0 - 4.0;
    if raw > 40.0 then raw else 40.0
  }

  /** Short sessions all get the minimum height. */
  lemma ShortSessionsMinimumHeight(duration: int)
    requires duration * 16 <= 660
    ensures HeightPx(duration) == 40.0
  {
  }

  /** `height >= 1`: the time line shows for sessions of an hour or more. */
  predicate ShowsTime(duration: int) {
    (duration as real) / 60.0 >= 1.0
  }

  /** `height >= 1.5`: the location shows for sessions of an hour and a half or more. */
  predicate ShowsLocation(duration: int) {
    (duration as real) / 60.0 >= 1.5
  }

  /** The two thresholds in minutes; a block that shows its location also shows its time. */
  lemma Thresholds(duration: int)
    ensures ShowsTime(duration) <==> duration >= 60
    ensures ShowsLocation(duration) <==> duration >= 90
    ensures ShowsLocation(duration) ==> ShowsTime(duration)
  {
  }

  /** `isFull`: the badge shows once enrolment reaches capacity. */
  predicate IsFull(s: Session) {
    s.enrolledCount >= s.capacity
  }

  /** On a session read from the backend the badge shows when the backend says full,
      and also whenever the capacity is zero or less. */
  lemma MappedFullBadge(b: ScheduleApi.BackendSession)
    ensures IsFull(ScheduleApi.MapBackendSessionToSession(b)) <==> b.isFull || b.capacity <= 0
  {
  }

  /** The seven days of the grid, Monday first, around `today`. */
  function WeekDates(today: int): (dates: seq<int>)
    ensures |dates| == |Days| && Week.DayOfWeek(dates[0]) == 1
    ensures forall i :: 0 <= i < 7 ==> dates[i] == dates[0] + i
    ensures dates[0] <= today <= dates[6]
  {
    Week.WeekOf(today)
  }

  /** The sessions that start on the day with key `day`, in input order. */
  function Bucket(sessions: seq<Session>, dateKey: string -> string, day: string): seq<Session> {
    Seqs.Filter(sessions, StartsOn(dateKey, day))
  }

  function StartsOn(dateKey: string -> string, day: string): Session -> bool {
    (s: Session) => dateKey(s.startTime) == day
  }

  function StartsOnAny(dateKey: string -> string, days: seq<string>): Session -> bool {
    (s: Session) => dateKey(s.startTime) in days
  }

  function BucketSize(sessions: seq<Session>, dateKey: string -> string): string -> int {
    (day: string) => |Bucket(sessions, dateKey, day)|
  }

  /** The start days that occur among the sessions. */
  function DayKeys(sessions: seq<Session>, dateKey: string -> string): set<string>
    decreases |sessions|
  {
    if sessions == [] then {}
    else DayKeys(sessions[..|sessions| - 1], dateKey) + {dateKey(sessions[|sessions| - 1].startTime)}
  }

  lemma {:induction false} DayKeysMembership(sessions: seq<Session>, dateKey: string -> string, day: string)
    ensures day in DayKeys(sessions, dateKey) <==> exists j :: 0 <= j < |sessions| && dateKey(sessions[j].startTime) == day
    decreases |sessions|
  {
    if sessions != [] {
      var init := sessions[..|sessions| - 1];
      DayKeysMembership(init, dateKey, day);
      if exists j :: 0 <= j < |sessions| && dateKey(sessions[j].startTime) == day {
        var j :| 0 <= j < |sessions| && dateKey(sessions[j].startTime) == day;
        if j < |init| {
          assert init[j] == sessions[j];
        }
      }
    }
  }

  /** Adding a session at the end extends its own day's bucket and no other. */
  lemma {:induction false} BucketSnoc(sessions: seq<Session>, s: Session, dateKey: string -> string, day: string)
    ensures Bucket(sessions + [s], dateKey, day)
            == Bucket(sessions, dateKey, day) + (if dateKey(s.startTime) == day then [s] else [])
  {
    Seqs.FilterAppend(sessions, [s], StartsOn(dateKey, day));
    assert [s][1..] == [];
  }

  /** A day on which no session starts has an empty bucket. */
  lemma {:induction false} BucketOfAbsentDay(sessions: seq<Session>, dateKey: string -> string, day: string)
    requires day !in DayKeys(sessions, dateKey)
    ensures Bucket(sessions, dateKey, day) == []
  {
    DayKeysMembership(sessions, dateKey, day);
    Seqs.FilterNone(sessions, StartsOn(dateKey, day));
  }

  /** `grouped` holds, for each start day among `sessions`, that day's non-empty bucket. */
  ghost predicate GroupedBy(grouped: map<string, seq<Session>>, sessions: seq<Session>, dateKey: string -> string) {
    grouped.Keys == DayKeys(sessions, dateKey)
    && forall day :: day in grouped ==> grouped[day] == Bucket(sessions, dateKey, day) && grouped[day] != []
  }

  /** One step of the grouping loop: pushing a session onto its day's list, created
      empty first if needed, keeps the grouping exact for the longer prefix. */
  lemma {:induction false} PushKeepsGrouping(grouped: map<string, seq<Session>>, sessions: seq<Session>, s: Session, dateKey: string -> string)
    requires GroupedBy(grouped, sessions, dateKey)
    ensures var day := dateKey(s.startTime);
            GroupedBy(grouped[day := (if day in grouped then grouped[day] else []) + [s]], sessions + [s], dateKey)
  {
    var day := dateKey(s.startTime);
    var after := grouped[day := (if day in grouped then grouped[day] else []) + [s]];
    assert (sessions + [s])[..|sessions|] == sessions;
    assert after.Keys == DayKeys(sessions + [s], dateKey);
    if day !in grouped {
      BucketOfAbsentDay(sessions, dateKey, day);
    }
    forall d | d in after
      ensures after[d] == Bucket(sessions + [s], dateKey, d) && after[d] != []
    {
      BucketSnoc(sessions, s, dateKey, d);
    }
  }

  /** `sessionsByDay`: one entry per start day that occurs, holding the sessions that
      start that day in their input order. `dateKey` stands for
      `new Date(startTime).toDateString()`. */
  method SessionsByDay(sessions: seq<Session>, dateKey: string -> string) returns (grouped: map<string, seq<Session>>)
    ensures grouped.Keys == DayKeys(sessions, dateKey)
    ensures forall day :: day in grouped ==> grouped[day] == Bucket(sessions, dateKey, day) && grouped[day] != []
  {
    grouped := map[];
    var i := 0;
    while i < |sessions|
      invariant 0 <= i <= |sessions|
      invariant GroupedBy(grouped, sessions[..i], dateKey)
    {
      var s := sessions[i];
      var day := dateKey(s.startTime);
      PushKeepsGrouping(grouped, sessions[..i], s, dateKey);
      assert sessions[..i + 1] == sessions[..i] + [s];
      if day !in grouped {
        grouped := grouped[day := []];
      }
      grouped := grouped[day := grouped[day] + [s]];
      i := i + 1;
    }
    assert sessions[..i] == sessions;
  }

  /** Every session's start day has an entry. */
  lemma SessionDayHasEntry(sessions: seq<Session>, dateKey: string -> string, j: int)
    requires 0 <= j < |sessions|
    ensures dateKey(sessions[j].startTime) in DayKeys(sessions, dateKey)
  {
    DayKeysMembership(sessions, dateKey, dateKey(sessions[j].startTime));
  }

  /** `sessionsByDay[dateKey] || []`: the sessions of one column. */
  function DayColumn(grouped: map<string, seq<Session>>, day: string): (column: seq<Session>)
    ensures day !in grouped ==> column == []
    ensures day in grouped ==> column == grouped[day]
  {
    if day in grouped then grouped[day] else []
  }

  /** A session falls in exactly one column: its bucket is the one of its start day. */
  lemma ColumnOfSession(sessions: seq<Session>, dateKey: string -> string, s: Session, day: string)
    requires s in sessions
    ensures s in Bucket(sessions, dateKey, day) <==> day == dateKey(s.startTime)
  {
    Seqs.FilterMembership(sessions, StartsOn(dateKey, day), s);
  }

  /** Each column keeps the input order of its sessions. */
  lemma BucketKeepsOrder(sessions: seq<Session>, dateKey: string -> string, day: string)
    ensures Seqs.IsSubsequence(Bucket(sessions, dateKey, day), sessions)
  {
    Seqs.FilterIsSubsequence(sessions, StartsOn(dateKey, day));
  }

  /** Over distinct days, the bucket sizes add up to the number of sessions starting on
      one of those days. */
  lemma {:induction false} BucketSizesOverDays(sessions: seq<Session>, dateKey: string -> string, days: seq<string>)
    requires forall i, j :: 0 <= i < j < |days| ==> days[i] != days[j]
    ensures Seqs.Sum(days, BucketSize(sessions, dateKey)) == |Seqs.Filter(sessions, StartsOnAny(dateKey, days))|
    decreases |days|
  {
    if days == [] {
      Seqs.FilterNone(sessions, StartsOnAny(dateKey, days));
    } else {
      var init := days[..|days| - 1];
      var last := days[|days| - 1];
      BucketSizesOverDays(sessions, dateKey, init);
      forall x ensures StartsOnAny(dateKey, days)(x) == (StartsOnAny(dateKey, init)(x) || StartsOn(dateKey, last)(x)) {
        assert days == init + [last];
      }
      forall x ensures !(StartsOnAny(dateKey, init)(x) && StartsOn(dateKey, last)(x)) {
        if StartsOnAny(dateKey, init)(x) {
          var k :| 0 <= k < |init| && init[k] == dateKey(x.startTime);
          assert days[k] != days[|days| - 1];
        }
      }
      Seqs.CountDisjointUnion(sessions, StartsOnAny(dateKey, init), StartsOn(dateKey, last), StartsOnAny(dateKey, days));
    }
  }

  /** When the days cover every session's start day, the buckets together hold every
      session exactly once: their sizes add up to the number of sessions. */
  lemma {:induction false} BucketsPartitionSessions(sessions: seq<Session>, dateKey: string -> string, days: seq<string>)
    requires forall i, j :: 0 <= i < j < |days| ==> days[i] != days[j]
    requires forall i :: 0 <= i < |sessions| ==> dateKey(sessions[i].startTime) in days
    ensures Seqs.Sum(days, BucketSize(sessions, dateKey)) == |sessions|
  {
    BucketSizesOverDays(sessions, dateKey, days);
    Seqs.FilterAll(sessions, StartsOnAny(dateKey, days));
  }
}
