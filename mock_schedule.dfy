/** The schedule fixtures of `src/lib/mock-data/schedule.ts`: the current week's dates,
    a fetch that ignores the requested week, and create. */
module MockSchedule {
  import opened Wrappers
  import opened Domain
  import Text
  import Week

  /** `getCurrentWeekDates`, with today given as a day number. */
  method GetCurrentWeekDates(today: int) returns (dates: seq<int>)
    ensures dates == Week.WeekOf(today)
  {
    var dayOfWeek := Week.DayOfWeek(today);
    var monday := today - Week.MondayOffset(dayOfWeek);
    dates := [];
    for i := 0 to 7
      invariant |dates| == i
      invariant forall j :: 0 <= j < i ==> dates[j] == monday + j
    {
      dates := dates + [monday + i];
    }
  }

  /** The table after `createSession(draft)`, and the new session. */
  function Created(sessions: seq<Session>, draft: SessionDraft): (r: (seq<Session>, Session))
    ensures |r.0| == |sessions| + 1 && r.0[..|sessions|] == sessions && r.0[|sessions|] == r.1
    ensures r.1.id == Text.NatToString(|sessions| + 1)
    ensures Text.ParseInt(r.1.id) == Text.Int(|sessions| + 1)
    ensures r.1.title == draft.title && r.1.sessionType == draft.sessionType && r.1.trainerId == draft.trainerId
    ensures r.1.trainerName == draft.trainerName && r.1.startTime == draft.startTime && r.1.endTime == draft.endTime
    ensures r.1.capacity == draft.capacity && r.1.enrolledCount == draft.enrolledCount
    ensures r.1.location == draft.location && r.1.status == draft.status && r.1.color == draft.color
  {
    Text.ParseIntOfIntToString(|sessions| + 1);
    var s := draft.WithId(Text.NatToString(|sessions| + 1));
    (sessions + [s], s)
  }

  class SessionTable {
    var sessions: seq<Session>

    constructor(initial: seq<Session>)
      ensures sessions == initial
    {
      sessions := initial;
    }

    /** `fetchSessions(weekStart)`: every session, whatever week is asked for. */
    method FetchSessions(weekStart: Option<int>) returns (r: seq<Session>)
      ensures r == sessions
    {
      r := sessions;
    }

    /** `createSession`. */
    method Create(draft: SessionDraft) returns (s: Session)
      modifies this
      ensures (sessions, s) == Created(old(sessions), draft)
    {
      s := draft.WithId(Text.NatToString(|sessions| + 1));
      sessions := sessions + [s];
    }
  }
}
