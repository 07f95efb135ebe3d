/** Calendar days as whole numbers: day 0 is 1 January 1970 (a Thursday) in local time.
    Both `src/lib/mock-data/schedule.ts` and `src/components/schedule/weekly-calendar.tsx`
    compute the Monday-to-Sunday week around today with the same offset rule. */
module Week {

  /** `date.getDay()`: 0 for Sunday through 6 for Saturday. */
  function DayOfWeek(day: int): (dow: int)
    ensures 0 <= dow < 7
  {
    (day + 4) % 7
  }

  /** `dayOfWeek === 0 ? 6 : dayOfWeek - 1`: how many days back the Monday is. */
  function MondayOffset(dow: int): (offset: int)
    requires 0 <= dow < 7
    ensures 0 <= offset <= 6
    ensures (dow - offset) % 7 == 1
  {
    if dow == 0 then 6 else dow - 1
  }

  /** Going back by the offset always lands on a Monday of the same week. */
  lemma {:induction false} OffsetLandsOnMonday(today: int)
    ensures DayOfWeek(today - MondayOffset(DayOfWeek(today))) == 1
  {
    var w := DayOfWeek(today);
    var q := (today + 4) / 7;
    assert today + 4 == 7 * q + w;
    var monday := today - MondayOffset(w);
    if w == 0 {
      assert monday + 4 == 7 * (q - 1) + 1;
    } else {
      assert monday + 4 == 7 * q + 1;
    }
  }

  /** The seven days, Monday first, of the week that contains `today`. */
  function WeekOf(today: int): (days: seq<int>)
    ensures |days| == 7
    ensures forall i :: 0 <= i < 7 ==> days[i] == days[0] + i
    ensures DayOfWeek(days[0]) == 1
    ensures days[0] <= today <= days[6]
  {
    OffsetLandsOnMonday(today);
    var monday := today - MondayOffset(DayOfWeek(today));
    seq(7, i requires 0 <= i < 7 => monday + i)
  }

  /** The column labels `Mon`..`Sun` match the days of `WeekOf`. */
  lemma {:induction false} ColumnsMatchWeekdays(today: int, i: int)
    requires 0 <= i < 7
    ensures DayOfWeek(WeekOf(today)[i]) == (i + 1) % 7
  {
    var days := WeekOf(today);
    var q := (days[0] + 4) / 7;
    assert days[0] + 4 == 7 * q + 1;
    assert days[i] + 4 == 7 * q + 1 + i;
    if i == 6 {
      assert days[i] + 4 == 7 * (q + 1);
    }
  }
}
