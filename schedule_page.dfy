/** The stat cards of `src/app/dashboard/schedule/page.tsx`: the number of sessions, the
    total capacity and enrolment, and the fill rate rounded to a whole percentage. */
module SchedulePage {
  import opened Wrappers
  import opened Domain
  import Seqs = Lists
  import ApiClient
  import ScheduleApi

  /** `sessions?.length || 0`. */
  function TotalSessions(sessions: Option<seq<Session>>): (n: nat)
    ensures sessions.None? ==> n == 0
    ensures sessions.Some? ==> n == |sessions.value|
  {
    if sessions.Some? then |sessions.value| else 0
  }

  function Capacity(): Session -> int {
    (s: Session) => s.capacity
  }

  function Enrolled(): Session -> int {
    (s: Session) => s.enrolledCount
  }

  /** `sessions?.reduce((acc, s) => acc + s.capacity, 0) || 0`. */
  function TotalCapacity(sessions: Option<seq<Session>>): int {
    if sessions.Some? then Seqs.Sum(sessions.value, Capacity()) else 0
  }

  /** `sessions?.reduce((acc, s) => acc + s.enrolledCount, 0) || 0`. */
  function TotalEnrolled(sessions: Option<seq<Session>>): int {
    if sessions.Some? then Seqs.Sum(sessions.value, Enrolled()) else 0
  }

  /** `Math.round(n / d)` for a positive `d`: the nearest whole number, halves rounded up. */
  function RoundDiv(n: int, d: int): (r: int)
    requires d > 0
    ensures 2 * d * r <= 2 * n + d < 2 * d * (r + 1)
  {
    (2 * n + d) / (2 * d)
  }

  /** The fill-rate card: 0 without capacity, otherwise the enrolment as a rounded
      percentage of the capacity. */
  function FillRate(enrolled: int, capacity: int): (rate: int)
    ensures capacity <= 0 ==> rate == 0
    ensures capacity > 0 ==> 2 * capacity * rate <= 200 * enrolled + capacity < 2 * capacity * (rate + 1)
  {
    if capacity > 0 then RoundDiv(100 * enrolled, capacity) else 0
  }

  /** Dividing out a positive factor keeps a strict order. */
  lemma ScaleKeepsOrder(k: int, x: int, y: int)
    requires k > 0 && k * x < k * y
    ensures x < y
  {
  }

  /** Between empty and full the rate stays within 0..100, and hits both ends. */
  lemma FillRateBounds(enrolled: int, capacity: int)
    requires 0 <= enrolled <= capacity
    ensures 0 <= FillRate(enrolled, capacity) <= 100
    ensures enrolled == 0 ==> FillRate(enrolled, capacity) == 0
    ensures 0 < enrolled == capacity ==> FillRate(enrolled, capacity) == 100
  {
    if capacity > 0 {
      var r := FillRate(enrolled, capacity);
      var k := 2 * capacity;
      var lo := k * r;
      var hi := k * (r + 1);
      assert lo <= 200 * enrolled + capacity < hi;
      assert k * 0 == 0 && k * 1 == 2 * capacity && k * 100 == 200 * capacity && k * 101 == 202 * capacity;
      ScaleKeepsOrder(k, 0, r + 1);
      ScaleKeepsOrder(k, r, 101);
      if enrolled == 0 {
        ScaleKeepsOrder(k, r, 1);
      }
      if enrolled == capacity {
        ScaleKeepsOrder(k, 100, r + 1);
      }
    }
  }

  /** Sums over the same sessions of two attributes that agree on every session agree. */
  lemma {:induction false} SumsAgree(sessions: seq<Session>, f: Session -> int, g: Session -> int)
    requires forall i :: 0 <= i < |sessions| ==> f(sessions[i]) == g(sessions[i])
    ensures Seqs.Sum(sessions, f) == Seqs.Sum(sessions, g)
  {
    Seqs.SumMonotone(sessions, f, g);
    Seqs.SumMonotone(sessions, g, f);
  }

  /** When no session is overbooked and no capacity is negative, the totals satisfy
      `0 <= enrolled <= capacity`, so the fill rate is a percentage. */
  lemma TotalsBounded(sessions: seq<Session>)
    requires forall i :: 0 <= i < |sessions| ==> 0 <= sessions[i].enrolledCount <= sessions[i].capacity
    ensures 0 <= TotalEnrolled(Some(sessions)) <= TotalCapacity(Some(sessions))
    ensures 0 <= FillRate(TotalEnrolled(Some(sessions)), TotalCapacity(Some(sessions))) <= 100
  {
    Seqs.SumNonNegative(sessions, Enrolled());
    Seqs.SumMonotone(sessions, Enrolled(), Capacity());
    FillRateBounds(TotalEnrolled(Some(sessions)), TotalCapacity(Some(sessions)));
  }

  /** For sessions fetched from the backend the rate only says how much capacity sits in
      sessions marked full: 100 when every session is full, 0 when none is. */
  lemma {:induction false} FetchedFillRate(response: ApiClient.ListResponse<ScheduleApi.BackendSession>)
    requires forall b :: b in ApiClient.Results(response) ==> b.capacity >= 0
    ensures var sessions := ScheduleApi.FetchSessions(response);
            0 <= FillRate(TotalEnrolled(Some(sessions)), TotalCapacity(Some(sessions))) <= 100
    ensures var sessions := ScheduleApi.FetchSessions(response);
            (forall b :: b in ApiClient.Results(response) ==> b.isFull) && TotalCapacity(Some(sessions)) > 0
            ==> FillRate(TotalEnrolled(Some(sessions)), TotalCapacity(Some(sessions))) == 100
    ensures var sessions := ScheduleApi.FetchSessions(response);
            (forall b :: b in ApiClient.Results(response) ==> !b.isFull)
            ==> FillRate(TotalEnrolled(Some(sessions)), TotalCapacity(Some(sessions))) == 0
  {
    var items := ApiClient.Results(response);
    var sessions := ScheduleApi.FetchSessions(response);
    forall i | 0 <= i < |sessions| ensures 0 <= sessions[i].enrolledCount <= sessions[i].capacity {
      assert items[i] in items;
      ScheduleApi.MappedEnrolmentBounded(items[i]);
    }
    TotalsBounded(sessions);
    var e := TotalEnrolled(Some(sessions));
    var c := TotalCapacity(Some(sessions));
    if forall b :: b in items ==> b.isFull {
      forall i | 0 <= i < |sessions| ensures Enrolled()(sessions[i]) == Capacity()(sessions[i]) {
        assert items[i] in items;
      }
      SumsAgree(sessions, Enrolled(), Capacity());
      FillRateBounds(e, c);
    }
    if forall b :: b in items ==> !b.isFull {
      forall i | 0 <= i < |sessions| ensures Enrolled()(sessions[i]) == 0 {
        assert items[i] in items;
      }
      SumsAgree(sessions, Enrolled(), (s: Session) => 0);
      ZeroSum(sessions);
      FillRateBounds(e, c);
    }
  }

  /** Adding zeros gives zero. */
  lemma {:induction false} ZeroSum(sessions: seq<Session>)
    ensures Seqs.Sum(sessions, (s: Session) => 0) == 0
    decreases |sessions|
  {
    if sessions != [] {
      ZeroSum(sessions[..|sessions| - 1]);
    }
  }
}
