/** The schedule hooks of `src/hooks/use-schedule.ts`: sessions are cached per week, and
    every mutation marks all weeks stale. */
module ScheduleHooks {
  import opened Wrappers
  import opened Json
  import opened Domain
  import opened QueryCache

  /** What the cache holds under a schedule key. */
  datatype CachedSchedule = WeekSessions(sessions: seq<Session>) | SessionDetail(session: Session)

  /** `scheduleKeys.all`. */
  function All(): Key {
    [S("schedule")]
  }

  /** `scheduleKeys.weeks()`. */
  function Weeks(): (key: Key)
    ensures All() < key
  {
    All() + [S("week")]
  }

  /** `scheduleKeys.week(date)`. */
  function Week(date: string): (key: Key)
    ensures Weeks() < key && |key| == 3 && key[2] == S(date)
  {
    Weeks() + [S(date)]
  }

  /** `scheduleKeys.details()`. */
  function Details(): (key: Key)
    ensures All() < key
  {
    All() + [S("detail")]
  }

  /** `scheduleKeys.detail(id)`. */
  function Detail(id: string): (key: Key)
    ensures Details() < key && |key| == 3 && key[2] == S(id)
  {
    Details() + [S(id)]
  }

  /** A detail key never lies under the week prefix. */
  lemma {:induction false} DetailsOutsideWeeks(k: Key)
    ensures Matches(Details(), k) ==> !Matches(Weeks(), k)
  {
    if Matches(Details(), k) {
      FamiliesSeparate(S("schedule"), "week", "detail", [], k[2..]);
      assert k == [S("schedule"), S("detail")] + k[2..];
    }
  }

  /** The key `useSessions(weekStart)` caches under, given the ISO text of the week
      start when one is passed: `weekStart?.toISOString() || 'current'`. */
  function SessionsKey(weekStartIso: Option<string>): (key: Key)
    ensures Matches(Weeks(), key)
    ensures Filled(weekStartIso) ==> key == Week(weekStartIso.value)
    ensures !Filled(weekStartIso) ==> key == Week("current")
  {
    Week(OrStr(weekStartIso, "current"))
  }

  /** The calls `useCreateSession` and `useDeleteSession` make on success. */
  function CreateEffects(): (ops: seq<CacheOp<CachedSchedule>>)
    ensures |ops| == 1 && ops[0].Invalidate?
  {
    [Invalidate(Weeks())]
  }

  /** The calls `useUpdateSession` makes on success, with the session it returned. */
  function UpdateEffects(updated: Session): (ops: seq<CacheOp<CachedSchedule>>)
    ensures |ops| == 2 && ops[0].Invalidate? && ops[1].SetData?
  {
    [Invalidate(Weeks()), SetData(Detail(updated.id), SessionDetail(updated))]
  }

  /** After a create or delete every cached week is stale, whichever week the session
      falls in and whether it was cached as a date or as the current week, and nothing
      else changes. */
  lemma {:induction false} AfterCreateOrDelete(cache: map<Key, Entry<CachedSchedule>>, weekStartIso: Option<string>)
    ensures var c := ApplyAll(cache, CreateEffects());
            c.Keys == cache.Keys
            && (SessionsKey(weekStartIso) in cache ==> c[SessionsKey(weekStartIso)].stale)
            && (forall k :: k in c && Matches(Weeks(), k) ==> c[k] == cache[k].(stale := true))
            && (forall k :: k in c && !Matches(Weeks(), k) ==> c[k] == cache[k])
  {
    var ops := CreateEffects();
    assert ops[1..] == [];
    assert ApplyAll(cache, ops) == Apply(cache, ops[0]);
  }

  /** After an update every week is stale and the session's detail entry holds the
      returned session. */
  lemma {:induction false} AfterUpdate(cache: map<Key, Entry<CachedSchedule>>, s: Session)
    ensures var c := ApplyAll(cache, UpdateEffects(s));
            c.Keys == cache.Keys + {Detail(s.id)}
            && c[Detail(s.id)] == Entry(SessionDetail(s), false)
            && (forall k :: k in cache && Matches(Weeks(), k) ==> c[k] == cache[k].(stale := true))
            && (forall k :: k in cache && !Matches(Weeks(), k) && k != Detail(s.id) ==> c[k] == cache[k])
  {
    var ops := UpdateEffects(s);
    ApplyTwo(cache, ops[0], ops[1]);
    DetailsOutsideWeeks(Detail(s.id));
  }
}
