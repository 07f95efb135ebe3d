/** The staff hooks of `src/hooks/use-staff.ts`: the query keys, the client-side
    filtering of the staff list, and what each mutation does to the query cache when it
    succeeds. */
module StaffHooks {
  import opened Wrappers
  import opened Json
  import opened QueryCache
  import Seqs = Lists
  import StaffApi

  /** What the cache holds under a staff key: a list, or one member (absent when the
      fetch found nothing). */
  datatype CachedStaff = StaffList(members: seq<StaffApi.ApiStaffMember>) | StaffDetail(member: Option<StaffApi.ApiStaffMember>)

  /** `staffKeys.all`. */
  function All(): Key {
    [S("staff")]
  }

  /** `staffKeys.lists()`. */
  function Lists(): (key: Key)
    ensures All() < key
  {
    All() + [S("list")]
  }

  /** `staffKeys.list(filters)`. */
  function List(filters: map<string, string>): (key: Key)
    ensures Lists() < key && |key| == 3 && key[2] == Filters(filters)
  {
    Lists() + [Filters(filters)]
  }

  /** `staffKeys.details()`. */
  function Details(): (key: Key)
    ensures All() < key
  {
    All() + [S("detail")]
  }

  /** `staffKeys.detail(id)`. */
  function Detail(id: string): (key: Key)
    ensures Details() < key && |key| == 3 && key[2] == S(id)
  {
    Details() + [S(id)]
  }

  /** No key lies under both the list prefix and the detail prefix, so invalidating the
      lists never touches a cached member and removing a member never touches a list. */
  lemma {:induction false} ListsAndDetailsSeparate(k: Key)
    ensures !(Matches(Lists(), k) && Matches(Details(), k))
    ensures Matches(Details(), k) ==> !Matches(Lists(), k)
  {
    if Matches(Details(), k) {
      FamiliesSeparate(S("staff"), "list", "detail", [], k[2..]);
      assert k == [S("staff"), S("detail")] + k[2..];
    }
  }

  /** The filters object `{ role?, status? }` as it appears in the key: a property that
      is undefined is not part of it. */
  function FiltersObject(role: Option<string>, status: Option<string>): (f: map<string, string>)
    ensures f.Keys <= {"role", "status"}
    ensures ("role" in f <==> role.Some?) && (role.Some? ==> f["role"] == role.value)
    ensures ("status" in f <==> status.Some?) && (status.Some? ==> f["status"] == status.value)
  {
    var withRole: map<string, string> := if role.Some? then map["role" := role.value] else map[];
    if status.Some? then withRole["status" := status.value] else withRole
  }

  /** The key `useStaffMembers(filters)` caches under: `staffKeys.list(filters || {})`. */
  function ListKey(filters: Option<(Option<string>, Option<string>)>): (key: Key)
    ensures Matches(Lists(), key)
    ensures filters.None? ==> key == List(map[])
    ensures filters.Some? ==> key == List(FiltersObject(filters.value.0, filters.value.1))
  {
    if filters.None? then List(map[]) else List(FiltersObject(filters.value.0, filters.value.1))
  }

  /** Whether a member passes the filters: a filter that is empty or absent lets
      everyone through. */
  predicate Passes(role: Option<string>, status: Option<string>, m: StaffApi.ApiStaffMember) {
    (!Filled(role) || m.role == role.value) && (!Filled(status) || m.status == status.value)
  }

  /** The list `useStaffMembers` returns from the fetched staff: the role filter, then
      the status filter, each applied only when it is non-empty. */
  function UseStaffMembers(role: Option<string>, status: Option<string>, data: seq<StaffApi.ApiStaffMember>): seq<StaffApi.ApiStaffMember> {
    Seqs.FilterIf(
      Seqs.FilterIf(data, Filled(role), (m: StaffApi.ApiStaffMember) => m.role == role.GetOr("")),
      Filled(status), (m: StaffApi.ApiStaffMember) => m.status == status.GetOr(""))
  }

  /** The filtered list keeps the fetched order, holds exactly the members that pass
      both filters, and is the whole list when no filter is set. */
  lemma UseStaffMembersSpec(role: Option<string>, status: Option<string>, data: seq<StaffApi.ApiStaffMember>)
    ensures Seqs.IsSubsequence(UseStaffMembers(role, status, data), data)
    ensures forall m :: m in UseStaffMembers(role, status, data) <==> m in data && Passes(role, status, m)
    ensures !Filled(role) && !Filled(status) ==> UseStaffMembers(role, status, data) == data
  {
    var keep := (m: StaffApi.ApiStaffMember) => Passes(role, status, m);
    Seqs.TwoFiltersOne(data, Filled(role), (m: StaffApi.ApiStaffMember) => m.role == role.GetOr(""),
                        Filled(status), (m: StaffApi.ApiStaffMember) => m.status == status.GetOr(""), keep);
    Seqs.FilterSpec(data, keep);
  }

  /** An empty role filter returns the same members as no filter but is cached under a
      different key, so the two are fetched and stored separately. */
  lemma EmptyFilterOtherKey(data: seq<StaffApi.ApiStaffMember>)
    ensures UseStaffMembers(Some(""), None, data) == UseStaffMembers(None, None, data)
    ensures ListKey(Some((Some(""), None))) != ListKey(None)
  {
    var f := FiltersObject(Some(""), None);
    assert "role" in f;
    assert ListKey(Some((Some(""), None)))[2] == Filters(f);
  }

  /** The calls `useCreateStaffMember` makes on success. */
  function CreateEffects(): (ops: seq<CacheOp<CachedStaff>>)
    ensures |ops| == 1 && ops[0].Invalidate?
  {
    [Invalidate(Lists())]
  }

  /** The calls `useUpdateStaffMember` makes on success; nothing when the update found
      no member. */
  function UpdateEffects(updated: Option<StaffApi.ApiStaffMember>): (ops: seq<CacheOp<CachedStaff>>)
    ensures updated.None? <==> ops == []
  {
    if updated.None? then []
    else [Invalidate(Lists()), SetData(Detail(updated.value.id), StaffDetail(updated))]
  }

  /** The calls `useDeleteStaffMember` makes on success, for the id it was given. */
  function DeleteEffects(id: string): (ops: seq<CacheOp<CachedStaff>>)
    ensures |ops| == 2 && ops[0].Invalidate? && ops[1].Remove?
  {
    [Invalidate(Lists()), Remove(Detail(id))]
  }

  /** After a create every cached list is stale and nothing else changes. */
  lemma {:induction false} AfterCreate(cache: map<Key, Entry<CachedStaff>>)
    ensures var c := ApplyAll(cache, CreateEffects());
            c.Keys == cache.Keys
            && (forall k :: k in c && Matches(Lists(), k) ==> c[k] == cache[k].(stale := true))
            && (forall k :: k in c && !Matches(Lists(), k) ==> c[k] == cache[k])
  {
    var ops := CreateEffects();
    assert ops[1..] == [];
    assert ApplyAll(cache, ops) == Apply(cache, ops[0]);
  }

  /** After an update that found the member, every list is stale, the member's detail
      entry holds the returned member and is fresh, and every other entry is unchanged. */
  lemma {:induction false} AfterUpdate(cache: map<Key, Entry<CachedStaff>>, m: StaffApi.ApiStaffMember)
    ensures var c := ApplyAll(cache, UpdateEffects(Some(m)));
            c.Keys == cache.Keys + {Detail(m.id)}
            && c[Detail(m.id)] == Entry(StaffDetail(Some(m)), false)
            && (forall k :: k in cache && Matches(Lists(), k) ==> c[k] == cache[k].(stale := true))
            && (forall k :: k in cache && !Matches(Lists(), k) && k != Detail(m.id) ==> c[k] == cache[k])
  {
    var ops := UpdateEffects(Some(m));
    ApplyTwo(cache, ops[0], ops[1]);
    ListsAndDetailsSeparate(Detail(m.id));
  }

  /** After a delete every list is stale, no entry under the member's detail key is
      left, and every other entry is unchanged. The calls do not depend on whether the
      backend found the member. */
  lemma {:induction false} AfterDelete(cache: map<Key, Entry<CachedStaff>>, id: string)
    ensures var c := ApplyAll(cache, DeleteEffects(id));
            c.Keys == (set k | k in cache && !Matches(Detail(id), k))
            && (forall k :: k in c && Matches(Lists(), k) ==> c[k] == cache[k].(stale := true))
            && (forall k :: k in c && !Matches(Lists(), k) ==> c[k] == cache[k])
  {
    var ops := DeleteEffects(id);
    ApplyTwo(cache, ops[0], ops[1]);
  }

  /** Deleting one member keeps the cached entries of every other member. */
  lemma {:induction false} DeleteSparesOtherMembers(cache: map<Key, Entry<CachedStaff>>, id: string, other: string)
    requires other != id && Detail(other) in cache
    ensures var c := ApplyAll(cache, DeleteEffects(id));
            Detail(other) in c && c[Detail(other)] == cache[Detail(other)]
  {
    AfterDelete(cache, id);
    assert Detail(other)[2] != Detail(id)[2];
    assert !Matches(Detail(id), Detail(other));
    ListsAndDetailsSeparate(Detail(other));
  }
}
