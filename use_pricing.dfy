/** The pricing hooks of `src/hooks/use-pricing.ts`: the query keys, the client-side
    filtering of the plan list, and what each mutation does to the query cache when it
    succeeds. */
module PricingHooks {
  import opened Wrappers
  import opened Json
  import opened Domain
  import opened QueryCache
  import Seqs = Lists
  import ApiClient
  import PricingApi

  /** What the cache holds under a pricing key. */
  datatype CachedPricing = PlanList(plans: seq<PricingPlan>) | PlanDetail(plan: PricingPlan)

  /** `pricingKeys.all`. */
  function All(): Key {
    [S("pricing")]
  }

  /** `pricingKeys.lists()`. */
  function Lists(): (key: Key)
    ensures All() < key
  {
    All() + [S("list")]
  }

  /** `pricingKeys.list(filters)`. */
  function List(filters: map<string, string>): (key: Key)
    ensures Lists() < key && |key| == 3 && key[2] == Filters(filters)
  {
    Lists() + [Filters(filters)]
  }

  /** `pricingKeys.details()`. */
  function Details(): (key: Key)
    ensures All() < key
  {
    All() + [S("detail")]
  }

  /** `pricingKeys.detail(id)`. */
  function Detail(id: string): (key: Key)
    ensures Details() < key && |key| == 3 && key[2] == S(id)
  {
    Details() + [S(id)]
  }

  /** A detail key never lies under the list prefix. */
  lemma {:induction false} DetailsOutsideLists(k: Key)
    ensures Matches(Details(), k) ==> !Matches(Lists(), k)
  {
    if Matches(Details(), k) {
      FamiliesSeparate(S("pricing"), "list", "detail", [], k[2..]);
      assert k == [S("pricing"), S("detail")] + k[2..];
    }
  }

  /** Whether a plan passes the filters `{ type?, status? }`: a filter that is empty or
      absent lets every plan through, and a plan without a status never passes a
      status filter. */
  predicate Passes(planType: Option<string>, status: Option<string>, p: PricingPlan) {
    (!Filled(planType) || p.planType.Name() == planType.value)
    && (!Filled(status) || (p.status.Some? && p.status.value.Name() == status.value))
  }

  /** The list `usePricingPlans` returns from the fetched plans. */
  function UsePricingPlans(planType: Option<string>, status: Option<string>, data: seq<PricingPlan>): seq<PricingPlan> {
    Seqs.FilterIf(
      Seqs.FilterIf(data, Filled(planType), (p: PricingPlan) => p.planType.Name() == planType.GetOr("")),
      Filled(status), (p: PricingPlan) => p.status.Some? && p.status.value.Name() == status.GetOr(""))
  }

  /** The filtered list keeps the fetched order, holds exactly the plans that pass both
      filters, and is the whole list when no filter is set. */
  lemma UsePricingPlansSpec(planType: Option<string>, status: Option<string>, data: seq<PricingPlan>)
    ensures Seqs.IsSubsequence(UsePricingPlans(planType, status, data), data)
    ensures forall p :: p in UsePricingPlans(planType, status, data) <==> p in data && Passes(planType, status, p)
    ensures !Filled(planType) && !Filled(status) ==> UsePricingPlans(planType, status, data) == data
  {
    var keep := (p: PricingPlan) => Passes(planType, status, p);
    Seqs.TwoFiltersOne(data, Filled(planType), (p: PricingPlan) => p.planType.Name() == planType.GetOr(""),
                       Filled(status), (p: PricingPlan) => p.status.Some? && p.status.value.Name() == status.GetOr(""), keep);
    Seqs.FilterSpec(data, keep);
  }

  /** The fetched plans have no status, so any status filter empties the list. */
  lemma {:induction false} StatusFilterEmptiesApiList(response: ApiClient.ListResponse<PricingApi.BackendPricingOption>, status: string)
    requires status != ""
    ensures UsePricingPlans(None, Some(status), PricingApi.FetchPricingOptions(response)) == []
  {
    var data := PricingApi.FetchPricingOptions(response);
    Seqs.FilterNone(data, (p: PricingPlan) => p.status.Some? && p.status.value.Name() == Some(status).GetOr(""));
  }

  /** A type filter on the fetched plans keeps exactly the options whose credit count
      gives that type: "membership" keeps the unlimited ones (0 or at least 999). */
  lemma {:induction false} MembershipFilterOnApiList(response: ApiClient.ListResponse<PricingApi.BackendPricingOption>, i: int)
    requires 0 <= i < |ApiClient.Results(response)|
    ensures var o := ApiClient.Results(response)[i];
            var p := PricingApi.AsPricingPlan(PricingApi.MapBackendPricingToPlan(o));
            p in UsePricingPlans(Some("membership"), None, PricingApi.FetchPricingOptions(response))
            <==> o.sessionCredits == 0 || o.sessionCredits >= 999
  {
    var data := PricingApi.FetchPricingOptions(response);
    var o := ApiClient.Results(response)[i];
    UsePricingPlansSpec(Some("membership"), None, data);
    assert data[i] in data;
    assert ClassPack.Name() != "membership";
  }

  /** The calls `useCreatePricingPlan` makes on success. */
  function CreateEffects(): (ops: seq<CacheOp<CachedPricing>>)
    ensures |ops| == 1 && ops[0].Invalidate?
  {
    [Invalidate(Lists())]
  }

  /** The calls `useUpdatePricingPlan` makes on success, with the plan it returned. */
  function UpdateEffects(updated: PricingPlan): (ops: seq<CacheOp<CachedPricing>>)
    ensures |ops| == 2 && ops[0].Invalidate? && ops[1].SetData?
  {
    [Invalidate(Lists()), SetData(Detail(updated.id), PlanDetail(updated))]
  }

  /** The calls `useDeletePricingPlan` and `useArchivePricingPlan` make on success. */
  function DeleteEffects(): (ops: seq<CacheOp<CachedPricing>>)
    ensures |ops| == 1 && ops[0].Invalidate?
  {
    [Invalidate(Lists())]
  }

  /** Create, delete and archive only mark the lists stale: every entry stays, and a
      deleted plan's detail entry is neither removed nor refreshed. */
  lemma {:induction false} AfterCreateDeleteOrArchive(cache: map<Key, Entry<CachedPricing>>, id: string)
    ensures ApplyAll(cache, DeleteEffects()) == ApplyAll(cache, CreateEffects())
    ensures var c := ApplyAll(cache, DeleteEffects());
            c.Keys == cache.Keys
            && (forall k :: k in c && Matches(Lists(), k) ==> c[k] == cache[k].(stale := true))
            && (forall k :: k in c && !Matches(Lists(), k) ==> c[k] == cache[k])
            && (Detail(id) in cache ==> c[Detail(id)] == cache[Detail(id)])
  {
    var ops := DeleteEffects();
    assert ops[1..] == [];
    assert ApplyAll(cache, ops) == Apply(cache, ops[0]);
    DetailsOutsideLists(Detail(id));
  }

  /** After an update the lists are stale and the plan's detail entry holds the
      returned plan. */
  lemma {:induction false} AfterUpdate(cache: map<Key, Entry<CachedPricing>>, p: PricingPlan)
    ensures var c := ApplyAll(cache, UpdateEffects(p));
            c.Keys == cache.Keys + {Detail(p.id)}
            && c[Detail(p.id)] == Entry(PlanDetail(p), false)
            && (forall k :: k in cache && Matches(Lists(), k) ==> c[k] == cache[k].(stale := true))
            && (forall k :: k in cache && !Matches(Lists(), k) && k != Detail(p.id) ==> c[k] == cache[k])
  {
    var ops := UpdateEffects(p);
    ApplyTwo(cache, ops[0], ops[1]);
    DetailsOutsideLists(Detail(p.id));
  }
}
