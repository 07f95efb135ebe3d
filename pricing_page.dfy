/** The pricing page of `src/app/dashboard/pricing/page.tsx`: which plans each tab shows,
    and the active-plan and subscriber counts. */
module PricingPage {
  import opened Wrappers
  import opened Domain
  import Seqs = Lists
  import ApiClient
  import PricingApi

  /** The four tabs the page offers. */
  const Tabs: seq<string> := ["all", "membership", "class-pack", "archived"]

  predicate IsActive(p: PricingPlan) {
    p.status == Some(Active)
  }

  /** The tab rule of `filteredPlans`; a tab value the page does not offer keeps every
      plan. */
  predicate InTab(tab: string, p: PricingPlan) {
    if tab == "all" then IsActive(p)
    else if tab == "membership" then p.planType.Name() == "membership" && IsActive(p)
    else if tab == "class-pack" then p.planType.Name() == "class-pack" && IsActive(p)
    else if tab == "archived" then p.status == Some(Archived)
    else true
  }

  function TabFilter(tab: string): PricingPlan -> bool {
    (p: PricingPlan) => InTab(tab, p)
  }

  /** `filteredPlans`. */
  function FilteredPlans(plans: seq<PricingPlan>, tab: string): (shown: seq<PricingPlan>)
    ensures Seqs.IsSubsequence(shown, plans)
    ensures forall p :: p in shown <==> p in plans && InTab(tab, p)
  {
    Seqs.FilterSpec(plans, TabFilter(tab));
    Seqs.Filter(plans, TabFilter(tab))
  }

  /** What each tab shows, in terms of the plan's own fields. */
  lemma TabMeaning(p: PricingPlan)
    ensures InTab("all", p) <==> p.status == Some(Active)
    ensures InTab("membership", p) <==> p.planType == Membership && p.status == Some(Active)
    ensures InTab("class-pack", p) <==> p.planType == ClassPack && p.status == Some(Active)
    ensures InTab("archived", p) <==> p.status == Some(Archived)
    ensures p.status == Some(Draft) || p.status.None? ==> forall t :: t in Tabs ==> !InTab(t, p)
  {
  }

  /** No plan is on both the active and the archived tab, nor on both type tabs, and the
      two type tabs together hold exactly the active plans. */
  lemma TabsSeparate(p: PricingPlan)
    ensures !(InTab("all", p) && InTab("archived", p))
    ensures !(InTab("membership", p) && InTab("class-pack", p))
    ensures InTab("all", p) <==> InTab("membership", p) || InTab("class-pack", p)
  {
  }

  /** The type tabs split the active tab: their sizes add up to its size. */
  lemma {:induction false} TypeTabsAddUp(plans: seq<PricingPlan>)
    ensures |FilteredPlans(plans, "membership")| + |FilteredPlans(plans, "class-pack")| == |FilteredPlans(plans, "all")|
  {
    forall p ensures TabFilter("all")(p) == (TabFilter("membership")(p) || TabFilter("class-pack")(p)) {
      TabsSeparate(p);
    }
    Seqs.CountDisjointUnion(plans, TabFilter("membership"), TabFilter("class-pack"), TabFilter("all"));
  }

  /** `activePlansCount`: the number of plans on the active tab. */
  function ActivePlansCount(plans: Option<seq<PricingPlan>>): (n: nat)
    ensures plans.Some? ==> n == |FilteredPlans(plans.value, "all")|
    ensures plans.None? ==> n == 0
  {
    if plans.Some? then
      var active := (p: PricingPlan) => IsActive(p);
      Seqs.FilterExt(plans.value, active, TabFilter("all"));
      Seqs.Count(plans.value, active)
    else 0
  }

  /** `p.subscriberCount ?? 0`. */
  function Subscribers(): PricingPlan -> int {
    (p: PricingPlan) => p.subscriberCount.GetOr(0)
  }

  /** `totalSubscribers`. */
  function TotalSubscribers(plans: Option<seq<PricingPlan>>): int {
    if plans.Some? then Seqs.Sum(plans.value, Subscribers()) else 0
  }

  /** The total is never negative when no plan reports a negative count. */
  lemma TotalSubscribersNonNegative(plans: seq<PricingPlan>)
    requires forall i :: 0 <= i < |plans| ==> plans[i].subscriberCount.GetOr(0) >= 0
    ensures TotalSubscribers(Some(plans)) >= 0
  {
    Seqs.SumNonNegative(plans, Subscribers());
  }

  /** Plans with no subscriber count add nothing. */
  lemma {:induction false} MissingCountsAddNothing(plans: seq<PricingPlan>)
    requires forall i :: 0 <= i < |plans| ==> plans[i].subscriberCount.None?
    ensures Seqs.Sum(plans, Subscribers()) == 0
    decreases |plans|
  {
    if plans != [] {
      MissingCountsAddNothing(plans[..|plans| - 1]);
    }
  }

  /** Plans fetched from the backend carry no status and no subscriber count: every tab
      the page offers is empty, there are no active plans and no subscribers. */
  lemma {:induction false} FetchedPlansShowNowhere(response: ApiClient.ListResponse<PricingApi.BackendPricingOption>, tab: string)
    requires tab in Tabs
    ensures var plans := PricingApi.FetchPricingOptions(response);
            FilteredPlans(plans, tab) == [] && ActivePlansCount(Some(plans)) == 0 && TotalSubscribers(Some(plans)) == 0
  {
    var plans := PricingApi.FetchPricingOptions(response);
    Seqs.FilterNone(plans, TabFilter(tab));
    MissingCountsAddNothing(plans);
  }
}
