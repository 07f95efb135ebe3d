/** The pricing fixture table of `src/lib/mock-data/pricing.ts`: fetch returns the
    array, create pushes a plan with a length-derived id and no subscribers. */
module MockPricing {
  import opened Wrappers
  import opened Domain
  import Text

  /** The table after `createPricingPlan(data)` on day `createdAt`, and the new plan. */
  function Created(plans: seq<PricingPlan>, data: PricingPlan, createdAt: string): (r: (seq<PricingPlan>, PricingPlan))
    ensures |r.0| == |plans| + 1 && r.0[..|plans|] == plans && r.0[|plans|] == r.1
    ensures r.1.id == Text.NatToString(|plans| + 1)
    ensures Text.ParseInt(r.1.id) == Text.Int(|plans| + 1)
    ensures r.1.subscriberCount == Some(0) && r.1.createdAt == createdAt
    ensures r.1 == data.(id := r.1.id, createdAt := createdAt, subscriberCount := Some(0))
  {
    Text.ParseIntOfIntToString(|plans| + 1);
    var p := data.(id := Text.NatToString(|plans| + 1), createdAt := createdAt, subscriberCount := Some(0));
    (plans + [p], p)
  }

  class PricingTable {
    var plans: seq<PricingPlan>

    constructor(initial: seq<PricingPlan>)
      ensures plans == initial
    {
      plans := initial;
    }

    /** `fetchPricingPlans`. */
    method FetchAll() returns (r: seq<PricingPlan>)
      ensures r == plans
    {
      r := plans;
    }

    /** `createPricingPlan`. */
    method Create(data: PricingPlan, createdAt: string) returns (p: PricingPlan)
      modifies this
      ensures (plans, p) == Created(old(plans), data, createdAt)
    {
      p := data.(id := Text.NatToString(|plans| + 1), createdAt := createdAt, subscriberCount := Some(0));
      plans := plans + [p];
    }
  }
}
