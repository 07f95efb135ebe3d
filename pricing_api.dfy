/** The pricing service of `src/lib/api/pricing-api.ts`. A backend pricing option knows
    only a credit count and a duration; the frontend plan type and billing cycle are
    derived from them, and neither is ever sent back. */
module PricingApi {
  import opened Wrappers
  import opened Domain
  import Text
  import ApiClient
  import Lists

  const OptionsEndpoint: string := "/scheduling/pricing-options/"
  const DefaultValidityDays: int := 30

  /** A pricing option as the backend returns it; the price is a decimal string. */
  datatype BackendPricingOption = BackendPricingOption(
    id: string,
    name: string,
    price: string,
    sessionCredits: int,
    durationDays: Option<int>,
    fixedStartDate: Option<string>,
    fixedExpiryDate: Option<string>,
    createdAt: string)

  /** What `mapBackendPricingToPlan` returns. It carries `isPopular`, `isActive` and
      `subscribers` where the declared plan type has `status` and `subscriberCount`, and
      it has no `currency`. */
  datatype MappedPlan = MappedPlan(
    id: string,
    name: string,
    description: string,
    planType: PlanType,
    price: Float,
    billingCycle: BillingCycle,
    maxClasses: int,
    validityDays: int,
    features: seq<string>,
    isPopular: bool,
    isActive: bool,
    subscribers: int,
    createdAt: string)

  /** Unlimited (0 or at least 999 credits) means a membership. */
  function PlanTypeOf(credits: int): (t: PlanType)
    ensures t == Membership <==> credits == 0 || credits >= 999
  {
    if credits == 0 || credits >= 999 then Membership else ClassPack
  }

  /** The billing cycle derived from a duration: a zero or missing duration is one-time,
      up to 31 days monthly, up to 93 quarterly, from 360 yearly, and the gap in between
      stays one-time. Negative durations count as monthly. */
  function BillingCycleOf(days: Option<int>): (c: BillingCycle)
    ensures days.None? || days == Some(0) ==> c == OneTime
    ensures days.Some? && days.value != 0 && days.value <= 31 ==> c == Monthly
    ensures days.Some? && 32 <= days.value <= 93 ==> c == Quarterly
    ensures days.Some? && 94 <= days.value <= 359 ==> c == OneTime
    ensures days.Some? && days.value >= 360 ==> c == Yearly
  {
    var cycle := OneTime;
    if days.Some? && days.value != 0 then
      if days.value <= 31 then Monthly
      else if days.value <= 93 then Quarterly
      else if days.value >= 360 then Yearly
      else cycle
    else cycle
  }

  /** No duration ever maps to a one-time plan except 0, a missing one, and 94..359. */
  lemma OneTimeExactly(days: Option<int>)
    ensures BillingCycleOf(days) == OneTime <==> days.None? || days == Some(0) || 94 <= days.value <= 359
  {
  }

  /** `option.duration_days || 30`. */
  function ValidityDays(days: Option<int>): (v: int)
    ensures v != 0
    ensures days.Some? && days.value != 0 ==> v == days.value
    ensures days.None? || days == Some(0) ==> v == DefaultValidityDays
  {
    if days.Some? && days.value != 0 then days.value else DefaultValidityDays
  }

  /** `mapBackendPricingToPlan`. */
  function MapBackendPricingToPlan(o: BackendPricingOption): (p: MappedPlan)
    ensures p.id == o.id && p.name == o.name && p.createdAt == o.createdAt
    ensures p.price == ParseFloat(o.price)
    ensures p.planType == PlanTypeOf(o.sessionCredits) && p.billingCycle == BillingCycleOf(o.durationDays)
    ensures p.maxClasses == o.sessionCredits && p.validityDays == ValidityDays(o.durationDays)
    ensures |p.features| == 2
    ensures p.features[0] == Text.IntToString(o.sessionCredits) + " session credits"
    ensures p.features[1] == "Valid for " + Text.IntToString(ValidityDays(o.durationDays)) + " days"
    ensures p.description == Text.IntToString(o.sessionCredits) + " sessions, valid for "
                             + Text.IntToString(ValidityDays(o.durationDays)) + " days"
    ensures !p.isPopular && p.isActive && p.subscribers == 0
  {
    var validity := Text.IntToString(ValidityDays(o.durationDays));
    var credits := Text.IntToString(o.sessionCredits);
    MappedPlan(o.id, o.name, credits + " sessions, valid for " + validity + " days",
               PlanTypeOf(o.sessionCredits), ParseFloat(o.price), BillingCycleOf(o.durationDays),
               o.sessionCredits, ValidityDays(o.durationDays),
               [credits + " session credits", "Valid for " + validity + " days"],
               false, true, 0, o.createdAt)
  }

  /** A mapped plan read through the declared `PricingPlan` type: its `status`,
      `currency` and `subscriberCount` are undefined. */
  function AsPricingPlan(m: MappedPlan): (p: PricingPlan)
    ensures p.status.None? && p.currency.None? && p.subscriberCount.None?
    ensures p.id == m.id && p.planType == m.planType && p.billingCycle == m.billingCycle && p.features == m.features
    ensures p.maxClasses == Some(m.maxClasses) && p.validityDays == Some(m.validityDays)
  {
    PricingPlan(m.id, m.name, m.description, m.planType, m.price, None, m.billingCycle, m.features,
                None, Some(m.maxClasses), Some(m.validityDays), m.createdAt, None)
  }

  /** `fetchPricingOptionsFromApi`, read as `PricingPlan`s. */
  function FetchPricingOptions(response: ApiClient.ListResponse<BackendPricingOption>): (plans: seq<PricingPlan>)
    ensures |plans| == |ApiClient.Results(response)|
    ensures forall i :: 0 <= i < |plans| ==> plans[i] == AsPricingPlan(MapBackendPricingToPlan(ApiClient.Results(response)[i]))
  {
    Lists.Map(ApiClient.Results(response), (o: BackendPricingOption) => AsPricingPlan(MapBackendPricingToPlan(o)))
  }

  function DetailEndpoint(id: string): string {
    OptionsEndpoint + id + "/"
  }

  /** `fetchPricingOptionFromApi`: null when the GET throws. */
  function FetchPricingOption(response: Option<BackendPricingOption>): (p: Option<PricingPlan>)
    ensures p.Some? <==> response.Some?
    ensures p.Some? ==> p.value == AsPricingPlan(MapBackendPricingToPlan(response.value))
  {
    if response.Some? then Some(AsPricingPlan(MapBackendPricingToPlan(response.value))) else None
  }

  /** `n || d` on a possibly-undefined `parseInt` result: NaN and 0 are falsy. */
  function OrNum(n: Option<Text.Num>, d: int): (r: int)
    ensures n.Some? && n.value.Int? && n.value.value != 0 ==> r == n.value.value
    ensures n.None? || n.value.NaN? || n.value == Text.Int(0) ==> r == d
  {
    if n.Some? && n.value.Int? && n.value.value != 0 then n.value.value else d
  }

  /** The body `createPricingOptionApi` posts: only the name, the price, the credits
      and the duration. Description, type, billing cycle and features are not sent. */
  datatype CreatePricingBody = CreatePricingBody(name: string, price: FixedText, sessionCredits: int, durationDays: int)

  function CreatePayload(data: CreatePlanInput): (body: CreatePricingBody)
    ensures body.name == data.name && body.price == ToFixed2(data.price)
    ensures body.sessionCredits == OrNum(data.maxClasses, 0)
    ensures body.durationDays == OrNum(data.validityDays, DefaultValidityDays)
    ensures body.durationDays != 0
  {
    CreatePricingBody(data.name, ToFixed2(data.price), OrNum(data.maxClasses, 0), OrNum(data.validityDays, DefaultValidityDays))
  }

  /** A backend that stores the posted body, with `priceText` the decimal text it keeps. */
  function Stored(id: string, body: CreatePricingBody, priceText: string, createdAt: string): BackendPricingOption {
    BackendPricingOption(id, body.name, priceText, body.sessionCredits, Some(body.durationDays), None, None, createdAt)
  }

  /** The plan type and billing cycle a created plan reads back with do not depend on the
      ones the form chose: they follow from the class count and the validity alone. */
  lemma {:induction false} CreatedPlanReadsBack(data: CreatePlanInput, id: string, priceText: string, createdAt: string)
    ensures var p := MapBackendPricingToPlan(Stored(id, CreatePayload(data), priceText, createdAt));
            p.planType == PlanTypeOf(OrNum(data.maxClasses, 0))
            && p.billingCycle == BillingCycleOf(Some(OrNum(data.validityDays, DefaultValidityDays)))
            && p.validityDays == OrNum(data.validityDays, DefaultValidityDays)
  {
    var body := CreatePayload(data);
    assert ValidityDays(Some(body.durationDays)) == body.durationDays;
  }

  /** A yearly membership created without a validity reads back as monthly, and a class
      pack created without a class count reads back as a membership. */
  lemma DefaultsChangeTheKind(data: CreatePlanInput, id: string, priceText: string, createdAt: string)
    requires data.validityDays.None? && data.maxClasses.None?
    ensures var p := MapBackendPricingToPlan(Stored(id, CreatePayload(data), priceText, createdAt));
            p.billingCycle == Monthly && p.planType == Membership
  {
    CreatedPlanReadsBack(data, id, priceText, createdAt);
  }

  /** The optional fields an update takes (`Partial<CreatePlanInput>`). */
  datatype UpdatePlanInput = UpdatePlanInput(
    name: Option<string>,
    description: Option<string>,
    planType: Option<PlanType>,
    price: Option<Float>,
    billingCycle: Option<BillingCycle>,
    features: Option<seq<string>>,
    maxClasses: Option<Text.Num>,
    validityDays: Option<Text.Num>)

  /** The body `updatePricingOptionApi` patches; an absent field is an absent key. A NaN
      count is sent as it is (and serialises as null). */
  datatype UpdatePricingBody = UpdatePricingBody(
    name: Option<string>,
    price: Option<FixedText>,
    sessionCredits: Option<Text.Num>,
    durationDays: Option<Text.Num>)

  function UpdatePayload(data: UpdatePlanInput): (body: UpdatePricingBody)
    ensures body.name == data.name && body.sessionCredits == data.maxClasses && body.durationDays == data.validityDays
    ensures body.price.Some? <==> data.price.Some?
    ensures data.price.Some? ==> body.price == Some(ToFixed2(data.price.value))
  {
    UpdatePricingBody(data.name, if data.price.Some? then Some(ToFixed2(data.price.value)) else None,
                      data.maxClasses, data.validityDays)
  }

  /** An update that changes only the description, type, billing cycle or features sends
      an empty patch. */
  lemma PresentationOnlyUpdateIsEmpty(data: UpdatePlanInput)
    requires data.name.None? && data.price.None? && data.maxClasses.None? && data.validityDays.None?
    ensures UpdatePayload(data) == UpdatePricingBody(None, None, None, None)
  {
  }

  function FetchOneRequest(id: string): ApiClient.Request {
    ApiClient.Request(ApiClient.Get, DetailEndpoint(id), None)
  }

  /** `archivePricingOptionApi`: the request it makes and the plan it returns. */
  function ArchiveRequest(id: string): (r: ApiClient.Request)
    ensures r.verb == ApiClient.Get && r.body.None?
  {
    ApiClient.Request(ApiClient.Get, DetailEndpoint(id), None)
  }

  /** Archiving is a read: it issues the same GET as fetching the plan and returns the
      same record, still active. */
  lemma ArchiveIsFetch(id: string, response: BackendPricingOption)
    ensures ArchiveRequest(id) == FetchOneRequest(id)
    ensures FetchPricingOption(Some(response)) == Some(AsPricingPlan(MapBackendPricingToPlan(response)))
    ensures MapBackendPricingToPlan(response).isActive
  {
  }

  function DeleteRequest(id: string): ApiClient.Request {
    ApiClient.Request(ApiClient.Delete, DetailEndpoint(id), None)
  }
}
