/** The create-plan form of `src/components/pricing/create-pricing-modal.tsx`: its
    validation schema, how the features text becomes a list, and the plan input it
    submits. */
module CreatePricingModal {
  import opened Wrappers
  import opened Json
  import opened Domain
  import Text
  import Seqs = Lists
  import PricingApi

  const DefaultFeature: string := "Full gym access"

  /** The form values. The type and billing cycle come from selects that offer only the
      enum's values. `maxClasses` is optional in the schema. */
  datatype PricingForm = PricingForm(
    name: string,
    description: string,
    planType: PlanType,
    price: string,
    billingCycle: BillingCycle,
    maxClasses: Option<string>,
    validityDays: string,
    features: string)

  /** The schema's checks on the form; `priceAccepted` stands for the price refinement
      (`parseFloat(price) > 0`), which is on floating-point values. */
  predicate SchemaAccepts(form: PricingForm, priceAccepted: bool) {
    |form.name| >= 2 && |form.description| >= 1 && priceAccepted && ValidityAccepted(form.validityDays)
  }

  /** `!isNaN(parseInt(val)) && parseInt(val) >= 1`. */
  predicate ValidityAccepted(text: string) {
    var n := Text.ParseInt(text);
    n.Int? && n.value >= 1
  }

  function TrimAll(pieces: seq<string>): (r: seq<string>)
    ensures |r| == |pieces|
    ensures forall i :: 0 <= i < |r| ==> r[i] == Text.Trim(pieces[i])
  {
    Seqs.Map(pieces, Text.Trim)
  }

  function NonEmpty(): string -> bool {
    (f: string) => |f| > 0
  }

  /** `features.split('\n').map(trim).filter(f => f.length > 0)`. */
  function ParseFeatures(text: string): seq<string> {
    Seqs.Filter(TrimAll(Text.Split(text, '\n')), NonEmpty())
  }

  /** The parsed features are the non-empty trimmed lines, in order, and none of them
      is empty, has surrounding whitespace or spans two lines. */
  lemma ParseFeaturesSpec(text: string)
    ensures Seqs.IsSubsequence(ParseFeatures(text), TrimAll(Text.Split(text, '\n')))
    ensures forall f :: f in ParseFeatures(text) <==> f in TrimAll(Text.Split(text, '\n')) && f != ""
    ensures forall f :: f in ParseFeatures(text) ==> Text.IsTrimmed(f) && '\n' !in f
  {
    var pieces := Text.Split(text, '\n');
    var trimmed := TrimAll(pieces);
    Seqs.FilterSpec(trimmed, NonEmpty());
    forall f | f in ParseFeatures(text) ensures Text.IsTrimmed(f) && '\n' !in f {
      var i :| 0 <= i < |trimmed| && trimmed[i] == f;
      TrimmedPieceSingleLine(pieces[i]);
    }
  }

  /** Trimming a line leaves no newline in it. */
  lemma TrimmedPieceSingleLine(piece: string)
    requires '\n' !in piece
    ensures Text.IsTrimmed(Text.Trim(piece)) && '\n' !in Text.Trim(piece)
  {
    Text.TrimIdempotent(piece);
    var r := Text.Trim(piece);
    var lead := Text.LeadingSpaces(piece);
    var t := piece[lead..];
    assert forall c :: c in r ==> c in t;
    assert forall c :: c in t ==> c in piece;
  }

  /** A list of features written one per line reads back as the same list. */
  lemma {:induction false} FeaturesRoundTrip(features: seq<string>)
    requires |features| >= 1
    requires forall i :: 0 <= i < |features| ==> features[i] != "" && Text.IsTrimmed(features[i]) && '\n' !in features[i]
    ensures ParseFeatures(Text.Join(features, '\n')) == features
  {
    Text.SplitJoin(features, '\n');
    forall i | 0 <= i < |features| ensures Text.Trim(features[i]) == features[i] {
      Text.TrimAround([], features[i], []);
      assert [] + features[i] + [] == features[i];
    }
    assert TrimAll(features) == features;
    Seqs.FilterAll(features, NonEmpty());
  }

  /** The features submitted: the parsed list, or the default when nothing survives. */
  function SubmittedFeatures(text: string): (features: seq<string>)
    ensures |features| >= 1
    ensures ParseFeatures(text) == [] ==> features == [DefaultFeature]
    ensures ParseFeatures(text) != [] ==> features == ParseFeatures(text)
  {
    var parsed := ParseFeatures(text);
    if |parsed| > 0 then parsed else [DefaultFeature]
  }

  /** `maxClasses`: parsed only for a class pack with a non-empty field. */
  function SubmittedMaxClasses(form: PricingForm): (n: Option<Text.Num>)
    ensures n.Some? <==> form.planType == ClassPack && Filled(form.maxClasses)
    ensures n.Some? ==> n.value == Text.ParseInt(form.maxClasses.value)
  {
    if form.planType == ClassPack && Filled(form.maxClasses) then Some(Text.ParseInt(form.maxClasses.value)) else None
  }

  /** The plan input `onSubmit` passes to the create mutation. */
  function Submitted(form: PricingForm): (input: CreatePlanInput)
    ensures input.name == form.name && input.description == form.description
    ensures input.planType == form.planType && input.billingCycle == form.billingCycle
    ensures input.price == ParseFloat(form.price)
    ensures input.features == SubmittedFeatures(form.features)
    ensures input.maxClasses == SubmittedMaxClasses(form)
    ensures input.validityDays == Some(Text.ParseInt(form.validityDays))
  {
    CreatePlanInput(form.name, form.description, form.planType, ParseFloat(form.price), form.billingCycle,
                    SubmittedFeatures(form.features), SubmittedMaxClasses(form), Some(Text.ParseInt(form.validityDays)))
  }

  /** A form the schema accepts sends the validity it shows: the payload's duration is
      the parsed number of days, never the 30-day default. */
  lemma AcceptedValiditySent(form: PricingForm, priceAccepted: bool)
    requires SchemaAccepts(form, priceAccepted)
    ensures PricingApi.CreatePayload(Submitted(form)).durationDays == Text.ParseInt(form.validityDays).value
  {
  }

  /** A membership never sends a class count, so it is stored with zero credits and reads
      back as a membership. */
  lemma {:induction false} MembershipReadsBack(form: PricingForm, id: string, priceText: string, createdAt: string)
    requires form.planType == Membership
    ensures var body := PricingApi.CreatePayload(Submitted(form));
            body.sessionCredits == 0
            && PricingApi.MapBackendPricingToPlan(PricingApi.Stored(id, body, priceText, createdAt)).planType == Membership
  {
    PricingApi.CreatedPlanReadsBack(Submitted(form), id, priceText, createdAt);
  }

  /** A class pack whose class count is left empty or does not parse is stored with zero
      credits and reads back as a membership. */
  lemma {:induction false} UnparsedClassPackReadsBackAsMembership(form: PricingForm, id: string, priceText: string, createdAt: string)
    requires form.planType == ClassPack
    requires !Filled(form.maxClasses) || Text.ParseInt(form.maxClasses.value).NaN?
    ensures PricingApi.MapBackendPricingToPlan(
              PricingApi.Stored(id, PricingApi.CreatePayload(Submitted(form)), priceText, createdAt)).planType == Membership
  {
    PricingApi.CreatedPlanReadsBack(Submitted(form), id, priceText, createdAt);
  }
}
