/** The pricing card of `src/components/pricing/pricing-card.tsx`: the status badge, the
    popular badge, the archive menu label, the class-pack line and the feature list. */
module PricingCard {
  import opened Wrappers
  import opened Domain
  import Text
  import Seqs = Lists
  import ApiClient
  import PricingApi

  /** One entry of `planStatusConfig` in `src/types/pricing.ts`. */
  datatype StatusStyle = StatusStyle(caption: string, color: string)

  /** `planStatusConfig[status]` for a declared status. */
  function StatusConfig(s: PlanStatus): (style: StatusStyle)
    ensures style.caption != "" && style.color != ""
  {
    match s
    case Active => StatusStyle("Active", "bg-emerald-100 text-emerald-700")
    case Archived => StatusStyle("Archived", "bg-zinc-100 text-zinc-600")
    case Draft => StatusStyle("Draft", "bg-amber-100 text-amber-700")
  }

  /** Different statuses carry different labels, so the badge tells them apart. */
  lemma StatusLabelsDistinct(a: PlanStatus, b: PlanStatus)
    ensures StatusConfig(a).caption == StatusConfig(b).caption ==> a == b
  {
  }

  /** `plan.subscriberCount > 50`; an undefined count is not greater than anything. */
  predicate IsPopular(p: PricingPlan) {
    p.subscriberCount.Some? && p.subscriberCount.value > 50
  }

  /** The label of the archive menu item. */
  function ArchiveLabel(p: PricingPlan): (caption: string)
    ensures caption == "Restore" <==> p.status == Some(Archived)
    ensures caption == "Archive" <==> p.status != Some(Archived)
  {
    if p.status == Some(Archived) then "Restore" else "Archive"
  }

  /** What a JSX child expression renders: nothing (for `false` and `undefined`), a bare
      text node, or the paragraph element with its text. */
  datatype Node = Nothing | TextNode(text: string) | Paragraph(text: string)

  /** A number or undefined as a JSX child: undefined renders no text. */
  function ChildText(n: Option<int>): string {
    if n.Some? then Text.IntToString(n.value) else ""
  }

  /** The separator as the source file holds it: the bullet's UTF-8 bytes read as
      Windows-1252, that is "â", "€" and "¢". */
  const ClassesText: string := " classes \U{00E2}\U{20AC}\U{00A2} Valid for "
  const DaysText: string := " days"

  /** `plan.type === 'class-pack' && plan.maxClasses && (<p>…</p>)`: nothing unless the
      plan is a class pack with a class count; a count of 0 is itself rendered as the text
      "0"; any other count renders the paragraph. */
  function ClassPackLine(p: PricingPlan): (node: Node)
    ensures node.Nothing? <==> p.planType != ClassPack || p.maxClasses.None?
    ensures node.TextNode? <==> p.planType == ClassPack && p.maxClasses == Some(0)
    ensures node.TextNode? ==> node.text == "0"
    ensures node.Paragraph? ==>
              node.text == Text.IntToString(p.maxClasses.value) + ClassesText + ChildText(p.validityDays) + DaysText
  {
    if p.planType != ClassPack || p.maxClasses.None? then Nothing
    else if p.maxClasses.value == 0 then TextNode("0")
    else Paragraph(Text.IntToString(p.maxClasses.value) + ClassesText + ChildText(p.validityDays) + DaysText)
  }

  /** The paragraph reads back as the plan's class count: `parseInt` of it gives the
      number of classes, whatever the validity shows. */
  lemma {:induction false} ClassPackLineReadsBack(p: PricingPlan)
    requires ClassPackLine(p).Paragraph?
    ensures Text.ParseInt(ClassPackLine(p).text) == Text.Int(p.maxClasses.value)
    ensures p.maxClasses.value != 0
  {
    var rest := ClassesText + ChildText(p.validityDays) + DaysText;
    assert ClassPackLine(p).text == Text.IntToString(p.maxClasses.value) + rest;
    assert rest[0] == ' ';
    Text.ParseIntOfIntToStringThen(p.maxClasses.value, rest);
  }

  /** An undefined validity leaves a gap where the number of days would be. */
  lemma MissingValidityLeavesGap(p: PricingPlan)
    requires ClassPackLine(p).Paragraph? && p.validityDays.None?
    ensures ClassPackLine(p).text == Text.IntToString(p.maxClasses.value) + " classes \U{00E2}\U{20AC}\U{00A2} Valid for  days"
  {
  }

  /** One list item per feature, keyed by its position. */
  datatype FeatureItem = FeatureItem(key: nat, text: string)

  function FeatureItems(features: seq<string>): (items: seq<FeatureItem>)
    ensures |items| == |features|
    ensures forall i :: 0 <= i < |items| ==> items[i] == FeatureItem(i, features[i])
  {
    seq(|features|, i requires 0 <= i < |features| => FeatureItem(i, features[i]))
  }

  /** The items read back as the features in order, and their keys are distinct even
      when two features have the same text. */
  lemma FeatureItemsFaithful(features: seq<string>)
    ensures Seqs.Map(FeatureItems(features), (item: FeatureItem) => item.text) == features
    ensures forall i, j :: 0 <= i < j < |features| ==> FeatureItems(features)[i].key != FeatureItems(features)[j].key
  {
  }

  /** The parts of a rendered card the model follows. */
  datatype CardView = CardView(
    popular: bool,
    statusBadge: StatusStyle,
    archiveLabel: string,
    classPackLine: Node,
    features: seq<FeatureItem>)

  /** `PricingCard({ plan })`: None when rendering throws. It throws exactly when the plan
      has no status, because `planStatusConfig[undefined]` is undefined and the status
      badge reads its `color`. */
  function RenderCard(p: PricingPlan): (view: Option<CardView>)
    ensures view.None? <==> p.status.None?
    ensures view.Some? ==> view.value.statusBadge == StatusConfig(p.status.value)
    ensures view.Some? ==> view.value.popular == IsPopular(p) && view.value.archiveLabel == ArchiveLabel(p)
    ensures view.Some? ==> view.value.classPackLine == ClassPackLine(p) && view.value.features == FeatureItems(p.features)
  {
    match p.status
    case None => None
    case Some(status) =>
      Some(CardView(IsPopular(p), StatusConfig(status), ArchiveLabel(p), ClassPackLine(p), FeatureItems(p.features)))
  }

  /** A plan fetched from the backend has no status, so its card cannot render: the
      status lookup throws. The pricing page never gets that far, since no fetched plan
      is in any of its tabs. */
  lemma {:induction false} FetchedPlanCard(o: PricingApi.BackendPricingOption)
    ensures RenderCard(PricingApi.AsPricingPlan(PricingApi.MapBackendPricingToPlan(o))).None?
  {
  }
}
