/** One pricing card: the price shown for the chosen billing period, the yearly
    saving of annual billing, and when the saving and the "Popular" badge show. */
module PricingCard {
  import opened Data

  /** The price shown per month: the annual rate when billed annually. */
  function Price(plan: PricingPlan, annual: bool): (r: int)
    ensures annual ==> r == plan.annualPrice
    ensures !annual ==> r == plan.monthlyPrice
    ensures plan.annualPrice <= plan.monthlyPrice ==> r <= plan.monthlyPrice
  {
    if annual then plan.annualPrice else plan.monthlyPrice
  }

  /** The yearly saving of annual billing; a plan with no monthly price saves nothing. */
  function Saved(plan: PricingPlan): (r: int)
    ensures plan.monthlyPrice <= 0 ==> r == 0
    ensures plan.annualPrice <= plan.monthlyPrice ==> r >= 0
    ensures plan.monthlyPrice > 0 ==> r == 12 * Price(plan, false) - 12 * Price(plan, true)
  {
    if plan.monthlyPrice > 0 then (plan.monthlyPrice - plan.annualPrice) * 12 else 0
  }

  /** Whether the "Save $N/yr" line is shown. */
  predicate ShowsSavings(plan: PricingPlan, annual: bool) {
    annual && Saved(plan) > 0
  }

  /** The saving line shows exactly in annual view for a paid plan whose annual
      rate is below its monthly one: never in monthly view, never for a free plan. */
  lemma ShowsSavingsIff(plan: PricingPlan, annual: bool)
    ensures ShowsSavings(plan, annual) <==>
      annual && plan.monthlyPrice > 0 && plan.annualPrice < plan.monthlyPrice
  {
  }

  /** The badge and the accent border and button all follow `popular`. */
  datatype CardStyle = CardStyle(badge: bool, accentBorder: bool, accentButton: bool)

  function Style(plan: PricingPlan): (r: CardStyle)
    ensures r.badge <==> plan.popular
    ensures r.accentBorder == r.badge == r.accentButton
  {
    CardStyle(plan.popular, plan.popular, plan.popular)
  }

  /** Over the shipped plans: Free saves 0, Standard 36 and Pro 396 a year;
      only Standard and Pro show the saving in annual view, and only Pro the badge. */
  lemma ShippedSavings()
    ensures Saved(PricingPlans[0]) == 0 && Saved(PricingPlans[1]) == 36 && Saved(PricingPlans[2]) == 396
    ensures !ShowsSavings(PricingPlans[0], true)
    ensures ShowsSavings(PricingPlans[1], true) && ShowsSavings(PricingPlans[2], true)
    ensures forall i :: 0 <= i < |PricingPlans| ==> !ShowsSavings(PricingPlans[i], false)
    ensures forall i :: 0 <= i < |PricingPlans| ==> (Style(PricingPlans[i]).badge <==> i == 2)
  {
  }

  /** Over the shipped plans no saving is negative. */
  lemma {:induction false} ShippedSavingsNonNegative(i: nat)
    requires i < |PricingPlans|
    ensures Saved(PricingPlans[i]) >= 0
  {
    PlansOrdered();
  }
}
