/** The plan catalogue: the closed set of plan tiers, the per-tier limits
    table and the list of plan definitions shown to users. */
module SubscriptionPlans {
  import opened Wrappers

  /** The two plan tiers. */
  datatype PlanTier = Free | Premium

  /** The spelling of a tier, as stored in the `plan` column and sent by the
      payment provider in metadata. */
  function TierName(t: PlanTier): string {
    match t
    case Free => "free"
    case Premium => "premium"
  }

  /** Reads a stored plan name back as a tier; any other string is no tier. */
  function ParseTier(s: string): (r: Option<PlanTier>)
    ensures r.Some? ==> TierName(r.value) == s
    ensures r.None? ==> forall t :: TierName(t) != s
  {
    if s == "free" then Some(Free)
    else if s == "premium" then Some(Premium)
    else None
  }

  /** Naming a tier and reading the name back gives the tier. */
  lemma ParseTierName(t: PlanTier)
    ensures ParseTier(TierName(t)) == Some(t)
  {
  }

  /** One row of the LIMITS table. */
  datatype PlanLimits = PlanLimits(
    stories: nat,
    videos: nat,
    storageMb: nat,
    recipientsEnabled: bool,
    deliveryEnabled: bool)

  /** The LIMITS table. */
  function Limits(t: PlanTier): PlanLimits {
    match t
    case Free => PlanLimits(1, 1, 500, false, false)
    case Premium => PlanLimits(10000, 2000, 102400, true, true)
  }

  /** Premium allows at least as much as free on every dimension and enables
      every feature free enables; every tier allows at least one story, one
      video and some storage. */
  lemma LimitsOrdered()
    ensures Limits(Free).stories <= Limits(Premium).stories
    ensures Limits(Free).videos <= Limits(Premium).videos
    ensures Limits(Free).storageMb <= Limits(Premium).storageMb
    ensures Limits(Free).recipientsEnabled ==> Limits(Premium).recipientsEnabled
    ensures Limits(Free).deliveryEnabled ==> Limits(Premium).deliveryEnabled
    ensures forall t :: Limits(t).stories >= 1 && Limits(t).videos >= 1 && Limits(t).storageMb > 0
  {
  }

  /** The entries of the LIMITS table. */
  lemma LimitsValues()
    ensures Limits(Free) == PlanLimits(1, 1, 500, false, false)
    ensures Limits(Premium) == PlanLimits(10000, 2000, 102400, true, true)
  {
  }

  /** One entry of the `plans` list. */
  datatype PlanDefinition = PlanDefinition(
    tier: PlanTier,
    labelText: string,
    description: string,
    perks: seq<string>,
    price: Option<string>,
    highlight: Option<bool>)

  /** The `plans` list, in display order. */
  const Plans: seq<PlanDefinition> := [
    PlanDefinition(
      Free,
      "Free Test Drive",
      "Upload one story + video to explore the editor before inviting loved ones.",
      ["1 video to test the platform", "500MB secure storage", "Upgrade to unlock recipients & delivery"],
      None,
      None),
    PlanDefinition(
      Premium,
      "Premium",
      "Full delivery workflow, high limits, and concierge onboarding for serious storytellers.",
      ["Unlimited stories & HD uploads", "Recipients + delivery tools unlocked", "Priority support & onboarding"],
      Some("$39 / month"),
      Some(true))
  ]

  /** Array.prototype.find over plan definitions: the first one of the tier. */
  function FindByTier(ps: seq<PlanDefinition>, tier: PlanTier): (r: Option<PlanDefinition>)
    ensures r.Some? <==> exists i :: 0 <= i < |ps| && ps[i].tier == tier
    ensures r.Some? ==> exists i :: 0 <= i < |ps| && ps[i] == r.value && r.value.tier == tier
                          && forall j :: 0 <= j < i ==> ps[j].tier != tier
    decreases |ps|
  {
    if ps == [] then None
    else if ps[0].tier == tier then Some(ps[0])
    else
      var r := FindByTier(ps[1..], tier);
      assert forall i :: 1 <= i < |ps| ==> ps[i] == ps[1..][i - 1];
      r
  }

  /** getPlanDefinition: the definition of a tier taken from `plans`. */
  function GetPlanDefinition(tier: PlanTier): (r: Option<PlanDefinition>)
    ensures r.Some? <==> exists i :: 0 <= i < |Plans| && Plans[i].tier == tier
  {
    FindByTier(Plans, tier)
  }

  /** `plans` holds exactly one definition per tier, so the lookup always
      succeeds and yields a definition of the requested tier. */
  lemma PlansOnePerTier(tier: PlanTier)
    ensures exists i :: 0 <= i < |Plans| && Plans[i].tier == tier
    ensures forall i, j :: 0 <= i < j < |Plans| ==> Plans[i].tier != Plans[j].tier
    ensures GetPlanDefinition(tier).Some? && GetPlanDefinition(tier).value.tier == tier
  {
    var i := if tier == Free then 0 else 1;
    assert Plans[i].tier == tier;
  }
}
