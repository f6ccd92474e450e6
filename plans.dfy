/**
 * The plan registry: a static table of four tiers and the normalisation of
 * plan keys as they are stored on site rows.
 */
module Plans {
  import opened Wrappers

  datatype PlanTier = Free | Starter | Business | Agency

  /** One row of the plan table. */
  datatype Limits = Limits(
    key: string,
    name: string,
    priceMonthly: nat,
    aiEditsPerMonth: nat,
    maxPublishedSites: nat,
    maxTotalSites: nat,
    customDomain: bool,
    logo: bool,
    forms: bool)

  /** The table key of each tier. */
  function Key(t: PlanTier): string {
    match t
    case Free => "free"
    case Starter => "starter"
    case Business => "business"
    case Agency => "agency"
  }

  /** The keys of the plan table and the tier each one names. */
  const PlanKeys: map<string, PlanTier> :=
    map["free" := Free, "starter" := Starter, "business" := Business, "agency" := Agency]

  /** The plan key written by the old pricing model. */
  const LegacyProKey := "pro"

  /** The plan table. */
  function PlanLimits(t: PlanTier): (l: Limits)
    ensures l.key == Key(t)
  {
    match t
    case Free => Limits("free", "Free", 0, 3, 0, 1, false, false, true)
    case Starter => Limits("starter", "Launch", 9, 100, 1, 2, true, false, true)
    case Business => Limits("business", "Business", 24, 300, 3, 6, true, true, true)
    case Agency => Limits("agency", "Agency", 49, 1000, 999, 999, true, true, true)
  }

  /** Position of a tier in price order. */
  function Rank(t: PlanTier): nat {
    match t
    case Free => 0
    case Starter => 1
    case Business => 2
    case Agency => 3
  }

  /**
   * normalizePlan: a missing or empty key is free, the legacy key is the
   * cheapest paid tier, a table key is itself and anything else is free.
   * `None` stands for a missing value (undefined or null).
   */
  function NormalizePlan(plan: Option<string>): (t: PlanTier)
    ensures plan.Some? && plan.value in PlanKeys ==> t == PlanKeys[plan.value]
  {
    match plan
    case None => Free
    case Some(p) =>
      if p == "" then Free
      else if p == LegacyProKey then Starter
      else if p in PlanKeys then PlanKeys[p]
      else Free
  }

  /** getPlan: the table row of the normalised key. The fallback to the free
    * row never applies, because the normalised key is always in the table. */
  function GetPlan(planKey: Option<string>): (l: Limits)
    ensures l.key in PlanKeys && l.key == Key(NormalizePlan(planKey))
    ensures l == PlanLimits(PlanKeys[l.key])
  {
    var t := NormalizePlan(planKey);
    KeysAreTableKeys(t, t);
    PlanLimits(t)
  }

  /** The tiers that have a payment-provider price: every paid tier. */
  const PricedTiers: set<PlanTier> := {Starter, Business, Agency}

  // ----- The table -----

  /** The table's keys are exactly the four tier keys, and distinct tiers
    * have distinct keys. */
  lemma KeysAreTableKeys(t: PlanTier, u: PlanTier)
    ensures Key(t) in PlanKeys && PlanKeys[Key(t)] == t
    ensures Key(t) == Key(u) ==> t == u
    ensures PlanKeys.Keys == {"free", "starter", "business", "agency"}
  {
  }

  /** A tier never allows more published sites than sites in all, and the
    * free tier cannot publish. */
  lemma PublishedWithinTotal(t: PlanTier)
    ensures PlanLimits(t).maxPublishedSites <= PlanLimits(t).maxTotalSites
    ensures PlanLimits(Free).maxPublishedSites == 0
    ensures PlanLimits(t).maxPublishedSites == 0 <==> t == Free
  {
  }

  /** Price and monthly AI edits strictly increase with the tier; site limits
    * never decrease; a feature once granted stays granted. */
  lemma TiersIncrease(a: PlanTier, b: PlanTier)
    requires Rank(a) < Rank(b)
    ensures PlanLimits(a).priceMonthly < PlanLimits(b).priceMonthly
    ensures PlanLimits(a).aiEditsPerMonth < PlanLimits(b).aiEditsPerMonth
    ensures PlanLimits(a).maxPublishedSites < PlanLimits(b).maxPublishedSites
    ensures PlanLimits(a).maxTotalSites <= PlanLimits(b).maxTotalSites
    ensures PlanLimits(a).customDomain ==> PlanLimits(b).customDomain
    ensures PlanLimits(a).logo ==> PlanLimits(b).logo
    ensures PlanLimits(a).forms ==> PlanLimits(b).forms
  {
  }

  /** The priced tiers are exactly the tiers with a non-zero monthly price. */
  lemma PricedTiersArePaid(t: PlanTier)
    ensures t in PricedTiers <==> PlanLimits(t).priceMonthly > 0
    ensures t in PricedTiers <==> t != Free
  {
  }

  // ----- normalizePlan and getPlan -----

  /** A missing or empty key is the free tier. */
  lemma NormalizeMissing()
    ensures NormalizePlan(None) == Free
    ensures NormalizePlan(Some("")) == Free
  {
  }

  /** The legacy key is the starter tier. */
  lemma NormalizeLegacy()
    ensures NormalizePlan(Some(LegacyProKey)) == Starter
    ensures GetPlan(Some(LegacyProKey)) == PlanLimits(Starter)
  {
  }

  /** Each table key normalises to its own tier. */
  lemma NormalizeTableKey(t: PlanTier)
    ensures NormalizePlan(Some(Key(t))) == t
  {
  }

  /** Any other string is the free tier, so the result is always a table key. */
  lemma NormalizeOther(p: string)
    requires p != "" && p != LegacyProKey && p !in PlanKeys
    ensures NormalizePlan(Some(p)) == Free
  {
  }

  /** The normalised key, stored back and normalised again, does not change. */
  lemma NormalizeIdempotent(plan: Option<string>)
    ensures Key(NormalizePlan(plan)) in PlanKeys
    ensures NormalizePlan(Some(Key(NormalizePlan(plan)))) == NormalizePlan(plan)
  {
    NormalizeTableKey(NormalizePlan(plan));
  }

  /** A key that is kept as it is names a table row; the only key mapped to
    * a different table key is the legacy one. */
  lemma NormalizeChangesOnlyLegacy(p: string)
    ensures NormalizePlan(Some(p)) != Free && Key(NormalizePlan(Some(p))) != p ==> p == LegacyProKey
    ensures Key(NormalizePlan(Some(p))) == p <==> p in PlanKeys
  {
  }
}
