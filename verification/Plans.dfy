/** Plan and addon tables, and derived limits (src/modules/subscriptions/plan.constants.ts). */
module Plans {
  import opened Domain

  datatype Tier = Trial | Starter | Business | Enterprise

  datatype Interval = Monthly | Yearly

  /** PLAN_ORDER */
  function PlanOrder(t: Tier): nat {
    match t case Trial => 0 case Starter => 1 case Business => 2 case Enterprise => 3
  }

  predicate IsDowngrade(from: Tier, to: Tier) {
    PlanOrder(to) < PlanOrder(from)
  }

  predicate KnownResource(r: string) {
    r == "branches" || r == "workPosts" || r == "users" || r == "services"
  }

  /** PLAN_LIMITS; None is unlimited. */
  function PlanLimit(t: Tier, r: string): Option<nat>
    requires KnownResource(r)
  {
    match t
    case Trial => Some(if r == "branches" then 3 else if r == "workPosts" then 10 else if r == "users" then 15 else 20)
    case Starter => Some(if r == "branches" then 1 else if r == "workPosts" then 5 else if r == "users" then 5 else 15)
    case Business => Some(if r == "branches" then 5 else if r == "workPosts" then 25 else if r == "users" then 25 else 50)
    case Enterprise => if r == "branches" then Some(25) else if r == "workPosts" then Some(100) else None
  }

  /** ADDON_UNIT_SIZE */
  function UnitSize(r: string): nat
    requires KnownResource(r)
  {
    if r == "branches" then 1 else if r == "services" then 10 else 5
  }

  /** `calculateEffectiveLimit` */
  function EffectiveLimit(t: Tier, r: string, addonQuantity: nat): Option<nat>
    requires KnownResource(r)
  {
    match PlanLimit(t, r)
    case None => None
    case Some(base) => Some(base + addonQuantity * UnitSize(r))
  }

  datatype Limits = Limits(branches: Option<nat>, workPosts: Option<nat>, users: Option<nat>, services: Option<nat>)

  /** One row per resource: its quantity and the price id it was bought under. */
  datatype AddonRow = AddonRow(quantity: nat, priceId: string)

  type AddonTable = map<string, AddonRow>

  function Quantity(addons: AddonTable, r: string): nat {
    if r in addons then addons[r].quantity else 0
  }

  /** The maxima that a tier and an addon table grant. */
  function LimitsFor(t: Tier, addons: AddonTable): Limits {
    Limits(EffectiveLimit(t, "branches", Quantity(addons, "branches")),
           EffectiveLimit(t, "workPosts", Quantity(addons, "workPosts")),
           EffectiveLimit(t, "users", Quantity(addons, "users")),
           EffectiveLimit(t, "services", Quantity(addons, "services")))
  }

  /** The maxima of each plan without addons. */
  lemma PlanMaxima()
    ensures LimitsFor(Trial, map[]) == Limits(Some(3), Some(10), Some(15), Some(20))
    ensures LimitsFor(Starter, map[]) == Limits(Some(1), Some(5), Some(5), Some(15))
    ensures LimitsFor(Business, map[]) == Limits(Some(5), Some(25), Some(25), Some(50))
    ensures LimitsFor(Enterprise, map[]) == Limits(Some(25), Some(100), None, None)
  {
  }

  function Raised(limit: Option<nat>, amount: nat): Option<nat> {
    if limit.None? then None else Some(limit.value + amount)
  }

  /** One unit more of an addon raises one maximum, unless it is unlimited: by a branch, or by five posts, five users or ten services. */
  lemma OneUnitMore(t: Tier, addons: AddonTable, r: string, priceId: string)
    ensures var l, more := LimitsFor(t, addons), LimitsFor(t, addons[r := AddonRow(Quantity(addons, r) + 1, priceId)]);
            more == match r
                    case "branches" => l.(branches := Raised(l.branches, 1))
                    case "workPosts" => l.(workPosts := Raised(l.workPosts, 5))
                    case "users" => l.(users := Raised(l.users, 5))
                    case "services" => l.(services := Raised(l.services, 10))
                    case _ => l
  {
  }

  /** The plans from the smallest to the largest; a trial comes before all of them. */
  lemma DowngradePairs(from: Tier, to: Tier)
    ensures IsDowngrade(from, to) <==>
            (from, to) in {(Starter, Trial), (Business, Trial), (Enterprise, Trial), (Business, Starter), (Enterprise, Starter), (Enterprise, Business)}
  {
  }
}
