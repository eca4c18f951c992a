/**
 * Stored subscriptions: webhook handlers, addon and plan calls, and the limits derived from tier and
 * addons (src/modules/subscriptions/subscriptions.service.ts and paddle-webhook.service.ts).
 * Each handler runs to completion before the next one starts.
 */
module Subscriptions {
  import opened Domain
  import opened Plans
  import opened Billing
  import opened BillingRoundTrip

  datatype Status = Trialing | Active | PastDue | Paused | Cancelled

  datatype Sub = Sub(tier: Tier, interval: Option<Interval>, status: Status, addons: AddonTable, limits: Limits,
                     paddleId: Option<string>)

  type Subs = map<Id, Sub>

  predicate Coherent(s: Sub) {
    s.limits == LimitsFor(s.tier, s.addons)
  }

  ghost predicate AllCoherent(subs: Subs) {
    forall t :: t in subs ==> Coherent(subs[t])
  }

  /** Live rows per resource. */
  datatype Usage = Usage(branches: nat, workPosts: nat, users: nat, services: nat)

  predicate Within(count: nat, limit: Option<nat>) {
    limit.None? || count <= limit.value
  }

  predicate Fits(u: Usage, l: Limits) {
    Within(u.branches, l.branches) && Within(u.workPosts, l.workPosts) && Within(u.users, l.users) && Within(u.services, l.services)
  }

  /** The addon rows of a subscription, as a query returns them. */
  ghost predicate Lists(rows: seq<Addon>, table: AddonTable) {
    && (forall i, j :: 0 <= i < j < |rows| ==> rows[i].resource != rows[j].resource)
    && (forall i :: 0 <= i < |rows| ==> rows[i].resource in table && rows[i].quantity == table[rows[i].resource].quantity)
    && forall r :: r in table ==> exists i :: 0 <= i < |rows| && rows[i].resource == r
  }

  // ----- Derived limits -----

  function RowQuantity(rows: seq<Addon>, r: string): nat {
    if rows == [] then 0
    else if rows[|rows| - 1].resource == r then rows[|rows| - 1].quantity
    else RowQuantity(rows[..|rows| - 1], r)
  }

  lemma {:induction false} LastRow(rows: seq<Addon>, r: string, i: int)
    requires 0 <= i < |rows| && rows[i].resource == r
    requires forall a, b :: 0 <= a < b < |rows| ==> rows[a].resource != rows[b].resource
    ensures RowQuantity(rows, r) == rows[i].quantity
  {
    if i < |rows| - 1 {
      LastRow(rows[..|rows| - 1], r, i);
    }
  }

  lemma {:induction false} NoRow(rows: seq<Addon>, r: string)
    requires forall i :: 0 <= i < |rows| ==> rows[i].resource != r
    ensures RowQuantity(rows, r) == 0
  {
    if rows != [] {
      NoRow(rows[..|rows| - 1], r);
    }
  }

  lemma ListedQuantity(rows: seq<Addon>, table: AddonTable, r: string)
    requires Lists(rows, table)
    ensures RowQuantity(rows, r) == Quantity(table, r)
  {
    if r in table {
      var i :| 0 <= i < |rows| && rows[i].resource == r;
      LastRow(rows, r, i);
    } else {
      NoRow(rows, r);
    }
  }

  /** The loop shared by `recalculateEffectiveLimits` and `validateDowngrade`: quantities by resource. */
  method AddonQuantities(rows: seq<Addon>) returns (branches: nat, workPosts: nat, users: nat, services: nat)
    ensures branches == RowQuantity(rows, "branches") && workPosts == RowQuantity(rows, "workPosts")
    ensures users == RowQuantity(rows, "users") && services == RowQuantity(rows, "services")
  {
    branches, workPosts, users, services := 0, 0, 0, 0;
    for i := 0 to |rows|
      invariant branches == RowQuantity(rows[..i], "branches") && workPosts == RowQuantity(rows[..i], "workPosts")
      invariant users == RowQuantity(rows[..i], "users") && services == RowQuantity(rows[..i], "services")
    {
      assert rows[..i + 1][..i] == rows[..i];
      var a := rows[i];
      if a.resource == "branches" {
        branches := a.quantity;
      } else if a.resource == "workPosts" {
        workPosts := a.quantity;
      } else if a.resource == "users" {
        users := a.quantity;
      } else if a.resource == "services" {
        services := a.quantity;
      }
    }
    assert rows[..|rows|] == rows;
  }

  method DeriveLimits(tier: Tier, rows: seq<Addon>, ghost table: AddonTable) returns (l: Limits)
    requires Lists(rows, table)
    ensures l == LimitsFor(tier, table)
  {
    ListedQuantity(rows, table, "branches");
    ListedQuantity(rows, table, "workPosts");
    ListedQuantity(rows, table, "users");
    ListedQuantity(rows, table, "services");
    var branches, workPosts, users, services := AddonQuantities(rows);
    l := Limits(EffectiveLimit(tier, "branches", branches), EffectiveLimit(tier, "workPosts", workPosts),
                EffectiveLimit(tier, "users", users), EffectiveLimit(tier, "services", services));
  }

  method ValidateDowngrade(u: Usage, newTier: Tier, rows: seq<Addon>, ghost table: AddonTable) returns (r: Result<(), Failure>)
    requires Lists(rows, table)
    ensures r == if Fits(u, LimitsFor(newTier, table)) then Ok(()) else Err(Conflict)
  {
    var l := DeriveLimits(newTier, rows, table);
    var violations := 0;
    var checks := [(u.users, l.users), (u.branches, l.branches), (u.workPosts, l.workPosts), (u.services, l.services)];
    for i := 0 to |checks|
      invariant violations == 0 <==> forall j :: 0 <= j < i ==> Within(checks[j].0, checks[j].1)
      invariant violations >= 0
    {
      var (count, limit) := checks[i];
      if limit.Some? && count > limit.value {
        violations := violations + 1;
      }
    }
    assert Fits(u, l) <==> forall j :: 0 <= j < |checks| ==> Within(checks[j].0, checks[j].1) by {
      assert checks[0] == (u.users, l.users) && checks[1] == (u.branches, l.branches);
      assert checks[2] == (u.workPosts, l.workPosts) && checks[3] == (u.services, l.services);
    }
    r := if violations > 0 then Err(Conflict) else Ok(());
  }

  // ----- What the handlers leave -----

  function WithLimits(s: Sub): Sub {
    s.(limits := LimitsFor(s.tier, s.addons))
  }

  /**
   * A subscription webhook for `tenant`: the tier is stored, the addon rows of the subscription
   * `found` by its Paddle id are replaced, and the limits of `tenant` are derived again.
   */
  function AfterWebhook(subs: Subs, tenant: Id, updated: Sub, found: Id, table: AddonTable): Subs
    requires tenant in subs && found in subs
  {
    var stored := subs[tenant := updated];
    var synced := stored[found := stored[found].(addons := table)];
    synced[tenant := WithLimits(synced[tenant])]
  }

  predicate HoldsPaddleId(subs: Subs, t: Id, paddleId: string) {
    t in subs && subs[t].paddleId == Some(paddleId)
  }

  /** The lookup by Paddle id finds the tenant that was just updated, whatever the payload. */
  lemma WebhookKeepsCoherence(subs: Subs, tenant: Id, updated: Sub, table: AddonTable)
    requires AllCoherent(subs) && tenant in subs
    ensures AllCoherent(AfterWebhook(subs, tenant, updated, tenant, table))
  {
  }

  // ----- Runs -----

  /** Completed calls; `table` is what the addon writes of a webhook left. */
  datatype Event =
    | Registered(tenant: Id)
    | WebhookCreated(tenant: Id, paddleId: string, tier: Tier, interval: Option<Interval>, found: Id, table: AddonTable)
    | WebhookUpdated(tenant: Id, tier: Tier, interval: Option<Interval>, status: Status, table: AddonTable)
    | StatusChanged(tenant: Id, status: Status)
    | AddonManaged(tenant: Id, resource: string, quantity: nat, priceId: string)
    | Removed(tenant: Id)

  function Upgraded(s: Sub, tier: Tier, interval: Option<Interval>): Sub {
    s.(tier := tier, interval := if interval.Some? then interval else s.interval)
  }

  function ManagedAddons(addons: AddonTable, resource: string, quantity: nat, priceId: string): AddonTable {
    if quantity == 0 then addons - {resource} else addons[resource := AddonRow(quantity, priceId)]
  }

  function Handle(subs: Subs, e: Event): Subs {
    match e
    case Registered(t) =>
      if t in subs then subs
      else subs[t := Sub(Trial, None, Trialing, map[], Limits(Some(3), Some(10), Some(15), Some(20)), None)]
    case WebhookCreated(t, id, tier, interval, found, table) =>
      if t in subs && found in subs
      then AfterWebhook(subs, t, Upgraded(subs[t], tier, interval).(status := Active, paddleId := Some(id)), found, table)
      else subs
    case WebhookUpdated(t, tier, interval, status, table) =>
      if t in subs then AfterWebhook(subs, t, Upgraded(subs[t], tier, interval).(status := status), t, table) else subs
    case StatusChanged(t, status) => if t in subs then subs[t := subs[t].(status := status)] else subs
    case AddonManaged(t, r, q, id) =>
      if t in subs then subs[t := WithLimits(subs[t].(addons := ManagedAddons(subs[t].addons, r, q, id)))] else subs
    case Removed(t) => subs - {t}
  }

  /** The row that the lookup by Paddle id may find after the update of `created`. */
  predicate LookupFinds(subs: Subs, e: Event) {
    e.WebhookCreated? && e.tenant in subs ==> e.found == e.tenant || HoldsPaddleId(subs, e.found, e.paddleId)
  }

  /** The limits of `t` are derived again, or `t` is gone. */
  predicate Derives(e: Event, t: Id) {
    (e.WebhookCreated? || e.WebhookUpdated? || e.AddonManaged? || e.Removed?) && e.tenant == t
  }

  /** The addons of `t` are replaced by a webhook of another tenant. */
  predicate Strays(e: Event, t: Id) {
    e.WebhookCreated? && e.found == t && e.tenant != t
  }

  lemma EventKeepsCoherence(subs: Subs, e: Event, t: Id)
    requires LookupFinds(subs, e) && t in Handle(subs, e)
    requires Derives(e, t) || (!Strays(e, t) && (t in subs ==> Coherent(subs[t])))
    ensures Coherent(Handle(subs, e)[t])
  {
  }

  function HandleAll(subs: Subs, events: seq<Event>): Subs {
    if events == [] then subs else Handle(HandleAll(subs, events[..|events| - 1]), events[|events| - 1])
  }

  predicate LookupsFind(subs: Subs, events: seq<Event>) {
    events == [] ||
    (var before, last := events[..|events| - 1], events[|events| - 1];
     LookupsFind(subs, before) && LookupFinds(HandleAll(subs, before), last))
  }

  /** Since the limits of `t` were last derived, no webhook of another tenant has replaced its addons. */
  predicate Intact(events: seq<Event>, t: Id) {
    events == [] ||
    (var before, last := events[..|events| - 1], events[|events| - 1];
     Derives(last, t) || (!Strays(last, t) && Intact(before, t)))
  }

  /** After every run, whatever Paddle ids the webhooks carry, the stored maxima of an intact tenant are those of its stored tier and addons. */
  lemma {:induction false} EveryRunIsCoherent(subs: Subs, events: seq<Event>, t: Id)
    requires AllCoherent(subs) && LookupsFind(subs, events) && Intact(events, t)
    ensures t in HandleAll(subs, events) ==> Coherent(HandleAll(subs, events)[t])
  {
    if events != [] {
      var n := |events| - 1;
      if !Derives(events[n], t) {
        EveryRunIsCoherent(subs, events[..n], t);
      }
      if t in HandleAll(subs, events) {
        EventKeepsCoherence(HandleAll(subs, events[..n]), events[n], t);
      }
    }
  }

  // ----- When a webhook strays -----

  /** Nobody but `tenant` holds the Paddle id. */
  ghost predicate NoOtherHolds(subs: Subs, tenant: Id, paddleId: string) {
    forall t :: HoldsPaddleId(subs, t, paddleId) ==> t == tenant
  }

  /** The event of `subscription.created` with these items. */
  function CreatedWith(p: Prices, tenant: Id, paddleId: string, tier: Tier, interval: Option<Interval>, found: Id, items: seq<Item>): Event {
    WebhookCreated(tenant, paddleId, tier, interval, found, Synced(PayloadWrites(AddonLookup(p), items)))
  }

  ghost predicate CreatedIsSafe(p: Prices, subs: Subs, tenant: Id, paddleId: string, tier: Tier, interval: Option<Interval>) {
    forall found, items ::
      LookupFinds(subs, CreatedWith(p, tenant, paddleId, tier, interval, found, items)) ==>
      AllCoherent(Handle(subs, CreatedWith(p, tenant, paddleId, tier, interval, found, items)))
  }

  function BranchItem(p: Prices, quantity: nat): Item
    requires AddonId(p, "branches").Some?
  {
    Mirror(Line(AddonId(p, "branches").value, quantity))
  }

  lemma BranchItemStores(p: Prices, quantity: nat)
    requires AddonId(p, "branches").Some? && AddonIdReadsBack(p, "branches") && quantity > 0
    ensures Synced(PayloadWrites(AddonLookup(p), [BranchItem(p, quantity)])) ==
            map["branches" := AddonRow(quantity, AddonId(p, "branches").value)]
  {
    var lookup, item := AddonLookup(p), BranchItem(p, quantity);
    hide AddonLookup;
    var w := Upsert("branches", AddonRow(quantity, AddonId(p, "branches").value));
    assert ResourceOf(lookup, item) == Some("branches") && WriteFor(lookup, item) == w;
    assert PayloadWrites(lookup, [item][..0]) == [] && PayloadWrites(lookup, [item]) == [w];
    assert PerformIn(map[], [w][..0]) == map[];
  }

  lemma StrayGoesWrong(p: Prices, subs: Subs, tenant: Id, paddleId: string, tier: Tier, interval: Option<Interval>, t: Id)
    requires AllCoherent(subs) && tenant in subs && HoldsPaddleId(subs, t, paddleId) && t != tenant
    requires AddonId(p, "branches").Some? && AddonIdReadsBack(p, "branches")
    ensures !CreatedIsSafe(p, subs, tenant, paddleId, tier, interval)
  {
    var q := Quantity(subs[t].addons, "branches") + 1;
    var e := CreatedWith(p, tenant, paddleId, tier, interval, t, [BranchItem(p, q)]);
    BranchItemStores(p, q);
    var after := Handle(subs, e);
    assert after[t] == subs[t].(addons := e.table) && Quantity(e.table, "branches") == q;
    assert !Coherent(after[t]);
    assert LookupFinds(subs, e);
  }

  /**
   * `subscription.created` takes its tenant from the payload but looks the subscription up by Paddle id,
   * which need not be unique: the maxima stay right, whatever it finds and whatever the items, exactly
   * when no other tenant holds the announced id before the call.
   */
  lemma CreatedKeepsCoherenceIff(p: Prices, subs: Subs, tenant: Id, paddleId: string, tier: Tier, interval: Option<Interval>)
    requires AllCoherent(subs) && tenant in subs
    requires AddonId(p, "branches").Some? && AddonIdReadsBack(p, "branches")
    ensures CreatedIsSafe(p, subs, tenant, paddleId, tier, interval) <==> NoOtherHolds(subs, tenant, paddleId)
  {
    if NoOtherHolds(subs, tenant, paddleId) {
      forall found, items | LookupFinds(subs, CreatedWith(p, tenant, paddleId, tier, interval, found, items))
        ensures AllCoherent(Handle(subs, CreatedWith(p, tenant, paddleId, tier, interval, found, items)))
      {
        var e := CreatedWith(p, tenant, paddleId, tier, interval, found, items);
        assert found == tenant;
        WebhookKeepsCoherence(subs, tenant, Upgraded(subs[tenant], tier, interval).(status := Active, paddleId := Some(paddleId)), e.table);
      }
    } else {
      var t :| HoldsPaddleId(subs, t, paddleId) && t != tenant;
      StrayGoesWrong(p, subs, tenant, paddleId, tier, interval, t);
    }
  }

  /** Every `subscription.created` of the run announces an id that no other tenant holds then. */
  ghost predicate IdsAreFree(subs: Subs, events: seq<Event>) {
    events == [] ||
    (var before, last := events[..|events| - 1], events[|events| - 1];
     IdsAreFree(subs, before) && (last.WebhookCreated? ==> NoOtherHolds(HandleAll(subs, before), last.tenant, last.paddleId)))
  }

  /** While tenants keep their Paddle ids apart, the maxima of all of them stay right. */
  lemma {:induction false} FreeIdsKeepAllCoherent(subs: Subs, events: seq<Event>)
    requires AllCoherent(subs) && LookupsFind(subs, events) && IdsAreFree(subs, events)
    ensures AllCoherent(HandleAll(subs, events))
  {
    if events != [] {
      var n := |events| - 1;
      var before := HandleAll(subs, events[..n]);
      FreeIdsKeepAllCoherent(subs, events[..n]);
      forall t | t in Handle(before, events[n])
        ensures Coherent(Handle(before, events[n])[t])
      {
        if events[n].WebhookCreated? && events[n].tenant !in before {
          assert Handle(before, events[n]) == before;
        } else {
          assert !Strays(events[n], t);
          EventKeepsCoherence(before, events[n], t);
        }
      }
    }
  }

  // ----- Changing the plan -----

  /** The items that `changePlan` sends to Paddle. */
  function ChangeOutcome(p: Prices, s: Sub, rows: seq<Addon>, u: Usage, newTier: Tier, interval: Interval): Result<seq<Line>, Failure> {
    if s.paddleId.None? || s.tier == Trial then Err(BadRequest)
    else if IsDowngrade(s.tier, newTier) && !Fits(u, LimitsFor(newTier, s.addons)) then Err(Conflict)
    else Printed(p, newTier, interval, rows)
  }

  lemma RecoveredQuantity(p: Prices, rows: seq<Addon>, stored: AddonTable, table: AddonTable, r: string)
    requires Lists(rows, stored) && HoldsPositive(p, rows, table)
    ensures Quantity(table, r) == Quantity(stored, r)
  {
  }

  /**
   * An accepted downgrade, delivered back by the webhook for the same items, lands within every new
   * maximum, whatever addon rows were stored meanwhile.
   */
  lemma AcceptedDowngradeLands(p: Prices, s: Sub, rows: seq<Addon>, u: Usage, newTier: Tier, interval: Interval,
                              custom: Option<string>)
    requires Lists(rows, s.addons) && AddonRows(rows) && IdsReadBack(p) && IsDowngrade(s.tier, newTier)
    requires ChangeOutcome(p, s, rows, u, newTier, interval).Ok?
    ensures var items := Webhook(ChangeOutcome(p, s, rows, u, newTier, interval).value);
            && TierFor(PlanLookup(p), Some(items), custom) == newTier
            && Consistent(PayloadWrites(AddonLookup(p), items))
            && Fits(u, LimitsFor(newTier, Synced(PayloadWrites(AddonLookup(p), items))))
  {
    PrintedIsRecovered(p, newTier, interval, rows);
    var table := Synced(PayloadWrites(AddonLookup(p), Webhook(Printed(p, newTier, interval, rows).value)));
    RecoveredQuantity(p, rows, s.addons, table, "branches");
    RecoveredQuantity(p, rows, s.addons, table, "workPosts");
    RecoveredQuantity(p, rows, s.addons, table, "users");
    RecoveredQuantity(p, rows, s.addons, table, "services");
  }

  predicate AtMostLimit(a: Option<nat>, b: Option<nat>) {
    b.None? || (a.Some? && a.value <= b.value)
  }

  /** With the same addons, a paid plan that is not lower grants at least as much of everything. */
  lemma UpgradesGrant(from: Tier, to: Tier, addons: AddonTable)
    requires from != Trial && !IsDowngrade(from, to)
    ensures var a, b := LimitsFor(from, addons), LimitsFor(to, addons);
            AtMostLimit(a.branches, b.branches) && AtMostLimit(a.workPosts, b.workPosts)
            && AtMostLimit(a.users, b.users) && AtMostLimit(a.services, b.services)
  {
  }

  /** Usage fits when no count is above a maximum that exists. */
  lemma FitsIff(u: Usage, l: Limits)
    ensures Fits(u, l) <==>
            && !(l.branches.Some? && u.branches > l.branches.value) && !(l.workPosts.Some? && u.workPosts > l.workPosts.value)
            && !(l.users.Some? && u.users > l.users.value) && !(l.services.Some? && u.services > l.services.value)
  {
  }

  /** No accepted plan change, up or down, takes a tenant that is within its maxima above the new ones. */
  lemma PlanChangeKeepsWithin(p: Prices, s: Sub, rows: seq<Addon>, u: Usage, newTier: Tier, interval: Interval)
    requires ChangeOutcome(p, s, rows, u, newTier, interval).Ok? && Fits(u, LimitsFor(s.tier, s.addons))
    ensures Fits(u, LimitsFor(newTier, s.addons))
  {
    if !IsDowngrade(s.tier, newTier) {
      UpgradesGrant(s.tier, newTier, s.addons);
    }
  }

  /**
   * The webhook that answers an accepted plan change, up or down, stores the new tier and addons under
   * which the usage stays within every maximum.
   */
  lemma AcceptedChangeLands(p: Prices, s: Sub, rows: seq<Addon>, u: Usage, newTier: Tier, interval: Interval, custom: Option<string>)
    requires Lists(rows, s.addons) && AddonRows(rows) && IdsReadBack(p)
    requires ChangeOutcome(p, s, rows, u, newTier, interval).Ok? && Fits(u, LimitsFor(s.tier, s.addons))
    ensures var items := Webhook(ChangeOutcome(p, s, rows, u, newTier, interval).value);
            && TierFor(PlanLookup(p), Some(items), custom) == newTier
            && Fits(u, LimitsFor(newTier, Synced(PayloadWrites(AddonLookup(p), items))))
  {
    PlanChangeKeepsWithin(p, s, rows, u, newTier, interval);
    PrintedIsRecovered(p, newTier, interval, rows);
    var table := Synced(PayloadWrites(AddonLookup(p), Webhook(Printed(p, newTier, interval, rows).value)));
    RecoveredQuantity(p, rows, s.addons, table, "branches");
    RecoveredQuantity(p, rows, s.addons, table, "workPosts");
    RecoveredQuantity(p, rows, s.addons, table, "users");
    RecoveredQuantity(p, rows, s.addons, table, "services");
  }

  /** A plan change is refused for usage exactly when it leads to a lower plan that the usage exceeds. */
  lemma ChangeRefusedForUsageIff(p: Prices, s: Sub, rows: seq<Addon>, u: Usage, newTier: Tier, interval: Interval)
    ensures ChangeOutcome(p, s, rows, u, newTier, interval) == Err(Conflict) <==>
            && s.paddleId.Some? && !Fits(u, LimitsFor(newTier, s.addons))
            && (s.tier, newTier) in {(Starter, Trial), (Business, Trial), (Enterprise, Trial), (Business, Starter), (Enterprise, Starter), (Enterprise, Business)}
    ensures s.paddleId.None? || s.tier == Trial ==> ChangeOutcome(p, s, rows, u, newTier, interval) == Err(BadRequest)
  {
    DowngradePairs(s.tier, newTier);
    PrintErrors(p, newTier, interval, rows);
    hide Fits, LimitsFor, Printed, IsDowngrade;
  }

  // ----- Managing an addon -----

  /** The stored addons with the new quantity in place. */
  function Speculative(rows: seq<Addon>, resource: string, quantity: nat): seq<Addon> {
    Others(rows, resource) + (if quantity > 0 then [Addon(resource, quantity)] else [])
  }

  function Others(rows: seq<Addon>, resource: string): seq<Addon> {
    if rows == [] then []
    else if rows[0].resource == resource then Others(rows[1..], resource)
    else [rows[0]] + Others(rows[1..], resource)
  }

  /** The price id under which `manageAddon` stores the addon, or why it does not. */
  function AddonOutcome(p: Prices, s: Sub, rows: seq<Addon>, resource: string, quantity: nat, paddleOk: bool): Result<string, Failure> {
    if s.tier == Trial || AddonId(p, resource).None? then Err(BadRequest)
    else if s.paddleId.None? then Ok(AddonId(p, resource).value)
    else
      match Printed(p, s.tier, if s.interval.Some? then s.interval.value else Monthly, Speculative(rows, resource, quantity))
      case Err(f) => Err(f)
      case Ok(_) => if paddleOk then Ok(AddonId(p, resource).value) else Err(Conflict)
  }

  lemma {:induction false} OthersLeaveOut(rows: seq<Addon>, resource: string)
    ensures forall a :: a in Others(rows, resource) <==> a in rows && a.resource != resource
    ensures OncePerResource(rows) ==> OncePerResource(Others(rows, resource))
  {
    if rows != [] {
      OthersLeaveOut(rows[1..], resource);
      assert rows == [rows[0]] + rows[1..];
    }
  }

  predicate OncePerResource(rows: seq<Addon>) {
    forall i, j :: 0 <= i < j < |rows| ==> rows[i].resource != rows[j].resource
  }

  lemma SpeculativeOnce(rows: seq<Addon>, resource: string, quantity: nat)
    requires OncePerResource(rows)
    ensures OncePerResource(Speculative(rows, resource, quantity))
    ensures forall a :: a in Speculative(rows, resource, quantity) <==>
              (a in rows && a.resource != resource) || (quantity > 0 && a == Addon(resource, quantity))
  {
    var others := Others(rows, resource);
    OthersLeaveOut(rows, resource);
    assert forall i :: 0 <= i < |others| ==> others[i] in others;
  }

  lemma SpeculativeLists(rows: seq<Addon>, table: AddonTable, resource: string, quantity: nat, priceId: string, r: string)
    returns (i: int)
    requires Lists(rows, table) && r in ManagedAddons(table, resource, quantity, priceId)
    ensures 0 <= i < |Speculative(rows, resource, quantity)| && Speculative(rows, resource, quantity)[i].resource == r
  {
    var sent, a := Speculative(rows, resource, quantity), Addon(resource, quantity);
    SpeculativeOnce(rows, resource, quantity);
    if r != resource {
      var j :| 0 <= j < |rows| && rows[j].resource == r;
      a := rows[j];
    }
    assert a in sent;
    i :| 0 <= i < |sent| && sent[i] == a;
  }

  /** The rows sent to Paddle are those stored once the call is done. */
  lemma SpeculativeIsStored(rows: seq<Addon>, table: AddonTable, resource: string, quantity: nat, priceId: string)
    requires Lists(rows, table)
    ensures Lists(Speculative(rows, resource, quantity), ManagedAddons(table, resource, quantity, priceId))
  {
    var sent, stored := Speculative(rows, resource, quantity), ManagedAddons(table, resource, quantity, priceId);
    SpeculativeOnce(rows, resource, quantity);
    hide Speculative;
    forall i | 0 <= i < |sent|
      ensures sent[i].resource in stored && sent[i].quantity == stored[sent[i].resource].quantity
    {
      assert sent[i] in sent;
    }
    forall r | r in stored
      ensures exists i :: 0 <= i < |sent| && sent[i].resource == r
    {
      var i := SpeculativeLists(rows, table, resource, quantity, priceId, r);
    }
  }

  /**
   * The webhook that answers an addon change confirms it: reading back the items sent leaves the tier
   * and the limits that the call stored.
   */
  lemma ManagedAddonIsConfirmed(p: Prices, s: Sub, rows: seq<Addon>, resource: string, quantity: nat, interval: Interval, custom: Option<string>)
    requires Lists(rows, s.addons) && AddonRows(rows) && KnownResource(resource) && IdsReadBack(p)
    requires Printed(p, s.tier, interval, Speculative(rows, resource, quantity)).Ok? && AddonId(p, resource).Some?
    ensures var items := Webhook(Printed(p, s.tier, interval, Speculative(rows, resource, quantity)).value);
            && TierFor(PlanLookup(p), Some(items), custom) == s.tier
            && Consistent(PayloadWrites(AddonLookup(p), items))
            && LimitsFor(s.tier, Synced(PayloadWrites(AddonLookup(p), items)))
               == LimitsFor(s.tier, ManagedAddons(s.addons, resource, quantity, AddonId(p, resource).value))
  {
    var sent, stored := Speculative(rows, resource, quantity), ManagedAddons(s.addons, resource, quantity, AddonId(p, resource).value);
    SpeculativeIsStored(rows, s.addons, resource, quantity, AddonId(p, resource).value);
    OthersLeaveOut(rows, resource);
    forall i | 0 <= i < |sent|
      ensures KnownResource(sent[i].resource)
    {
      assert sent[i] in sent;
      assert sent[i] in rows || sent[i].resource == resource;
    }
    hide Speculative, ManagedAddons, KnownResource;
    PrintedIsRecovered(p, s.tier, interval, sent);
    var table := Synced(PayloadWrites(AddonLookup(p), Webhook(Printed(p, s.tier, interval, sent).value)));
    RecoveredQuantity(p, sent, stored, table, "branches");
    RecoveredQuantity(p, sent, stored, table, "workPosts");
    RecoveredQuantity(p, sent, stored, table, "users");
    RecoveredQuantity(p, sent, stored, table, "services");
  }

  function Sent(p: Prices, s: Sub, rows: seq<Addon>, resource: string, quantity: nat): Result<seq<Line>, Failure> {
    Printed(p, s.tier, if s.interval == Some(Yearly) then Yearly else Monthly, Speculative(rows, resource, quantity))
  }

  lemma SentOrBad(p: Prices, s: Sub, rows: seq<Addon>, resource: string, quantity: nat)
    ensures Sent(p, s, rows, resource, quantity).Err? ==> Sent(p, s, rows, resource, quantity).error == BadRequest
    ensures Sent(p, s, rows, resource, quantity) ==
            Printed(p, s.tier, if s.interval.Some? then s.interval.value else Monthly, Speculative(rows, resource, quantity))
  {
    hide Printed, Speculative;
    PrintErrors(p, s.tier, if s.interval == Some(Yearly) then Yearly else Monthly, Speculative(rows, resource, quantity));
    assert (if s.interval == Some(Yearly) then Yearly else Monthly) == if s.interval.Some? then s.interval.value else Monthly;
  }

  /** An addon is stored, under its price id, exactly on a paid plan whose items can be printed and which Paddle, if linked, accepts. */
  lemma AddonStoredIff(p: Prices, s: Sub, rows: seq<Addon>, resource: string, quantity: nat, paddleOk: bool)
    ensures var sent, r := Sent(p, s, rows, resource, quantity), AddonOutcome(p, s, rows, resource, quantity, paddleOk);
            && (r.Ok? <==> s.tier != Trial && AddonId(p, resource).Some? && (s.paddleId.Some? ==> sent.Ok? && paddleOk))
            && (r.Ok? ==> AddonId(p, resource) == Some(r.value))
            && (r == Err(Conflict) <==> s.tier != Trial && AddonId(p, resource).Some? && s.paddleId.Some? && sent.Ok? && !paddleOk)
            && r != Err(NotFound)
  {
    hide Printed, AddonId, Speculative, Sent;
    SentOrBad(p, s, rows, resource, quantity);
  }

  /** What each event stores for its own tenant, and that it leaves every other tenant but a found one alone. */
  lemma EventEffects(subs: Subs, e: Event)
    requires LookupFinds(subs, e)
    ensures var after := Handle(subs, e);
            && (forall t :: t in subs && t != e.tenant && !Strays(e, t) ==> t in after && after[t] == subs[t])
            && (forall t :: t in after ==> t in subs || (e.Registered? && t == e.tenant))
            && (forall t :: t in subs && Strays(e, t) && e.tenant in subs ==> after[t] == subs[t].(addons := e.table))
            && (e.tenant in subs && !e.Removed? ==>
                  e.tenant in after &&
                  var old', now := subs[e.tenant], after[e.tenant];
                  match e
                  case Registered(_) => now == old'
                  case WebhookCreated(_, id, tier, interval, found, table) =>
                    && now.tier == tier && now.status == Active && now.paddleId == Some(id)
                    && now.interval == (if interval.None? then old'.interval else interval)
                    && now.addons == (if found == e.tenant then table else old'.addons)
                  case WebhookUpdated(_, tier, interval, status, table) =>
                    && now.tier == tier && now.status == status && now.addons == table && now.paddleId == old'.paddleId
                    && now.interval == (if interval.None? then old'.interval else interval)
                  case StatusChanged(_, status) => now.status == status && now.(status := old'.status) == old'
                  case AddonManaged(_, r, q, id) =>
                    && now.(limits := old'.limits, addons := old'.addons) == old'
                    && Quantity(now.addons, r) == q && (r in now.addons <==> q > 0) && (q > 0 ==> now.addons[r].priceId == id)
                    && (forall o :: o != r ==> AgreeAt(now.addons, old'.addons, o)))
            && (e.Removed? ==> e.tenant !in after)
            && (e.Registered? && e.tenant !in subs ==>
                  && after[e.tenant].tier == Trial && after[e.tenant].status == Trialing
                  && after[e.tenant].addons == map[] && after[e.tenant].paddleId.None?)
  {
    hide LimitsFor;
  }

  // ----- The stored subscriptions -----

  class SubscriptionStore {
    const prices: Prices
    var planLookup: map<string, string>
    var addonLookup: map<string, string>
    var subs: Subs

    constructor (prices: Prices)
      ensures this.prices == prices && subs == map[]
      ensures planLookup == PlanLookup(prices) && addonLookup == AddonLookup(prices)
    {
      this.prices, subs := prices, map[];
      new;
      var ids;
      planLookup, ids := BuildLookup(DefaultPlanIds(), prices.plans);
      addonLookup, ids := BuildLookup(DefaultAddonIds(), prices.addons);
    }

    /** `recalculateEffectiveLimits`; `rows` is what the query for the addons returns. */
    method Recalculate(tenant: Id, rows: seq<Addon>)
      requires tenant in subs ==> Lists(rows, subs[tenant].addons)
      modifies this`subs
      ensures subs == if tenant in old(subs) then old(subs)[tenant := WithLimits(old(subs)[tenant])] else old(subs)
    {
      if tenant !in subs {
        return;
      }
      var l := DeriveLimits(subs[tenant].tier, rows, subs[tenant].addons);
      subs := subs[tenant := subs[tenant].(limits := l)];
    }

    method StoredRows(tenant: Id) returns (rows: seq<Addon>)
      requires tenant in subs
      ensures Lists(rows, subs[tenant].addons)
    {
      var table, rest := subs[tenant].addons, subs[tenant].addons.Keys;
      rows := [];
      while rest != {}
        invariant rest <= table.Keys && forall i :: 0 <= i < |rows| ==> rows[i].resource !in rest
        invariant Lists(rows, table - rest)
        decreases |rest|
      {
        var r :| r in rest;
        ListOneMore(rows, table, rest, r);
        rows, rest := rows + [Addon(r, table[r].quantity)], rest - {r};
      }
      assert table - {} == table;
    }

    /** `handleSubscriptionCreated`; `found` is the row that the lookup by Paddle id returns. */
    method HandleCreated(tenant: Id, paddleId: string, items: Option<seq<Item>>, custom: Option<string>,
                         interval: Option<Interval>, found: Id)
      returns (r: Result<(), Failure>, ghost table: AddonTable)
      requires planLookup == PlanLookup(prices) && addonLookup == AddonLookup(prices)
      requires tenant in subs ==> found == tenant || HoldsPaddleId(subs, found, paddleId)
      modifies this`subs
      ensures r.Ok? <==> tenant in old(subs)
      ensures subs == Handle(old(subs), WebhookCreated(tenant, paddleId, TierFor(PlanLookup(prices), items, custom), interval, found, table))
      ensures items.Some? && Consistent(PayloadWrites(AddonLookup(prices), items.value)) ==>
                table == Synced(PayloadWrites(AddonLookup(prices), items.value))
      ensures items.None? && r.Ok? ==> found in old(subs) && table == old(subs)[found].addons
    {
      table := if items.Some? then Synced(PayloadWrites(addonLookup, items.value)) else map[];
      if tenant !in subs {
        return Err(NotFound), table;
      }
      var tier := ExtractPlanTier(planLookup, items, custom);
      subs := subs[tenant := Upgraded(subs[tenant], tier, interval).(status := Active, paddleId := Some(paddleId))];
      var synced := SyncAddons(addonLookup, items, subs[found].addons);
      table := synced;
      subs := subs[found := subs[found].(addons := synced)];
      var rows := StoredRows(tenant);
      Recalculate(tenant, rows);
      r := Ok(());
    }

    /** `handleSubscriptionUpdated` for the row found by Paddle id. */
    method HandleUpdated(tenant: Id, items: Option<seq<Item>>, custom: Option<string>, interval: Option<Interval>, status: Status)
      returns (ghost table: AddonTable)
      requires planLookup == PlanLookup(prices) && addonLookup == AddonLookup(prices)
      modifies this`subs
      ensures subs == Handle(old(subs), WebhookUpdated(tenant, TierFor(PlanLookup(prices), items, custom), interval, status, table))
      ensures items.Some? && Consistent(PayloadWrites(AddonLookup(prices), items.value)) ==>
                table == Synced(PayloadWrites(AddonLookup(prices), items.value))
      ensures items.None? && tenant in old(subs) ==> table == old(subs)[tenant].addons
    {
      table := if items.Some? then Synced(PayloadWrites(addonLookup, items.value)) else map[];
      if tenant !in subs {
        return;
      }
      var tier := ExtractPlanTier(planLookup, items, custom);
      subs := subs[tenant := Upgraded(subs[tenant], tier, interval).(status := status)];
      var synced := SyncAddons(addonLookup, items, subs[tenant].addons);
      table := synced;
      subs := subs[tenant := subs[tenant].(addons := synced)];
      var rows := StoredRows(tenant);
      Recalculate(tenant, rows);
    }

    /** past_due, paused, resumed and canceled webhooks, cancelling and reactivating: only the status is stored. */
    method SetStatus(tenant: Id, status: Status)
      modifies this`subs
      ensures subs == Handle(old(subs), StatusChanged(tenant, status))
    {
      if tenant in subs {
        subs := subs[tenant := subs[tenant].(status := status)];
      }
    }

    /** `changePlan` with the counts `u`; `paddleOk` is the answer of the Paddle call. */
    method ChangePlan(tenant: Id, u: Usage, rows: seq<Addon>, newTier: Tier, interval: Interval, paddleOk: bool)
      returns (r: Result<seq<Line>, Failure>)
      requires tenant in subs ==> Lists(rows, subs[tenant].addons)
      modifies this`subs
      ensures tenant !in old(subs) ==> r == Err(NotFound)
      ensures tenant in old(subs) ==>
                var outcome := ChangeOutcome(prices, old(subs)[tenant], rows, u, newTier, interval);
                r == if outcome.Ok? && !paddleOk then Err(Conflict) else outcome
      ensures subs == if r.Ok? && old(subs)[tenant].status == Cancelled
                      then Handle(old(subs), StatusChanged(tenant, Active)) else old(subs)
    {
      if tenant !in subs {
        return Err(NotFound);
      }
      var s := subs[tenant];
      if s.paddleId.None? || s.tier == Trial {
        return Err(BadRequest);
      }
      if IsDowngrade(s.tier, newTier) {
        var valid := ValidateDowngrade(u, newTier, rows, s.addons);
        if valid.Err? {
          return Err(valid.error);
        }
      }
      r := BuildAllPaddleItems(prices, newTier, interval, rows);
      if r.Ok? && !paddleOk {
        return Err(Conflict);
      }
      if r.Ok? && s.status == Cancelled {
        SetStatus(tenant, Active);
      }
    }

    /** `manageAddon`; `rows` are the stored addons it reads, `paddleOk` is the answer of the Paddle call that precedes the writes. */
    method ManageAddon(tenant: Id, rows: seq<Addon>, resource: string, quantity: nat, paddleOk: bool)
      returns (r: Result<string, Failure>)
      requires KnownResource(resource)
      requires tenant in subs ==> Lists(rows, subs[tenant].addons)
      modifies this`subs
      ensures r == if tenant in old(subs) then AddonOutcome(prices, old(subs)[tenant], rows, resource, quantity, paddleOk)
                   else Err(NotFound)
      ensures subs == if r.Ok? then Handle(old(subs), AddonManaged(tenant, resource, quantity, r.value)) else old(subs)
    {
      if tenant !in subs {
        return Err(NotFound);
      }
      var s := subs[tenant];
      if s.tier == Trial {
        return Err(BadRequest);
      }
      var id := AddonId(prices, resource);
      if id.None? {
        return Err(BadRequest);
      }
      if s.paddleId.Some? {
        var speculative := Speculative(rows, resource, quantity);
        var items := BuildAllPaddleItems(prices, s.tier, if s.interval.Some? then s.interval.value else Monthly, speculative);
        if items.Err? {
          return Err(items.error);
        }
        if !paddleOk {
          return Err(Conflict);
        }
      }
      StoreAddon(tenant, resource, quantity, id.value);
      return Ok(id.value);
    }

    /** The writes of `manageAddon`, once Paddle has confirmed. */
    method StoreAddon(tenant: Id, resource: string, quantity: nat, priceId: string)
      requires tenant in subs
      modifies this`subs
      ensures subs == Handle(old(subs), AddonManaged(tenant, resource, quantity, priceId))
    {
      var s := subs[tenant];
      if quantity == 0 {
        subs := subs[tenant := s.(addons := s.addons - {resource})];
      } else {
        subs := subs[tenant := s.(addons := s.addons[resource := AddonRow(quantity, priceId)])];
      }
      var rows := StoredRows(tenant);
      Recalculate(tenant, rows);
    }
  }

  lemma ListOneMore(rows: seq<Addon>, table: AddonTable, rest: set<string>, r: string)
    requires rest <= table.Keys && r in rest && Lists(rows, table - rest)
    ensures Lists(rows + [Addon(r, table[r].quantity)], table - (rest - {r}))
  {
    var rows', table' := rows + [Addon(r, table[r].quantity)], table - (rest - {r});
    forall x | x in table'
      ensures exists i :: 0 <= i < |rows'| && rows'[i].resource == x
    {
      if x == r {
        assert rows'[|rows|].resource == x;
      } else {
        assert x in table - rest;
        var i :| 0 <= i < |rows| && rows[i].resource == x;
        assert rows'[i].resource == x;
      }
    }
  }
}
