/**
 * Printing a subscription as Paddle items (`buildAllPaddleItems` of subscriptions.service.ts) and
 * reading items back from a webhook (`extractPlanTier`, `syncAddonsFromPaddleItems` of
 * paddle-webhook.service.ts).
 */
module Billing {
  import opened Domain
  import opened Plans

  /** The entries of a JSON object, in insertion order; keys occur once. */
  type Entries = seq<(string, string)>

  /** The configured overrides `paddle.priceIds` and `paddle.addonPriceIds`. */
  datatype Prices = Prices(plans: Entries, addons: Entries)

  function Get(es: Entries, key: string): Option<string> {
    if es == [] then None
    else if es[|es| - 1].0 == key then Some(es[|es| - 1].1)
    else Get(es[..|es| - 1], key)
  }

  function DefaultPlanIds(): Entries {
    [("starter_monthly", "pri_starter_monthly"), ("starter_yearly", "pri_starter_yearly"),
     ("business_monthly", "pri_business_monthly"), ("business_yearly", "pri_business_yearly"),
     ("enterprise_monthly", "pri_enterprise_monthly"), ("enterprise_yearly", "pri_enterprise_yearly")]
  }

  function DefaultAddonIds(): Entries {
    [("branches", "pri_addon_branches"), ("workPosts", "pri_addon_work_posts"),
     ("users", "pri_addon_users"), ("services", "pri_addon_services")]
  }

  // ----- Printing -----

  function LowerName(t: Tier): string {
    match t case Trial => "trial" case Starter => "starter" case Business => "business" case Enterprise => "enterprise"
  }

  function IntervalName(i: Interval): string {
    match i case Monthly => "monthly" case Yearly => "yearly"
  }

  function PriceKey(t: Tier, i: Interval): string {
    LowerName(t) + "_" + IntervalName(i)
  }

  /** Overrides take priority; a missing or empty id is an error. */
  function EffectiveId(config: Entries, defaults: Entries, key: string): Option<string> {
    var id := if Get(config, key).Some? then Get(config, key) else Get(defaults, key);
    if id == Some("") then None else id
  }

  function PlanId(p: Prices, t: Tier, i: Interval): Option<string> {
    EffectiveId(p.plans, DefaultPlanIds(), PriceKey(t, i))
  }

  function AddonId(p: Prices, resource: string): Option<string> {
    EffectiveId(p.addons, DefaultAddonIds(), resource)
  }

  datatype Line = Line(priceId: string, quantity: nat)

  /** A stored addon: resource and quantity. */
  datatype Addon = Addon(resource: string, quantity: nat)

  function AddonLines(p: Prices, addons: seq<Addon>): Result<seq<Line>, Failure> {
    if addons == [] then Ok([])
    else
      match AddonLines(p, addons[..|addons| - 1])
      case Err(f) => Err(f)
      case Ok(lines) =>
        var a := addons[|addons| - 1];
        if a.quantity == 0 then Ok(lines)
        else if AddonId(p, a.resource).None? then Err(BadRequest)
        else Ok(lines + [Line(AddonId(p, a.resource).value, a.quantity)])
  }

  function Printed(p: Prices, t: Tier, i: Interval, addons: seq<Addon>): Result<seq<Line>, Failure> {
    if PlanId(p, t, i).None? then Err(BadRequest)
    else
      match AddonLines(p, addons)
      case Err(f) => Err(f)
      case Ok(lines) => Ok([Line(PlanId(p, t, i).value, 1)] + lines)
  }

  lemma {:induction false} PrefixPrints(p: Prices, addons: seq<Addon>, n: int)
    requires 0 <= n <= |addons| && AddonLines(p, addons[..n]) == Err(BadRequest)
    ensures AddonLines(p, addons) == Err(BadRequest)
    decreases |addons|
  {
    if n == |addons| {
      assert addons[..n] == addons;
    } else {
      assert addons[..|addons| - 1][..n] == addons[..n];
      PrefixPrints(p, addons[..|addons| - 1], n);
    }
  }

  method BuildAllPaddleItems(p: Prices, t: Tier, i: Interval, addons: seq<Addon>) returns (r: Result<seq<Line>, Failure>)
    ensures r == Printed(p, t, i, addons)
  {
    var planId := PlanId(p, t, i);
    if planId.None? {
      return Err(BadRequest);
    }
    var items := [Line(planId.value, 1)];
    for n := 0 to |addons|
      invariant AddonLines(p, addons[..n]).Ok? && items == [Line(planId.value, 1)] + AddonLines(p, addons[..n]).value
    {
      assert addons[..n + 1][..n] == addons[..n];
      if addons[n].quantity > 0 {
        var id := AddonId(p, addons[n].resource);
        if id.None? {
          assert AddonLines(p, addons[..n + 1]) == Err(BadRequest);
          PrefixPrints(p, addons, n + 1);
          return Err(BadRequest);
        }
        items := items + [Line(id.value, addons[n].quantity)];
      }
    }
    assert addons[..|addons|] == addons;
    return Ok(items);
  }

  /** A configured id that is not empty is used; without one the default is; an empty one, or none at all, is an error. */
  lemma OverrideWins(config: Entries, defaults: Entries, key: string, id: string)
    ensures EffectiveId(config + [(key, id)], defaults, key) == if id == "" then None else Some(id)
    ensures Get(config, key).None? ==> EffectiveId(config, defaults + [(key, id)], key) == if id == "" then None else Some(id)
    ensures Get(config, key).None? && Get(defaults, key).None? ==> EffectiveId(config, defaults, key).None?
  {
    assert (config + [(key, id)])[..|config|] == config && (defaults + [(key, id)])[..|defaults|] == defaults;
  }

  lemma {:induction false} LineErrors(p: Prices, addons: seq<Addon>)
    ensures AddonLines(p, addons).Ok? <==> forall i :: 0 <= i < |addons| && addons[i].quantity > 0 ==> AddonId(p, addons[i].resource).Some?
    ensures AddonLines(p, addons).Err? ==> AddonLines(p, addons).error == BadRequest
  {
    if addons != [] {
      var n := |addons| - 1;
      LineErrors(p, addons[..n]);
      assert forall i :: 0 <= i < n ==> addons[..n][i] == addons[i];
      hide AddonId;
    }
  }

  /** Items can be printed exactly when the plan and every addon of positive quantity have an id; the plan comes first, once. */
  lemma PrintErrors(p: Prices, t: Tier, i: Interval, addons: seq<Addon>)
    ensures Printed(p, t, i, addons).Ok? <==>
            && PlanId(p, t, i).Some?
            && forall n :: 0 <= n < |addons| && addons[n].quantity > 0 ==> AddonId(p, addons[n].resource).Some?
    ensures Printed(p, t, i, addons).Err? ==> Printed(p, t, i, addons).error == BadRequest
    ensures Printed(p, t, i, addons).Ok? ==>
              Printed(p, t, i, addons).value != [] && PlanId(p, t, i) == Some(Printed(p, t, i, addons).value[0].priceId)
              && Printed(p, t, i, addons).value[0].quantity == 1
  {
    LineErrors(p, addons);
    hide PlanId, AddonId, AddonLines;
  }

  // ----- Reverse lookups -----

  /** Price id to key; later entries win. */
  function Reverse(es: Entries): map<string, string> {
    if es == [] then map[] else Reverse(es[..|es| - 1])[es[|es| - 1].1 := es[|es| - 1].0]
  }

  function PlanLookup(p: Prices): map<string, string> {
    Reverse(DefaultPlanIds() + p.plans)
  }

  function AddonLookup(p: Prices): map<string, string> {
    Reverse(DefaultAddonIds() + p.addons)
  }

  /** The loops of the webhook service's constructor. */
  method BuildLookup(defaults: Entries, config: Entries) returns (lookup: map<string, string>, ids: set<string>)
    ensures lookup == Reverse(defaults + config) && ids == lookup.Keys
  {
    lookup := map[];
    for n := 0 to |defaults|
      invariant lookup == Reverse(defaults[..n])
    {
      assert defaults[..n + 1][..n] == defaults[..n];
      lookup := lookup[defaults[n].1 := defaults[n].0];
    }
    assert defaults[..|defaults|] == defaults == defaults + config[..0];
    for n := 0 to |config|
      invariant lookup == Reverse(defaults + config[..n])
    {
      assert (defaults + config[..n + 1])[..|defaults| + n] == defaults + config[..n];
      lookup := lookup[config[n].1 := config[n].0];
    }
    assert config[..|config|] == config;
    ids := lookup.Keys;
  }

  // ----- Reading the tier -----

  /** An item of a webhook payload: price id, `plan_tier` metadata of the price, quantity. */
  datatype Item = Item(priceId: Option<string>, planTier: Option<string>, quantity: Option<int>)

  function ParseTier(name: string): Option<Tier> {
    if name == "TRIAL" then Some(Trial) else if name == "STARTER" then Some(Starter)
    else if name == "BUSINESS" then Some(Business) else if name == "ENTERPRISE" then Some(Enterprise) else None
  }

  function ToUpper(c: char): char {
    if 'a' <= c <= 'z' then (c as int - 32) as char else c
  }

  function Upper(s: string): string {
    if s == "" then "" else [ToUpper(s[0])] + Upper(s[1..])
  }

  /** `key.split('_')[0]` */
  function BeforeUnderscore(s: string): string {
    if s == "" || s[0] == '_' then "" else [s[0]] + BeforeUnderscore(s[1..])
  }

  function TierOfKey(key: string): Option<Tier> {
    if key == "" then None else ParseTier(Upper(BeforeUnderscore(key)))
  }

  function TierOfItem(lookup: map<string, string>, item: Item): Option<Tier> {
    if item.planTier.Some? && ParseTier(item.planTier.value).Some? then ParseTier(item.planTier.value)
    else if item.priceId.Some? && item.priceId.value != "" && item.priceId.value in lookup
    then TierOfKey(lookup[item.priceId.value])
    else None
  }

  /** The tier of the first item that names one. */
  function FirstTier(lookup: map<string, string>, items: seq<Item>): Option<Tier> {
    if items == [] then None
    else if TierOfItem(lookup, items[0]).Some? then TierOfItem(lookup, items[0])
    else FirstTier(lookup, items[1..])
  }

  function TierFor(lookup: map<string, string>, items: Option<seq<Item>>, custom: Option<string>): Tier {
    var fromItems := if items.Some? then FirstTier(lookup, items.value) else None;
    if fromItems.Some? then fromItems.value
    else if custom.Some? && ParseTier(custom.value).Some? then ParseTier(custom.value).value
    else Starter
  }

  method ExtractPlanTier(lookup: map<string, string>, items: Option<seq<Item>>, custom: Option<string>) returns (t: Tier)
    ensures t == TierFor(lookup, items, custom)
  {
    if items.Some? {
      var list := items.value;
      assert list[0..] == list;
      for n := 0 to |list|
        invariant FirstTier(lookup, list) == FirstTier(lookup, list[n..])
      {
        assert list[n..][1..] == list[n + 1..];
        var tier := TierOfItem(lookup, list[n]);
        if tier.Some? {
          return tier.value;
        }
      }
    }
    return if custom.Some? && ParseTier(custom.value).Some? then ParseTier(custom.value).value else Starter;
  }

  // ----- Reading the addons -----

  /** The addon resource an item names, if any. */
  function ResourceOf(lookup: map<string, string>, item: Item): Option<string> {
    if item.priceId.Some? && item.priceId.value != "" && item.priceId.value in lookup && lookup[item.priceId.value] != ""
    then Some(lookup[item.priceId.value]) else None
  }

  datatype Write = Upsert(resource: string, row: AddonRow) | Delete(resource: string)

  function AfterWrite(table: AddonTable, op: Write): AddonTable {
    match op
    case Upsert(r, row) => table[r := row]
    case Delete(r) => table - {r}
  }

  function WriteFor(lookup: map<string, string>, item: Item): Write
    requires ResourceOf(lookup, item).Some?
  {
    var r, q := ResourceOf(lookup, item).value, if item.quantity.Some? then item.quantity.value else 0;
    if q > 0 then Upsert(r, AddonRow(q, item.priceId.value)) else Delete(r)
  }

  /** The writes that the payload asks for, one per addon item. */
  function PayloadWrites(lookup: map<string, string>, items: seq<Item>): seq<Write> {
    if items == [] then []
    else
      var rest, last := PayloadWrites(lookup, items[..|items| - 1]), items[|items| - 1];
      if ResourceOf(lookup, last).Some? then rest + [WriteFor(lookup, last)] else rest
  }

  function Resources(writes: seq<Write>): set<string> {
    set i | 0 <= i < |writes| :: writes[i].resource
  }

  /** No resource is written in two different ways. */
  ghost predicate Consistent(writes: seq<Write>) {
    forall i, j :: 0 <= i < |writes| && 0 <= j < |writes| && writes[i].resource == writes[j].resource ==> writes[i] == writes[j]
  }

  /** The table after performing writes one after the other. */
  function PerformIn(table: AddonTable, order: seq<Write>): AddonTable {
    if order == [] then table else AfterWrite(PerformIn(table, order[..|order| - 1]), order[|order| - 1])
  }

  /** The rows that the payload leaves, whatever was there before: resources it does not name are stale. */
  function Synced(writes: seq<Write>): AddonTable {
    PerformIn(map[], writes)
  }

  /** `table` holds for resource `r` what the write `op` leaves there. */
  predicate Reflects(table: AddonTable, op: Write) {
    match op
    case Upsert(r, row) => r in table && table[r] == row
    case Delete(r) => r !in table
  }

  /** A write does not disturb what other writes left, as long as none of them differs on its resource. */
  lemma WriteKeepsReflected(table: AddonTable, op: Write, other: Write)
    requires other.resource == op.resource ==> other == op
    ensures Reflects(AfterWrite(table, op), op)
    ensures Reflects(table, other) ==> Reflects(AfterWrite(table, op), other)
  {
  }

  predicate AgreeAt(a: AddonTable, b: AddonTable, r: string) {
    (r in a <==> r in b) && (r in a ==> a[r] == b[r])
  }

  lemma {:induction false} PerformedReflects(table: AddonTable, order: seq<Write>)
    requires Consistent(order)
    ensures forall i :: 0 <= i < |order| ==> Reflects(PerformIn(table, order), order[i])
    ensures forall r :: r !in Resources(order) ==> AgreeAt(PerformIn(table, order), table, r)
  {
    if order != [] {
      var n := |order| - 1;
      var before := PerformIn(table, order[..n]);
      PerformedReflects(table, order[..n]);
      forall i | 0 <= i <= n
        ensures Reflects(AfterWrite(before, order[n]), order[i])
      {
        WriteKeepsReflected(before, order[n], order[i]);
        if i < n {
          assert order[..n][i] == order[i];
        }
      }
      ResourcesGrow(order, n);
    }
  }

  lemma ResourcesGrow(writes: seq<Write>, n: int)
    requires 0 <= n < |writes|
    ensures Resources(writes[..n]) <= Resources(writes) && writes[n].resource in Resources(writes)
  {
  }

  /**
   * The batch of writes, finished in any order: the payload's own, and a delete for every stored
   * addon that the payload does not name.
   */
  method SyncAddons(lookup: map<string, string>, items: Option<seq<Item>>, stored: AddonTable) returns (table: AddonTable)
    ensures items.None? ==> table == stored
    ensures items.Some? && Consistent(PayloadWrites(lookup, items.value)) ==> table == Synced(PayloadWrites(lookup, items.value))
  {
    if items.None? {
      return stored;
    }
    var list := items.value;
    var writes: seq<Write> := [];
    for n := 0 to |list|
      invariant writes == PayloadWrites(lookup, list[..n])
    {
      assert list[..n + 1][..n] == list[..n];
      if ResourceOf(lookup, list[n]).Some? {
        writes := writes + [WriteFor(lookup, list[n])];
      }
    }
    assert list[..|list|] == list;
    var stale := stored.Keys - Resources(writes);
    var pending := multiset(writes) + multiset(set r | r in stale :: Delete(r));
    table := PerformAll(stored, writes, stale, pending);
  }

  /** Every write of the batch is either still pending or visible in the table. */
  ghost predicate Performed(batch: multiset<Write>, pending: multiset<Write>, table: AddonTable) {
    forall op :: op in batch ==> op in pending || Reflects(table, op)
  }

  lemma PerformOne(batch: multiset<Write>, pending: multiset<Write>, table: AddonTable, op: Write)
    requires Performed(batch, pending, table)
    requires forall other :: other in batch && other.resource == op.resource ==> other == op
    ensures Performed(batch, pending - multiset{op}, AfterWrite(table, op))
  {
  }

  ghost function Batch(writes: seq<Write>, stale: set<string>): multiset<Write> {
    multiset(writes) + multiset(set r | r in stale :: Delete(r))
  }

  /** `Promise.all`: the pending writes are performed in an arbitrary order. */
  method PerformAll(stored: AddonTable, ghost writes: seq<Write>, ghost stale: set<string>, batch: multiset<Write>)
    returns (table: AddonTable)
    requires stale == stored.Keys - Resources(writes) && batch == Batch(writes, stale)
    ensures Consistent(writes) ==> table == Synced(writes)
  {
    var pending := batch;
    table := stored;
    while pending != multiset{}
      invariant pending <= batch
      invariant Consistent(writes) ==> Performed(batch, pending, table)
      invariant table.Keys <= stored.Keys + Resources(writes)
      decreases |pending|
    {
      var op :| op in pending;
      InBatch(writes, stale, op);
      if Consistent(writes) {
        NoRivals(writes, stale, op);
        PerformOne(batch, pending, table, op);
      }
      table, pending := AfterWrite(table, op), pending - multiset{op};
    }
    if Consistent(writes) {
      AllReflectedIsSynced(stored, writes, stale, table);
    }
  }

  lemma InBatch(writes: seq<Write>, stale: set<string>, op: Write)
    requires op in Batch(writes, stale)
    ensures op in writes || (op.Delete? && op.resource in stale)
    ensures op in writes ==> op.resource in Resources(writes)
  {
  }

  lemma NoRivals(writes: seq<Write>, stale: set<string>, op: Write)
    requires Consistent(writes) && stale !! Resources(writes) && op in Batch(writes, stale)
    ensures forall other :: other in Batch(writes, stale) && other.resource == op.resource ==> other == op
  {
  }

  lemma ReflectedAgrees(a: AddonTable, b: AddonTable, op: Write)
    requires Reflects(a, op) && Reflects(b, op)
    ensures AgreeAt(a, b, op.resource)
  {
  }

  lemma WrittenAgrees(writes: seq<Write>, table: AddonTable, r: string)
    requires r in Resources(writes) && Consistent(writes)
    requires forall op :: op in writes ==> Reflects(table, op)
    ensures AgreeAt(table, Synced(writes), r)
  {
    var i :| 0 <= i < |writes| && writes[i].resource == r;
    PerformedReflects(map[], writes);
    ReflectedAgrees(table, Synced(writes), writes[i]);
  }

  lemma AllReflectedIsSynced(stored: AddonTable, writes: seq<Write>, stale: set<string>, table: AddonTable)
    requires Consistent(writes) && stale == stored.Keys - Resources(writes)
    requires Performed(Batch(writes, stale), multiset{}, table) && table.Keys <= stored.Keys + Resources(writes)
    ensures table == Synced(writes)
  {
    var synced := Synced(writes);
    forall op | op in writes
      ensures Reflects(table, op)
    {
      assert op in Batch(writes, stale);
    }
    forall r
      ensures AgreeAt(table, synced, r)
    {
      if r in Resources(writes) {
        WrittenAgrees(writes, table, r);
      } else {
        PerformedReflects(map[], writes);
        if r in stale {
          assert Delete(r) in Batch(writes, stale) && Reflects(table, Delete(r));
        }
      }
    }
    assert forall r :: r in table ==> AgreeAt(table, synced, r);
    assert forall r :: r in synced ==> AgreeAt(table, synced, r);
  }

  // ----- When the order of the writes matters -----

  ghost predicate OrderIndependent(writes: seq<Write>) {
    forall table, p, q :: multiset(p) == multiset(writes) && multiset(q) == multiset(writes) ==>
      PerformIn(table, p) == PerformIn(table, q)
  }

  lemma SameElements(p: seq<Write>, writes: seq<Write>, i: int)
    requires multiset(p) == multiset(writes) && 0 <= i < |p|
    ensures exists j :: 0 <= j < |writes| && writes[j] == p[i]
  {
    assert p[i] in multiset(writes);
  }

  lemma PermutationStaysConsistent(p: seq<Write>, writes: seq<Write>)
    requires multiset(p) == multiset(writes) && Consistent(writes)
    ensures Consistent(p) && Resources(p) <= Resources(writes)
  {
    forall i, j | 0 <= i < |p| && 0 <= j < |p| && p[i].resource == p[j].resource
      ensures p[i] == p[j]
    {
      SameElements(p, writes, i);
      SameElements(p, writes, j);
    }
    forall r | r in Resources(p)
      ensures r in Resources(writes)
    {
      var i :| 0 <= i < |p| && p[i].resource == r;
      SameElements(p, writes, i);
    }
  }

  lemma OrdersAgree(table: AddonTable, p: seq<Write>, q: seq<Write>)
    requires multiset(p) == multiset(q) && Consistent(q)
    ensures PerformIn(table, p) == PerformIn(table, q)
  {
    var a, b := PerformIn(table, p), PerformIn(table, q);
    PermutationStaysConsistent(p, q);
    PermutationStaysConsistent(q, p);
    PerformedReflects(table, p);
    PerformedReflects(table, q);
    forall r
      ensures AgreeAt(a, b, r)
    {
      if r in Resources(p) {
        var i :| 0 <= i < |p| && p[i].resource == r;
        SameElements(p, q, i);
        ReflectedAgrees(a, b, p[i]);
      }
    }
    assert forall r :: r in a ==> AgreeAt(a, b, r);
    assert forall r :: r in b ==> AgreeAt(a, b, r);
  }

  lemma RivalsDisagree(table: AddonTable, rest: seq<Write>, x: Write, y: Write)
    requires x.resource == y.resource && x != y
    ensures PerformIn(table, rest + [x, y]) != PerformIn(table, rest + [y, x])
  {
    LastWriteWins(table, rest + [x], y);
    LastWriteWins(table, rest + [y], x);
    assert rest + [x] + [y] == rest + [x, y] && rest + [y] + [x] == rest + [y, x];
  }

  lemma LastWriteWins(table: AddonTable, order: seq<Write>, x: Write)
    ensures Reflects(PerformIn(table, order + [x]), x)
  {
  }

  lemma SetAside(writes: seq<Write>, i: int, j: int) returns (rest: seq<Write>)
    requires 0 <= i < j < |writes|
    ensures multiset(rest + [writes[i], writes[j]]) == multiset(writes)
    ensures multiset(rest + [writes[j], writes[i]]) == multiset(writes)
  {
    rest := writes[..i] + writes[i + 1..j] + writes[j + 1..];
    assert writes == writes[..i] + [writes[i]] + writes[i + 1..j] + [writes[j]] + writes[j + 1..];
  }

  /** Performing the writes in any order gives one table exactly when no resource is written in two ways. */
  lemma OrderIndependentIff(writes: seq<Write>)
    ensures OrderIndependent(writes) <==> Consistent(writes)
  {
    if Consistent(writes) {
      forall table, p, q | multiset(p) == multiset(writes) && multiset(q) == multiset(writes)
        ensures PerformIn(table, p) == PerformIn(table, q)
      {
        OrdersAgree(table, p, writes);
        OrdersAgree(table, q, writes);
      }
    } else {
      var i, j :| 0 <= i < |writes| && 0 <= j < |writes| && writes[i].resource == writes[j].resource && writes[i] != writes[j];
      var lo, hi := if i < j then i else j, if i < j then j else i;
      var rest := SetAside(writes, lo, hi);
      RivalsDisagree(map[], rest, writes[lo], writes[hi]);
    }
  }
}
