/** Reading back printed items recovers the tier and the addons: exactly when the configured price ids allow it. */
module BillingRoundTrip {
  import opened Domain
  import opened Plans
  import opened Billing

  /** The webhook item that mirrors a printed line; its price carries no plan metadata. */
  function Mirror(l: Line): Item {
    Item(Some(l.priceId), None, Some(l.quantity))
  }

  function Webhook(lines: seq<Line>): (items: seq<Item>)
    ensures |items| == |lines|
  {
    seq(|lines|, i requires 0 <= i < |lines| => Mirror(lines[i]))
  }

  /** The addon rows of a subscription: known resources, each once. */
  predicate AddonRows(addons: seq<Addon>) {
    && (forall i :: 0 <= i < |addons| ==> KnownResource(addons[i].resource))
    && forall i, j :: 0 <= i < j < |addons| ==> addons[i].resource != addons[j].resource
  }

  /** `table` holds exactly the addons of positive quantity, under their price ids. */
  ghost predicate HoldsPositive(p: Prices, addons: seq<Addon>, table: AddonTable) {
    && (forall i :: 0 <= i < |addons| && addons[i].quantity > 0 ==>
          && addons[i].resource in table && table[addons[i].resource].quantity == addons[i].quantity
          && AddonId(p, addons[i].resource) == Some(table[addons[i].resource].priceId))
    && forall r :: r in table ==> exists i :: 0 <= i < |addons| && addons[i].resource == r && addons[i].quantity > 0
  }

  ghost predicate Recovered(p: Prices, t: Tier, addons: seq<Addon>, lines: seq<Line>) {
    var writes := PayloadWrites(AddonLookup(p), Webhook(lines));
    && FirstTier(PlanLookup(p), Webhook(lines)) == Some(t)
    && Consistent(writes) && HoldsPositive(p, addons, Synced(writes))
  }

  /** Whatever can be printed is recovered. */
  ghost predicate RoundTrips(p: Prices) {
    forall t, i, addons :: AddonRows(addons) && Printed(p, t, i, addons).Ok? ==>
      Recovered(p, t, addons, Printed(p, t, i, addons).value)
  }

  // ----- Conditions on the configuration -----

  predicate PlanIdReadsBack(p: Prices, t: Tier, i: Interval) {
    PlanId(p, t, i).Some? ==>
      var id := PlanId(p, t, i).value;
      && id in PlanLookup(p) && TierOfKey(PlanLookup(p)[id]) == Some(t)
      && !(id in AddonLookup(p) && AddonLookup(p)[id] != "")
  }

  predicate AddonIdReadsBack(p: Prices, r: string) {
    AddonId(p, r).Some? ==> AddonId(p, r).value in AddonLookup(p) && AddonLookup(p)[AddonId(p, r).value] == r
  }

  /** Every id in use reads back as its own tier or resource, and no plan id reads back as an addon. */
  ghost predicate IdsReadBack(p: Prices) {
    (forall t, i :: PlanIdReadsBack(p, t, i)) && (forall r :: KnownResource(r) ==> AddonIdReadsBack(p, r))
  }

  // ----- Sufficiency -----

  /** The writes expected from the printed addons. */
  function ExpectedWrites(p: Prices, addons: seq<Addon>): seq<Write>
    requires AddonLines(p, addons).Ok?
  {
    if addons == [] then []
    else
      var rest, a := ExpectedWrites(p, addons[..|addons| - 1]), addons[|addons| - 1];
      if a.quantity == 0 then rest else rest + [Upsert(a.resource, AddonRow(a.quantity, AddonId(p, a.resource).value))]
  }

  lemma {:induction false} PayloadIsExpected(p: Prices, plan: Line, addons: seq<Addon>)
    requires AddonLines(p, addons).Ok? && (forall k :: 0 <= k < |addons| ==> AddonIdReadsBack(p, addons[k].resource) && addons[k].resource != "")
    requires !(plan.priceId in AddonLookup(p) && AddonLookup(p)[plan.priceId] != "")
    ensures PayloadWrites(AddonLookup(p), Webhook([plan] + AddonLines(p, addons).value)) == ExpectedWrites(p, addons)
  {
    var lookup := AddonLookup(p);
    if addons == [] {
      var items := Webhook([plan] + []);
      assert items == [Mirror(plan)];
      assert PayloadWrites(lookup, items[..0]) == [];
    } else {
      var n := |addons| - 1;
      PayloadIsExpected(p, plan, addons[..n]);
      var before := [plan] + AddonLines(p, addons[..n]).value;
      var a := addons[n];
      if a.quantity > 0 {
        var line := Line(AddonId(p, a.resource).value, a.quantity);
        assert [plan] + AddonLines(p, addons).value == before + [line];
        assert Webhook(before + [line]) == Webhook(before) + [Mirror(line)];
        assert (Webhook(before) + [Mirror(line)])[..|before|] == Webhook(before);
        assert AddonIdReadsBack(p, addons[n].resource);
      }
    }
  }

  predicate IsWriteOf(p: Prices, w: Write, a: Addon) {
    a.quantity > 0 && AddonId(p, a.resource).Some? && w == Upsert(a.resource, AddonRow(a.quantity, AddonId(p, a.resource).value))
  }

  predicate Justified(p: Prices, w: Write, addons: seq<Addon>) {
    exists i :: 0 <= i < |addons| && IsWriteOf(p, w, addons[i])
  }

  predicate Written(p: Prices, a: Addon, writes: seq<Write>) {
    exists k :: 0 <= k < |writes| && IsWriteOf(p, writes[k], a)
  }

  lemma {:induction false} ExpectedFromAddons(p: Prices, addons: seq<Addon>)
    requires AddonLines(p, addons).Ok?
    ensures forall k :: 0 <= k < |ExpectedWrites(p, addons)| ==> Justified(p, ExpectedWrites(p, addons)[k], addons)
    ensures forall i :: 0 <= i < |addons| && addons[i].quantity > 0 ==> Written(p, addons[i], ExpectedWrites(p, addons))
  {
    if addons != [] {
      var n := |addons| - 1;
      ExpectedFromAddons(p, addons[..n]);
      var before, writes := ExpectedWrites(p, addons[..n]), ExpectedWrites(p, addons);
      forall k | 0 <= k < |writes|
        ensures Justified(p, writes[k], addons)
      {
        if k < |before| {
          assert writes[k] == before[k] && Justified(p, before[k], addons[..n]);
          var i :| 0 <= i < n && IsWriteOf(p, before[k], addons[..n][i]);
          assert IsWriteOf(p, writes[k], addons[i]);
        } else {
          assert IsWriteOf(p, writes[k], addons[n]);
        }
      }
      forall i | 0 <= i < |addons| && addons[i].quantity > 0
        ensures Written(p, addons[i], writes)
      {
        if i < n {
          assert addons[..n][i] == addons[i] && Written(p, addons[..n][i], before);
          var k :| 0 <= k < |before| && IsWriteOf(p, before[k], addons[..n][i]);
          assert IsWriteOf(p, writes[k], addons[i]);
        } else {
          assert IsWriteOf(p, writes[|before|], addons[n]);
        }
      }
    }
  }

  lemma OneRowPerResource(addons: seq<Addon>, i: int, j: int)
    requires AddonRows(addons) && 0 <= i < |addons| && 0 <= j < |addons| && addons[i].resource == addons[j].resource
    ensures i == j
  {
  }

  lemma ExpectedIsConsistent(p: Prices, addons: seq<Addon>)
    requires AddonLines(p, addons).Ok? && AddonRows(addons)
    ensures Consistent(ExpectedWrites(p, addons))
  {
    var writes := ExpectedWrites(p, addons);
    ExpectedFromAddons(p, addons);
    forall k, l | 0 <= k < |writes| && 0 <= l < |writes| && writes[k].resource == writes[l].resource
      ensures writes[k] == writes[l]
    {
      assert Justified(p, writes[k], addons) && Justified(p, writes[l], addons);
      var i :| 0 <= i < |addons| && IsWriteOf(p, writes[k], addons[i]);
      var j :| 0 <= j < |addons| && IsWriteOf(p, writes[l], addons[j]);
      OneRowPerResource(addons, i, j);
    }
  }

  lemma ExpectedHoldsPositive(p: Prices, addons: seq<Addon>)
    requires AddonLines(p, addons).Ok? && AddonRows(addons)
    ensures HoldsPositive(p, addons, Synced(ExpectedWrites(p, addons)))
  {
    var writes := ExpectedWrites(p, addons);
    var table := Synced(writes);
    ExpectedIsConsistent(p, addons);
    ExpectedFromAddons(p, addons);
    PerformedReflects(map[], writes);
    forall i | 0 <= i < |addons| && addons[i].quantity > 0
      ensures addons[i].resource in table && table[addons[i].resource].quantity == addons[i].quantity
      ensures AddonId(p, addons[i].resource) == Some(table[addons[i].resource].priceId)
    {
      assert Written(p, addons[i], writes);
      var k :| 0 <= k < |writes| && IsWriteOf(p, writes[k], addons[i]);
      assert Reflects(table, writes[k]);
    }
    forall r | r in table
      ensures exists i :: 0 <= i < |addons| && addons[i].resource == r && addons[i].quantity > 0
    {
      assert r !in Resources(writes) ==> AgreeAt(table, map[], r);
      var k :| 0 <= k < |writes| && writes[k].resource == r;
      assert Justified(p, writes[k], addons);
      var i :| 0 <= i < |addons| && IsWriteOf(p, writes[k], addons[i]);
    }
  }

  lemma PrintedIsRecovered(p: Prices, t: Tier, i: Interval, addons: seq<Addon>)
    requires IdsReadBack(p) && AddonRows(addons) && Printed(p, t, i, addons).Ok?
    ensures Recovered(p, t, addons, Printed(p, t, i, addons).value)
  {
    var lines := Printed(p, t, i, addons).value;
    var plan := Line(PlanId(p, t, i).value, 1);
    assert PlanIdReadsBack(p, t, i);
    PayloadIsExpected(p, plan, addons);
    ExpectedIsConsistent(p, addons);
    ExpectedHoldsPositive(p, addons);
    assert Webhook(lines)[0] == Mirror(plan);
  }

  // ----- Necessity -----

  lemma PlanMustReadBack(p: Prices, t: Tier, i: Interval)
    requires RoundTrips(p)
    ensures PlanIdReadsBack(p, t, i)
  {
    if PlanId(p, t, i).Some? {
      var plan := Line(PlanId(p, t, i).value, 1);
      assert AddonRows([]) && Printed(p, t, i, []) == Ok([plan] + []);
      assert Recovered(p, t, [], [plan] + []);
      assert [plan] + [] == [plan];
      var items := Webhook([plan]);
      assert items == [Mirror(plan)] && items[1..] == [] && items[..0] == [];
      assert FirstTier(PlanLookup(p), items[1..]) == None;
      OneWrite(AddonLookup(p), items[0]);
      assert Synced(PayloadWrites(AddonLookup(p), items)).Keys == {};
    }
  }

  lemma OneWrite(lookup: map<string, string>, item: Item)
    ensures ResourceOf(lookup, item).None? ==> Synced(PayloadWrites(lookup, [item])) == map[]
    ensures ResourceOf(lookup, item).Some? && item.quantity.Some? && item.quantity.value > 0 ==>
              Synced(PayloadWrites(lookup, [item])).Keys == {ResourceOf(lookup, item).value}
  {
    assert PayloadWrites(lookup, [item][..0]) == [];
    if ResourceOf(lookup, item).Some? {
      var w := WriteFor(lookup, item);
      assert PayloadWrites(lookup, [item]) == [w];
      assert PerformIn(map[], [w][..0]) == map[];
    }
  }

  lemma OneAddonPrints(p: Prices, r: string, t: Tier, i: Interval)
    requires PlanId(p, t, i).Some? && AddonId(p, r).Some?
    ensures Printed(p, t, i, [Addon(r, 1)]) == Ok([Line(PlanId(p, t, i).value, 1)] + [Line(AddonId(p, r).value, 1)])
  {
    var addons := [Addon(r, 1)];
    assert addons[..|addons| - 1] == [] && AddonLines(p, []) == Ok([]);
    assert [] + [Line(AddonId(p, r).value, 1)] == [Line(AddonId(p, r).value, 1)];
    assert AddonLines(p, addons) == Ok([Line(AddonId(p, r).value, 1)]);
  }

  /** An item that names no addon asks for no write. */
  lemma SkippedItem(lookup: map<string, string>, skipped: Item, item: Item)
    requires ResourceOf(lookup, skipped).None?
    ensures PayloadWrites(lookup, [skipped, item]) == PayloadWrites(lookup, [item])
  {
  }

  /** If the only addon of a payload is recovered, its id reads back as its resource. */
  lemma RecoveredReadsBack(p: Prices, r: string, plan: Line)
    requires AddonId(p, r).Some? && ResourceOf(AddonLookup(p), Mirror(plan)).None?
    requires HoldsPositive(p, [Addon(r, 1)], Synced(PayloadWrites(AddonLookup(p), [Mirror(plan), Mirror(Line(AddonId(p, r).value, 1))])))
    ensures AddonIdReadsBack(p, r)
  {
    var line := Line(AddonId(p, r).value, 1);
    SkippedItem(AddonLookup(p), Mirror(plan), Mirror(line));
    OneWrite(AddonLookup(p), Mirror(line));
    assert [Addon(r, 1)][0].resource in Synced(PayloadWrites(AddonLookup(p), [Mirror(line)]));
  }

  lemma OneAddonIsRecovered(p: Prices, r: string, t: Tier, i: Interval)
    requires RoundTrips(p) && KnownResource(r) && PlanId(p, t, i).Some? && AddonId(p, r).Some?
    ensures HoldsPositive(p, [Addon(r, 1)], Synced(PayloadWrites(AddonLookup(p),
              [Mirror(Line(PlanId(p, t, i).value, 1)), Mirror(Line(AddonId(p, r).value, 1))])))
  {
    hide PlanId, AddonId, PayloadWrites, FirstTier, Synced, HoldsPositive;
    var addons, plan, line := [Addon(r, 1)], Line(PlanId(p, t, i).value, 1), Line(AddonId(p, r).value, 1);
    OneAddonPrints(p, r, t, i);
    assert AddonRows(addons) && Recovered(p, t, addons, [plan] + [line]);
    assert Webhook([plan] + [line]) == [Mirror(plan), Mirror(line)];
  }

  lemma AddonMustReadBack(p: Prices, r: string, t: Tier, i: Interval)
    requires RoundTrips(p) && KnownResource(r) && PlanId(p, t, i).Some?
    ensures AddonIdReadsBack(p, r)
  {
    if AddonId(p, r).Some? {
      OneAddonIsRecovered(p, r, t, i);
      PlanMustReadBack(p, t, i);
      RecoveredReadsBack(p, r, Line(PlanId(p, t, i).value, 1));
    }
  }

  /** Printing and reading back are inverse exactly when the ids in use read back. */
  lemma RoundTripsIff(p: Prices, t: Tier, i: Interval)
    requires PlanId(p, t, i).Some?
    ensures RoundTrips(p) <==> IdsReadBack(p)
  {
    if RoundTrips(p) {
      forall t', i'
        ensures PlanIdReadsBack(p, t', i')
      {
        PlanMustReadBack(p, t', i');
      }
      forall r | KnownResource(r)
        ensures AddonIdReadsBack(p, r)
      {
        AddonMustReadBack(p, r, t, i);
      }
    }
    if IdsReadBack(p) {
      forall t', i', addons | AddonRows(addons) && Printed(p, t', i', addons).Ok?
        ensures Recovered(p, t', addons, Printed(p, t', i', addons).value)
      {
        PrintedIsRecovered(p, t', i', addons);
      }
    }
  }

  // ----- Injective price maps read back -----

  /** The keys of an effective price map: configured or default. */
  predicate Injective(config: Entries, defaults: Entries) {
    forall i, j :: 0 <= i < |defaults + config| && 0 <= j < |defaults + config| ==>
      var a, b := (defaults + config)[i].0, (defaults + config)[j].0;
      EffectiveId(config, defaults, a).Some? && EffectiveId(config, defaults, a) == EffectiveId(config, defaults, b) ==> a == b
  }

  predicate DistinctKeys(es: Entries) {
    forall i, j :: 0 <= i < j < |es| ==> es[i].0 != es[j].0
  }

  predicate DistinctIds(es: Entries) {
    forall i, j :: 0 <= i < j < |es| ==> es[i].1 != es[j].1
  }

  lemma {:induction false} GetFinds(es: Entries, key: string)
    requires DistinctKeys(es)
    ensures Get(es, key).Some? ==> exists i :: 0 <= i < |es| && es[i] == (key, Get(es, key).value)
    ensures forall i :: 0 <= i < |es| && es[i].0 == key ==> Get(es, key) == Some(es[i].1)
  {
    if es != [] {
      var n := |es| - 1;
      GetFinds(es[..n], key);
      if es[n].0 == key {
        assert es[n] == (key, es[n].1);
      } else if Get(es[..n], key).Some? {
        var i :| 0 <= i < n && es[..n][i] == (key, Get(es, key).value);
        assert es[i] == (key, Get(es, key).value);
      }
    }
  }

  /** The reverse lookup names the last entry that carries an id. */
  lemma {:induction false} ReverseFinds(es: Entries, id: string) returns (i: int)
    requires exists k :: 0 <= k < |es| && es[k].1 == id
    ensures 0 <= i < |es| && es[i].1 == id && id in Reverse(es) && Reverse(es)[id] == es[i].0
    ensures forall k :: i < k < |es| ==> es[k].1 != id
  {
    var n := |es| - 1;
    if es[n].1 == id {
      i := n;
    } else {
      var k :| 0 <= k < |es| && es[k].1 == id;
      assert es[..n][k].1 == id;
      i := ReverseFinds(es[..n], id);
    }
  }

  /** With an injective effective map, the id of a key reads back as that key. */
  lemma InjectiveReadsBack(config: Entries, defaults: Entries, key: string)
    requires DistinctKeys(config) && DistinctKeys(defaults) && DistinctIds(defaults) && Injective(config, defaults)
    requires EffectiveId(config, defaults, key).Some?
    ensures var id := EffectiveId(config, defaults, key).value;
            id in Reverse(defaults + config) && Reverse(defaults + config)[id] == key
  {
    var id, es := EffectiveId(config, defaults, key).value, defaults + config;
    GetFinds(config, key);
    GetFinds(defaults, key);
    var own: int;
    if Get(config, key).Some? {
      var i :| 0 <= i < |config| && config[i] == (key, id);
      own := |defaults| + i;
    } else {
      var i :| 0 <= i < |defaults| && defaults[i] == (key, id);
      own := i;
    }
    assert es[own] == (key, id);
    var last := ReverseFinds(es, id);
    if last >= |defaults| {
      GetFinds(config, es[last].0);
      assert config[last - |defaults|] == es[last];
      assert EffectiveId(config, defaults, es[last].0) == Some(id);
    } else {
      assert own <= last && defaults[own].1 == defaults[last].1;
    }
  }

  lemma {:induction false} BeforeUnderscoreOf(a: string, b: string)
    requires '_' !in a
    ensures BeforeUnderscore(a + "_" + b) == a
  {
    if a == "" {
      assert ("" + "_" + b)[0] == '_';
    } else {
      assert (a + "_" + b)[0] == a[0] && (a + "_" + b)[1..] == a[1..] + "_" + b;
      BeforeUnderscoreOf(a[1..], b);
    }
  }

  lemma {:induction false} UpperAt(s: string)
    ensures |Upper(s)| == |s| && forall i :: 0 <= i < |s| ==> Upper(s)[i] == ToUpper(s[i])
  {
    if s != "" {
      UpperAt(s[1..]);
    }
  }

  lemma TierNames(t: Tier)
    ensures ParseTier(Upper(LowerName(t))) == Some(t) && '_' !in LowerName(t)
  {
    var u := Upper(LowerName(t));
    UpperAt(LowerName(t));
    hide Upper;
    match t {
      case Trial => assert u == "TRIAL";
      case Starter => assert u == "STARTER";
      case Business => assert u == "BUSINESS";
      case Enterprise => assert u == "ENTERPRISE";
    }
  }

  /** The key of a plan price names its tier. */
  lemma KeyNamesTier(t: Tier, i: Interval)
    ensures TierOfKey(PriceKey(t, i)) == Some(t)
  {
    TierNames(t);
    hide ParseTier, Upper, LowerName, IntervalName;
    BeforeUnderscoreOf(LowerName(t), IntervalName(i));
  }

  lemma DefaultPlansDistinct()
    ensures DistinctKeys(DefaultPlanIds()) && DistinctIds(DefaultPlanIds())
  {
  }

  lemma DefaultAddonsDistinct()
    ensures DistinctKeys(DefaultAddonIds()) && DistinctIds(DefaultAddonIds())
  {
  }

  /** Injective price maps, and plan ids that are no addon ids, make printing and reading back inverse. */
  lemma InjectivePricesRoundTrip(p: Prices)
    requires DistinctKeys(p.plans) && DistinctKeys(p.addons)
    requires Injective(p.plans, DefaultPlanIds()) && Injective(p.addons, DefaultAddonIds())
    requires forall t, i :: PlanId(p, t, i).Some? ==> PlanId(p, t, i).value !in AddonLookup(p)
    ensures RoundTrips(p)
  {
    DefaultPlansDistinct();
    DefaultAddonsDistinct();
    forall t, i
      ensures PlanIdReadsBack(p, t, i)
    {
      if PlanId(p, t, i).Some? {
        InjectiveReadsBack(p.plans, DefaultPlanIds(), PriceKey(t, i));
        KeyNamesTier(t, i);
      }
    }
    forall r | KnownResource(r)
      ensures AddonIdReadsBack(p, r)
    {
      if AddonId(p, r).Some? {
        InjectiveReadsBack(p.addons, DefaultAddonIds(), r);
      }
    }
    forall t, i, addons | AddonRows(addons) && Printed(p, t, i, addons).Ok?
      ensures Recovered(p, t, addons, Printed(p, t, i, addons).value)
    {
      PrintedIsRecovered(p, t, i, addons);
    }
  }

  // ----- The ids without configuration -----

  /** The default plan ids, spelled out; a trial has none. */
  function DefaultPlanId(t: Tier, i: Interval): Option<string> {
    match (t, i)
    case (Starter, Monthly) => Some("pri_starter_monthly")
    case (Starter, Yearly) => Some("pri_starter_yearly")
    case (Business, Monthly) => Some("pri_business_monthly")
    case (Business, Yearly) => Some("pri_business_yearly")
    case (Enterprise, Monthly) => Some("pri_enterprise_monthly")
    case (Enterprise, Yearly) => Some("pri_enterprise_yearly")
    case _ => None
  }

  lemma KeyTexts()
    ensures PriceKey(Starter, Monthly) == "starter_monthly" && PriceKey(Starter, Yearly) == "starter_yearly"
    ensures PriceKey(Business, Monthly) == "business_monthly" && PriceKey(Business, Yearly) == "business_yearly"
    ensures PriceKey(Enterprise, Monthly) == "enterprise_monthly" && PriceKey(Enterprise, Yearly) == "enterprise_yearly"
    ensures PriceKey(Trial, Monthly) == "trial_monthly" && PriceKey(Trial, Yearly) == "trial_yearly"
  {
  }

  lemma DefaultPlanIdIs(t: Tier, i: Interval)
    ensures PlanId(Prices([], []), t, i) == DefaultPlanId(t, i)
  {
    KeyTexts();
    DefaultPlansDistinct();
    var es, key := DefaultPlanIds(), PriceKey(t, i);
    GetFinds(es, key);
    assert Get([], key) == None;
    hide PriceKey, Get;
    match (t, i)
    case (Starter, Monthly) => assert es[0].0 == key;
    case (Starter, Yearly) => assert es[1].0 == key;
    case (Business, Monthly) => assert es[2].0 == key;
    case (Business, Yearly) => assert es[3].0 == key;
    case (Enterprise, Monthly) => assert es[4].0 == key;
    case (Enterprise, Yearly) => assert es[5].0 == key;
    case _ =>
  }

  /** The default ids of the four addons, and none for anything else. */
  lemma DefaultAddonIdIs(r: string)
    ensures AddonId(Prices([], []), r) ==
            match r
            case "branches" => Some("pri_addon_branches")
            case "workPosts" => Some("pri_addon_work_posts")
            case "users" => Some("pri_addon_users")
            case "services" => Some("pri_addon_services")
            case _ => None
  {
    DefaultAddonsDistinct();
    var es := DefaultAddonIds();
    GetFinds(es, r);
    assert Get([], r) == None;
    assert es[0].0 == "branches" && es[1].0 == "workPosts" && es[2].0 == "users" && es[3].0 == "services";
    hide Get;
  }

  // ----- What a payload says -----

  /** Tier texts are the upper-case names, and nothing else. */
  lemma ParseTierIff(name: string, t: Tier)
    ensures ParseTier(name) == Some(t) <==> name == Upper(LowerName(t))
  {
    TierNames(t);
    UpperAt(LowerName(t));
    var u := Upper(LowerName(t));
    hide Upper;
    match t {
      case Trial => assert u == "TRIAL";
      case Starter => assert u == "STARTER";
      case Business => assert u == "BUSINESS";
      case Enterprise => assert u == "ENTERPRISE";
    }
  }

  /** An item names the tier of its metadata, if that is a tier; else that of the key of its price, up to the first underscore. */
  lemma ItemNamesTier(lookup: map<string, string>, item: Item, t: Tier, rest: string)
    ensures item.planTier == Some(Upper(LowerName(t))) ==> TierOfItem(lookup, item) == Some(t)
    ensures (item.planTier.None? || ParseTier(item.planTier.value).None?) && item.priceId.Some? && item.priceId.value != ""
            && item.priceId.value in lookup && lookup[item.priceId.value] == LowerName(t) + "_" + rest ==>
              TierOfItem(lookup, item) == Some(t)
    ensures (item.planTier.None? || ParseTier(item.planTier.value).None?)
            && (item.priceId.None? || item.priceId.value == "" || item.priceId.value !in lookup) ==>
              TierOfItem(lookup, item) == None
  {
    TierNames(t);
    hide ParseTier, Upper, LowerName;
    BeforeUnderscoreOf(LowerName(t), rest);
  }

  /** Without an item that names one, the subscription's own text is the tier, if it is one; else Starter. */
  lemma TierWithoutItems(lookup: map<string, string>, custom: Option<string>)
    ensures forall t :: custom == Some(Upper(LowerName(t))) ==> TierFor(lookup, None, custom) == t
    ensures (forall t :: custom != Some(Upper(LowerName(t)))) ==> TierFor(lookup, None, custom) == Starter
  {
    forall t
      ensures ParseTier(Upper(LowerName(t))) == Some(t)
    {
      TierNames(t);
    }
    if custom.Some? && ParseTier(custom.value).Some? {
      ParseTierIff(custom.value, ParseTier(custom.value).value);
    }
    hide ParseTier, Upper, LowerName;
  }

  /** The first item that names a tier decides; without one it is as if there were no items. */
  lemma {:induction false} TierIsFirstNamed(lookup: map<string, string>, items: seq<Item>, custom: Option<string>)
    ensures forall n :: 0 <= n < |items| && TierOfItem(lookup, items[n]).Some?
                        && (forall m :: 0 <= m < n ==> TierOfItem(lookup, items[m]).None?) ==>
              TierFor(lookup, Some(items), custom) == TierOfItem(lookup, items[n]).value
    ensures (forall n :: 0 <= n < |items| ==> TierOfItem(lookup, items[n]).None?) ==>
              TierFor(lookup, Some(items), custom) == TierFor(lookup, None, custom)
    decreases |items|
  {
    hide ParseTier, TierOfItem;
    if items != [] {
      assert forall n :: 0 <= n < |items| - 1 ==> items[1..][n] == items[n + 1];
      TierIsFirstNamed(lookup, items[1..], custom);
    }
  }

  /** The addon that an item buys: its price id, not empty, is that of a named resource, and its quantity is positive. */
  predicate Buys(lookup: map<string, string>, item: Item, r: string, row: AddonRow) {
    && item.priceId == Some(row.priceId) && row.priceId != "" && row.priceId in lookup && lookup[row.priceId] == r && r != ""
    && item.quantity == Some(row.quantity) && row.quantity > 0
  }

  predicate SomeItemBuys(lookup: map<string, string>, items: seq<Item>, r: string, row: AddonRow) {
    exists n :: 0 <= n < |items| && Buys(lookup, items[n], r, row)
  }

  lemma {:induction false} WritesAreBought(lookup: map<string, string>, items: seq<Item>, r: string, row: AddonRow)
    ensures Upsert(r, row) in PayloadWrites(lookup, items) <==> SomeItemBuys(lookup, items, r, row)
    ensures SomeItemBuys(lookup, items, r, row) ==> r in Resources(PayloadWrites(lookup, items))
  {
    if items != [] {
      var n := |items| - 1;
      WritesAreBought(lookup, items[..n], r, row);
      assert SomeItemBuys(lookup, items, r, row) <==> SomeItemBuys(lookup, items[..n], r, row) || Buys(lookup, items[n], r, row) by {
        assert forall i :: 0 <= i < n ==> items[..n][i] == items[i];
      }
      var before, writes := PayloadWrites(lookup, items[..n]), PayloadWrites(lookup, items);
      if ResourceOf(lookup, items[n]).Some? {
        assert writes == before + [WriteFor(lookup, items[n])] && writes[|before|] == WriteFor(lookup, items[n]);
        assert writes[..|before|] == before;
        ResourcesGrow(writes, |before|);
      }
      assert Upsert(r, row) in writes <==> Upsert(r, row) in before || Buys(lookup, items[n], r, row);
    }
  }

  /** A payload without rival writes leaves exactly the addons that its items buy, each with its quantity and price id. */
  lemma SyncedIsBought(lookup: map<string, string>, items: seq<Item>, r: string, row: AddonRow)
    requires Consistent(PayloadWrites(lookup, items))
    ensures var table := Synced(PayloadWrites(lookup, items));
            r in table && table[r] == row <==> SomeItemBuys(lookup, items, r, row)
  {
    var writes := PayloadWrites(lookup, items);
    var table := Synced(writes);
    WritesAreBought(lookup, items, r, row);
    PerformedReflects(map[], writes);
    hide PayloadWrites, Synced, SomeItemBuys;
    if r in table && table[r] == row {
      assert r !in Resources(writes) ==> AgreeAt(table, map[], r);
      var k :| 0 <= k < |writes| && writes[k].resource == r;
      assert Reflects(table, writes[k]);
      assert writes[k] == Upsert(r, row);
    }
    if Upsert(r, row) in writes {
      var k :| 0 <= k < |writes| && writes[k] == Upsert(r, row);
      assert Reflects(table, writes[k]);
    }
  }

  // ----- A configuration that does not read back -----

  /** The monthly Business plan overridden with the default id of monthly Starter. */
  function SharedId(): Prices {
    Prices([("business_monthly", "pri_starter_monthly")], [])
  }

  /** A concrete configuration under which a monthly Starter subscription is read back as Business. */
  lemma SharedIdIsMisread()
    ensures PlanId(SharedId(), Starter, Monthly) == Some("pri_starter_monthly")
    ensures FirstTier(PlanLookup(SharedId()), Webhook([Line("pri_starter_monthly", 1)])) == Some(Business)
    ensures !RoundTrips(SharedId())
  {
    var p, id := SharedId(), "pri_starter_monthly";
    GetFinds(DefaultPlanIds(), "starter_monthly");
    assert PriceKey(Starter, Monthly) == "starter_monthly" && DefaultPlanIds()[0] == ("starter_monthly", id);
    assert p.plans[..0] == [] && Get(p.plans, "starter_monthly") == None;
    assert (DefaultPlanIds() + p.plans)[6] == ("business_monthly", id) && "business_monthly" == PriceKey(Business, Monthly);
    KeyNamesTier(Business, Monthly);
    hide TierOfKey, RoundTrips;
    if RoundTrips(p) {
      PlanMustReadBack(p, Starter, Monthly);
    }
  }
}
