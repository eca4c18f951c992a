/**
 * Derived limits under concurrent calls. Webhook handlers, addon calls and recalculations are several
 * separately committed statements (src/modules/subscriptions/paddle-webhook.service.ts and
 * subscriptions.service.ts). A log lists the statements that touch the subscription of one tenant in the
 * order in which they are committed, whichever calls they belong to.
 */
module LimitRaces {
  import opened Domain
  import opened Plans
  import opened Billing

  /** The read of a recalculation fetches the subscription and then its addons: two statements. */
  datatype Statement =
    | WriteTier(tier: Tier)
    | WriteAddon(op: Write)
    | ReadTier(call: nat)
    | ReadAddons(call: nat)
    | StoreLimits(call: nat)

  /** The stored row, and what the recalculations under way have read. */
  datatype State = State(tier: Tier, addons: AddonTable, limits: Limits,
                         tierRead: map<nat, Tier>, addonsRead: map<nat, AddonTable>)

  predicate Coherent(s: State) {
    s.limits == LimitsFor(s.tier, s.addons)
  }

  function Execute(s: State, st: Statement): State {
    match st
    case WriteTier(t) => s.(tier := t)
    case WriteAddon(op) => s.(addons := AfterWrite(s.addons, op))
    case ReadTier(c) => s.(tierRead := s.tierRead[c := s.tier])
    case ReadAddons(c) => s.(addonsRead := s.addonsRead[c := s.addons])
    case StoreLimits(c) =>
      if c in s.tierRead && c in s.addonsRead then s.(limits := LimitsFor(s.tierRead[c], s.addonsRead[c])) else s
  }

  function ExecuteAll(s: State, log: seq<Statement>): State {
    if log == [] then s else Execute(ExecuteAll(s, log[..|log| - 1]), log[|log| - 1])
  }

  /** A recalculation stores limits after its reads. */
  predicate ReadsFirst(log: seq<Statement>) {
    log == [] ||
    (var before, last := log[..|log| - 1], log[|log| - 1];
     && ReadsFirst(before)
     && (last.StoreLimits? ==> ReadTier(last.call) in before && ReadAddons(last.call) in before))
  }

  // ----- When the limits have settled -----

  /** The call has read the tier after the last write of the tier. */
  predicate TierIsFresh(log: seq<Statement>, call: nat) {
    log != [] &&
    (var before, last := log[..|log| - 1], log[|log| - 1];
     last == ReadTier(call) || (!last.WriteTier? && TierIsFresh(before, call)))
  }

  predicate AddonsAreFresh(log: seq<Statement>, call: nat) {
    log != [] &&
    (var before, last := log[..|log| - 1], log[|log| - 1];
     last == ReadAddons(call) || (!last.WriteAddon? && AddonsAreFresh(before, call)))
  }

  /**
   * Nothing was written; or the last statement that is not a read stores limits, and the storing call
   * read the tier after the last write of the tier, and the addons after the last write of an addon.
   */
  predicate Settled(log: seq<Statement>) {
    log == [] ||
    var before, last := log[..|log| - 1], log[|log| - 1];
    match last
    case WriteTier(_) => false
    case WriteAddon(_) => false
    case StoreLimits(c) => TierIsFresh(before, c) && AddonsAreFresh(before, c)
    case _ => Settled(before)
  }

  lemma {:induction false} FreshIsCurrent(s: State, log: seq<Statement>, call: nat)
    ensures var after := ExecuteAll(s, log);
            && (TierIsFresh(log, call) ==> call in after.tierRead && after.tierRead[call] == after.tier)
            && (AddonsAreFresh(log, call) ==> call in after.addonsRead && after.addonsRead[call] == after.addons)
  {
    if log != [] {
      FreshIsCurrent(s, log[..|log| - 1], call);
    }
  }

  lemma {:induction false} SettledIsCoherent(s: State, log: seq<Statement>)
    requires Coherent(s) && Settled(log)
    ensures Coherent(ExecuteAll(s, log))
  {
    if log != [] {
      var n := |log| - 1;
      if log[n].StoreLimits? {
        FreshIsCurrent(s, log[..n], log[n].call);
      } else {
        SettledIsCoherent(s, log[..n]);
      }
    }
  }

  // ----- The same statements with other contents -----

  /** An addon write that the code can make: a known resource, a positive quantity, its own price id. */
  predicate Genuine(p: Prices, op: Write) {
    KnownResource(op.resource) && (op.Upsert? ==> op.row.quantity > 0 && AddonId(p, op.resource) == Some(op.row.priceId))
  }

  /** The same statement, except for the tier or the addon that it writes. */
  predicate Alike(p: Prices, a: Statement, b: Statement) {
    match a
    case WriteTier(_) => b.WriteTier?
    case WriteAddon(_) => b.WriteAddon? && Genuine(p, b.op)
    case _ => a == b
  }

  predicate SameShape(p: Prices, log: seq<Statement>, log': seq<Statement>) {
    |log| == |log'| && forall i :: 0 <= i < |log| ==> Alike(p, log[i], log'[i])
  }

  predicate AllGenuine(p: Prices, log: seq<Statement>) {
    forall i :: 0 <= i < |log| && log[i].WriteAddon? ==> Genuine(p, log[i].op)
  }

  lemma {:induction false} ShapeDecides(p: Prices, log: seq<Statement>, log': seq<Statement>, call: nat)
    requires SameShape(p, log, log')
    ensures TierIsFresh(log, call) <==> TierIsFresh(log', call)
    ensures AddonsAreFresh(log, call) <==> AddonsAreFresh(log', call)
    ensures Settled(log) <==> Settled(log')
    decreases |log|
  {
    if log != [] {
      var n := |log| - 1;
      assert Alike(p, log[n], log'[n]);
      ShapeDecides(p, log[..n], log'[..n], call);
      if log[n].StoreLimits? {
        ShapeDecides(p, log[..n], log'[..n], log[n].call);
      }
    }
  }

  lemma {:induction false} ReadIsKept(s: State, log: seq<Statement>, call: nat)
    ensures ReadTier(call) in log ==> call in ExecuteAll(s, log).tierRead
    ensures ReadAddons(call) in log ==> call in ExecuteAll(s, log).addonsRead
  {
    if log != [] {
      var n := |log| - 1;
      assert log == log[..n] + [log[n]];
      ReadIsKept(s, log[..n], call);
    }
  }

  lemma ExecuteOneMore(s: State, log: seq<Statement>, st: Statement)
    ensures ExecuteAll(s, log + [st]) == Execute(ExecuteAll(s, log), st)
  {
    assert (log + [st])[..|log|] == log;
  }

  lemma ShapeOneMore(p: Prices, log: seq<Statement>, before: seq<Statement>, st: Statement)
    requires log != [] && SameShape(p, log[..|log| - 1], before) && Alike(p, log[|log| - 1], st)
    ensures SameShape(p, log, before + [st])
  {
  }

  lemma ShapeRefl(p: Prices, log: seq<Statement>)
    requires AllGenuine(p, log)
    ensures SameShape(p, log, log)
  {
  }

  /** Had the last write of the tier, later than the call's read, written `t`, nothing but the tier and the limits would differ. */
  lemma {:induction false} OtherTier(p: Prices, s: State, log: seq<Statement>, call: nat, t: Tier) returns (log': seq<Statement>)
    requires AllGenuine(p, log) && ReadTier(call) in log && !TierIsFresh(log, call)
    ensures SameShape(p, log, log')
    ensures var a, b := ExecuteAll(s, log), ExecuteAll(s, log');
            && b.tier == t && b.addons == a.addons && b.addonsRead == a.addonsRead
            && call in a.tierRead && call in b.tierRead && b.tierRead[call] == a.tierRead[call]
  {
    var n := |log| - 1;
    assert log == log[..n] + [log[n]];
    ReadIsKept(s, log[..n], call);
    var before, st := log[..n], log[n];
    if log[n].WriteTier? {
      ShapeRefl(p, before);
      st := WriteTier(t);
    } else {
      before := OtherTier(p, s, log[..n], call, t);
    }
    log' := before + [st];
    ExecuteOneMore(s, before, st);
    ShapeOneMore(p, log, before, st);
  }

  function MoreBranches(p: Prices, quantity: nat): Write
    requires AddonId(p, "branches").Some?
  {
    Upsert("branches", AddonRow(quantity, AddonId(p, "branches").value))
  }

  /** Likewise for the last write of an addon. */
  lemma {:induction false} OtherAddon(p: Prices, s: State, log: seq<Statement>, call: nat, q: nat) returns (log': seq<Statement>)
    requires AllGenuine(p, log) && ReadAddons(call) in log && !AddonsAreFresh(log, call)
    requires AddonId(p, "branches").Some? && q > 0
    ensures SameShape(p, log, log')
    ensures var a, b := ExecuteAll(s, log), ExecuteAll(s, log');
            && Quantity(b.addons, "branches") == q && b.tier == a.tier && b.tierRead == a.tierRead
            && call in a.addonsRead && call in b.addonsRead && b.addonsRead[call] == a.addonsRead[call]
  {
    var n := |log| - 1;
    assert log == log[..n] + [log[n]];
    ReadIsKept(s, log[..n], call);
    var before, st := log[..n], log[n];
    if log[n].WriteAddon? {
      ShapeRefl(p, before);
      st := WriteAddon(MoreBranches(p, q));
    } else {
      before := OtherAddon(p, s, log[..n], call, q);
    }
    log' := before + [st];
    ExecuteOneMore(s, before, st);
    ShapeOneMore(p, log, before, st);
  }

  /** Two tiers, or two numbers of branches, never grant the same maxima. */
  lemma MaximaDiffer(l: Limits, addons: AddonTable, t: Tier, a: AddonTable, b: AddonTable)
    ensures l != LimitsFor(Starter, addons) || l != LimitsFor(Business, addons)
    ensures Quantity(a, "branches") != Quantity(b, "branches") ==> l != LimitsFor(t, a) || l != LimitsFor(t, b)
  {
  }

  lemma StaleTier(p: Prices, s: State, log: seq<Statement>, call: nat) returns (log': seq<Statement>)
    requires AllGenuine(p, log) && ReadTier(call) in log && ReadAddons(call) in log && !TierIsFresh(log, call)
    ensures SameShape(p, log, log') && !Coherent(Execute(ExecuteAll(s, log'), StoreLimits(call)))
  {
    ReadIsKept(s, log, call);
    var now := ExecuteAll(s, log);
    MaximaDiffer(LimitsFor(now.tierRead[call], now.addonsRead[call]), now.addons, now.tier, now.addons, now.addons);
    var t := if LimitsFor(now.tierRead[call], now.addonsRead[call]) != LimitsFor(Starter, now.addons) then Starter else Business;
    hide LimitsFor;
    log' := OtherTier(p, s, log, call, t);
  }

  lemma StaleAddons(p: Prices, s: State, log: seq<Statement>, call: nat) returns (log': seq<Statement>)
    requires AllGenuine(p, log) && ReadTier(call) in log && ReadAddons(call) in log && !AddonsAreFresh(log, call)
    requires AddonId(p, "branches").Some?
    ensures SameShape(p, log, log') && !Coherent(Execute(ExecuteAll(s, log'), StoreLimits(call)))
  {
    ReadIsKept(s, log, call);
    var now := ExecuteAll(s, log);
    log' := OtherAddon(p, s, log, call, 1);
    var log2 := OtherAddon(p, s, log, call, 2);
    MaximaDiffer(LimitsFor(now.tierRead[call], now.addonsRead[call]), now.addons, now.tier,
                 ExecuteAll(s, log').addons, ExecuteAll(s, log2).addons);
    hide LimitsFor;
    if Coherent(Execute(ExecuteAll(s, log'), StoreLimits(call))) {
      log' := log2;
    }
  }

  lemma LastWriteUnsettles(p: Prices, s: State, last: Statement) returns (st: Statement)
    requires (last.WriteTier? || last.WriteAddon?) && AddonId(p, "branches").Some?
    ensures Alike(p, last, st) && !Coherent(Execute(s, st))
  {
    if last.WriteTier? {
      MaximaDiffer(s.limits, s.addons, s.tier, s.addons, s.addons);
      st := WriteTier(if s.limits != LimitsFor(Starter, s.addons) then Starter else Business);
    } else {
      var one, two := WriteAddon(MoreBranches(p, 1)), WriteAddon(MoreBranches(p, 2));
      MaximaDiffer(s.limits, s.addons, s.tier, Execute(s, one).addons, Execute(s, two).addons);
      st := if Coherent(Execute(s, one)) then two else one;
    }
  }

  /** A log that has not settled goes wrong for some contents of its writes. */
  lemma {:induction false} UnsettledGoesWrong(p: Prices, s: State, log: seq<Statement>) returns (log': seq<Statement>)
    requires AllGenuine(p, log) && ReadsFirst(log) && !Settled(log) && AddonId(p, "branches").Some?
    ensures SameShape(p, log, log') && !Coherent(ExecuteAll(s, log'))
    decreases |log|
  {
    var n := |log| - 1;
    var before, st := log[..n], log[n];
    if log[n].WriteTier? || log[n].WriteAddon? {
      ShapeRefl(p, before);
      st := LastWriteUnsettles(p, ExecuteAll(s, before), log[n]);
    } else if log[n].StoreLimits? {
      if !TierIsFresh(log[..n], log[n].call) {
        before := StaleTier(p, s, log[..n], log[n].call);
      } else {
        before := StaleAddons(p, s, log[..n], log[n].call);
      }
    } else {
      before := UnsettledGoesWrong(p, s, log[..n]);
    }
    log' := before + [st];
    ExecuteOneMore(s, before, st);
    ShapeOneMore(p, log, before, st);
  }

  /**
   * However the statements of concurrent calls interleave: whatever they write, the stored maxima are at
   * the end those of the stored tier and addons, exactly when the log has settled.
   */
  lemma CoherentAtRestIff(p: Prices, s: State, log: seq<Statement>)
    requires Coherent(s) && ReadsFirst(log) && AllGenuine(p, log) && AddonId(p, "branches").Some?
    ensures (forall log' :: SameShape(p, log, log') ==> Coherent(ExecuteAll(s, log'))) <==> Settled(log)
  {
    if Settled(log) {
      forall log' | SameShape(p, log, log')
        ensures Coherent(ExecuteAll(s, log'))
      {
        ShapeDecides(p, log, log', 0);
        SettledIsCoherent(s, log');
      }
    } else {
      var log' := UnsettledGoesWrong(p, s, log);
    }
  }

  // ----- Calls -----

  function Recalculation(call: nat): seq<Statement> {
    [ReadTier(call), ReadAddons(call), StoreLimits(call)]
  }

  /** A recalculation that nobody disturbs settles whatever came before it. */
  lemma RecalculationSettles(log: seq<Statement>, call: nat)
    ensures Settled(log + Recalculation(call))
  {
    var all := log + Recalculation(call);
    var n := |log|;
    assert all[..n + 2] == log + [ReadTier(call), ReadAddons(call)] && all[..n + 2][..n + 1] == log + [ReadTier(call)];
    assert TierIsFresh(log + [ReadTier(call)], call);
    assert TierIsFresh(all[..n + 2], call) && AddonsAreFresh(all[..n + 2], call);
  }

  lemma {:induction false} ExecuteConcat(s: State, a: seq<Statement>, b: seq<Statement>)
    ensures ExecuteAll(s, a + b) == ExecuteAll(ExecuteAll(s, a), b)
    decreases |b|
  {
    if b == [] {
      assert a + b == a;
    } else {
      var n := |b| - 1;
      assert (a + b)[..|a + b| - 1] == a + b[..n];
      ExecuteConcat(s, a, b[..n]);
    }
  }

  function WriteAll(writes: seq<Write>): (log: seq<Statement>)
    ensures |log| == |writes|
  {
    seq(|writes|, i requires 0 <= i < |writes| => WriteAddon(writes[i]))
  }

  lemma {:induction false} WritesPerform(s: State, writes: seq<Write>)
    ensures ExecuteAll(s, WriteAll(writes)) == s.(addons := PerformIn(s.addons, writes))
  {
    if writes != [] {
      var n := |writes| - 1;
      assert WriteAll(writes)[..n] == WriteAll(writes[..n]);
      WritesPerform(s, writes[..n]);
    }
  }

  lemma ExecuteThree(s: State, a: Statement, b: Statement, c: Statement)
    ensures ExecuteAll(s, [a, b, c]) == Execute(Execute(Execute(s, a), b), c)
  {
    ExecuteOneMore(s, [], a);
    ExecuteOneMore(s, [a], b);
    ExecuteOneMore(s, [a, b], c);
    assert [] + [a] == [a] && [a] + [b] == [a, b] && [a, b] + [c] == [a, b, c];
  }

  lemma RecalculationStores(s: State, call: nat)
    ensures ExecuteAll(s, Recalculation(call)) ==
            s.(tierRead := s.tierRead[call := s.tier], addonsRead := s.addonsRead[call := s.addons], limits := LimitsFor(s.tier, s.addons))
  {
    hide ExecuteAll, LimitsFor;
    ExecuteThree(s, ReadTier(call), ReadAddons(call), StoreLimits(call));
  }

  /** A webhook handler that nobody disturbs leaves its tier, its addons and their maxima, as the one event that stands for it. */
  lemma UndisturbedHandler(s: State, call: nat, t: Tier, writes: seq<Write>)
    ensures var after := ExecuteAll(s, [WriteTier(t)] + WriteAll(writes) + Recalculation(call));
            && after.tier == t && after.addons == PerformIn(s.addons, writes)
            && after.limits == LimitsFor(t, PerformIn(s.addons, writes))
  {
    var first := Execute(s, WriteTier(t));
    ExecuteOneMore(s, [], WriteTier(t));
    assert [] + [WriteTier(t)] == [WriteTier(t)];
    ExecuteConcat(s, [WriteTier(t)], WriteAll(writes));
    WritesPerform(first, writes);
    ExecuteConcat(s, [WriteTier(t)] + WriteAll(writes), Recalculation(call));
    RecalculationStores(first.(addons := PerformIn(s.addons, writes)), call);
  }

  /** Two overlapping addon calls: the first reads before the second writes, and stores after it has finished. */
  function Overlap(first: Write, second: Write): seq<Statement> {
    ([WriteAddon(first), ReadTier(1), ReadAddons(1)] + [WriteAddon(second)]) + Recalculation(2) + [StoreLimits(1)]
  }

  lemma OverlapStoresOldMaxima(s: State, first: Write, second: Write)
    ensures var after, addons := ExecuteAll(s, Overlap(first, second)), AfterWrite(s.addons, first);
            && after.tier == s.tier && after.addons == AfterWrite(addons, second)
            && after.limits == LimitsFor(s.tier, addons)
  {
    hide ExecuteAll, LimitsFor, AfterWrite;
    var start := [WriteAddon(first), ReadTier(1), ReadAddons(1)];
    var written := start + [WriteAddon(second)];
    ExecuteThree(s, WriteAddon(first), ReadTier(1), ReadAddons(1));
    ExecuteOneMore(s, start, WriteAddon(second));
    ExecuteConcat(s, written, Recalculation(2));
    RecalculationStores(ExecuteAll(s, written), 2);
    ExecuteOneMore(s, written + Recalculation(2), StoreLimits(1));
  }

  /** A concrete race: on the Starter plan, one call buys users and an overlapping one a branch; the branch is missing from the stored maxima. */
  lemma OverlappingCallsGoStale(usersId: string, branchesId: string)
    ensures var s := State(Starter, map[], LimitsFor(Starter, map[]), map[], map[]);
            var after := ExecuteAll(s, Overlap(Upsert("users", AddonRow(1, usersId)), Upsert("branches", AddonRow(1, branchesId))));
            && Coherent(s) && !Coherent(after)
            && after.limits.branches == Some(1) && LimitsFor(after.tier, after.addons).branches == Some(2)
  {
    var s := State(Starter, map[], LimitsFor(Starter, map[]), map[], map[]);
    OverlapStoresOldMaxima(s, Upsert("users", AddonRow(1, usersId)), Upsert("branches", AddonRow(1, branchesId)));
    hide ExecuteAll;
  }
}
