/**
 * The per-tenant cap on live resources: `withResourceLimit` of
 * src/modules/subscriptions/subscriptions.repository.ts and subscription-limits.service.ts, around
 * creating and restoring rows.
 */
module ResourceCap {
  import opened Domain
  import opened Subscriptions

  /** What `checkLimitTx` reads from the subscription row. */
  datatype Terms = Terms(isTrial: bool, trialEndsAt: Option<int>, status: Status, cancelEffectiveAt: Option<int>, max: Option<nat>)

  datatype Verdict = TrialExpired | Inactive | LimitReached | Allowed

  function Judge(terms: Option<Terms>, count: nat, now: int): Verdict {
    match terms
    case None => Allowed
    case Some(t) =>
      if t.isTrial && t.trialEndsAt.Some? && t.trialEndsAt.value < now then TrialExpired
      else if t.status == Cancelled && (t.cancelEffectiveAt.None? || t.cancelEffectiveAt.value <= now) then Inactive
      else if t.status == Paused || t.status == PastDue then Inactive
      else if t.max.None? || count < t.max.value then Allowed
      else LimitReached
  }

  /** Rows of one resource: id to "is deleted". */
  type Rows = map<Id, bool>

  function Live(rows: Rows): set<Id> {
    set id | id in rows && !rows[id]
  }

  datatype Change = Create(id: Id) | Restore(id: Id) | SoftDelete(id: Id)

  /** A call at time `now` under the terms then stored. */
  datatype Call = Call(change: Change, terms: Option<Terms>, now: int)

  predicate Accepted(rows: Rows, c: Call) {
    match c.change
    case Create(id) => Judge(c.terms, |Live(rows)|, c.now).Allowed? && id !in rows
    case Restore(id) => Judge(c.terms, |Live(rows)|, c.now).Allowed? && id in rows && rows[id]
    case SoftDelete(id) => id in rows && !rows[id]
  }

  function After(rows: Rows, c: Call): Rows {
    if Accepted(rows, c) then rows[c.change.id := c.change.SoftDelete?] else rows
  }

  function AfterAll(rows: Rows, calls: seq<Call>): Rows {
    if calls == [] then rows else After(AfterAll(rows, calls[..|calls| - 1]), calls[|calls| - 1])
  }

  lemma LiveCount(rows: Rows, c: Call)
    requires Accepted(rows, c)
    ensures |Live(After(rows, c))| == if c.change.SoftDelete? then |Live(rows)| - 1 else |Live(rows)| + 1
  {
    var id := c.change.id;
    if c.change.SoftDelete? {
      assert Live(After(rows, c)) == Live(rows) - {id};
    } else {
      assert id !in Live(rows) && Live(After(rows, c)) == Live(rows) + {id};
    }
  }

  /**
   * While every call is made under the maximum `max`, whatever the status and the clock, the live
   * count never passes it; rows that were already above it are never added to.
   */
  lemma {:induction false} CountStaysWithinMax(rows: Rows, calls: seq<Call>, max: nat)
    requires forall i :: 0 <= i < |calls| ==> calls[i].terms.Some? && calls[i].terms.value.max == Some(max)
    ensures |Live(AfterAll(rows, calls))| <= if |Live(rows)| < max then max else |Live(rows)|
  {
    if calls != [] {
      var n := |calls| - 1;
      assert forall i :: 0 <= i < n ==> calls[..n][i] == calls[i];
      CountStaysWithinMax(rows, calls[..n], max);
      var before := AfterAll(rows, calls[..n]);
      if Accepted(before, calls[n]) {
        LiveCount(before, calls[n]);
      }
    }
  }

  /** The verdicts: an expired trial first, then a subscription that is paused, past due or over, then the count. */
  lemma VerdictIff(t: Terms, count: nat, now: int)
    ensures var v := Judge(Some(t), count, now);
            && (v == TrialExpired <==> t.isTrial && t.trialEndsAt.Some? && now > t.trialEndsAt.value)
            && (v == Inactive <==>
                && !(t.isTrial && t.trialEndsAt.Some? && now > t.trialEndsAt.value)
                && t.status in {Paused, PastDue, Cancelled}
                && !(t.status == Cancelled && t.cancelEffectiveAt.Some? && now < t.cancelEffectiveAt.value))
            && (v == LimitReached ==> t.max.Some? && count >= t.max.value)
            && (v == Allowed ==> t.max.Some? ==> count < t.max.value)
            && Judge(None, count, now) == Allowed
  {
  }

  /** Terms under which only the count matters. */
  predicate InForce(t: Terms, now: int) {
    && (t.isTrial && t.trialEndsAt.Some? ==> now <= t.trialEndsAt.value)
    && (t.status in {Trialing, Active} || (t.status == Cancelled && t.cancelEffectiveAt.Some? && now < t.cancelEffectiveAt.value))
  }

  predicate FreshCreates(rows: Rows, calls: seq<Call>, max: nat) {
    && (forall i :: 0 <= i < |calls| ==>
          && calls[i].change.Create? && calls[i].change.id !in rows
          && calls[i].terms.Some? && calls[i].terms.value.max == Some(max) && InForce(calls[i].terms.value, calls[i].now))
    && forall i, j :: 0 <= i < j < |calls| ==> calls[i].change.id != calls[j].change.id
  }

  lemma {:induction false} OnlyTheirs(rows: Rows, calls: seq<Call>)
    ensures forall id :: id in AfterAll(rows, calls) ==> id in rows || exists i :: 0 <= i < |calls| && calls[i].change.id == id
  {
    if calls != [] {
      var n := |calls| - 1;
      OnlyTheirs(rows, calls[..n]);
      forall id | id in AfterAll(rows, calls) && id !in rows
        ensures exists i :: 0 <= i < |calls| && calls[i].change.id == id
      {
        if id != calls[n].change.id {
          var i :| 0 <= i < n && calls[..n][i].change.id == id;
          assert calls[i].change.id == id;
        }
      }
    }
  }

  /** The cap is exact: under terms in force, creations succeed exactly until the maximum is reached. */
  lemma {:induction false} CapIsReached(rows: Rows, calls: seq<Call>, max: nat)
    requires FreshCreates(rows, calls, max) && |Live(rows)| <= max
    ensures |Live(AfterAll(rows, calls))| == if |Live(rows)| + |calls| < max then |Live(rows)| + |calls| else max
  {
    if calls != [] {
      var n := |calls| - 1;
      assert forall i :: 0 <= i < n ==> calls[..n][i] == calls[i];
      CapIsReached(rows, calls[..n], max);
      OnlyTheirs(rows, calls[..n]);
      var before := AfterAll(rows, calls[..n]);
      assert calls[n].change.id !in before;
      VerdictIff(calls[n].terms.value, |Live(before)|, calls[n].now);
      if Accepted(before, calls[n]) {
        LiveCount(before, calls[n]);
      }
    }
  }

  /** What a call may change: a new row, a deleted one, or a live one; refused, nothing. */
  lemma CallEffects(rows: Rows, c: Call)
    ensures var id, after := c.change.id, After(rows, c);
            && (forall other :: other != id ==> (other in after <==> other in rows) && (other in rows ==> after[other] == rows[other]))
            && (after != rows <==>
                match c.change
                case Create(_) => id !in rows && Judge(c.terms, |Live(rows)|, c.now) == Allowed
                case Restore(_) => id in rows && rows[id] && Judge(c.terms, |Live(rows)|, c.now) == Allowed
                case SoftDelete(_) => id in Live(rows))
            && (after != rows ==> (id in Live(after) <==> !c.change.SoftDelete?))
  {
    var id, after := c.change.id, After(rows, c);
    if Accepted(rows, c) {
      assert id in after && (id in rows ==> after[id] != rows[id]);
    }
  }

  class ResourceTable {
    var rows: Rows

    /** The tenant row is locked; the count and the write happen under that lock. */
    method WithResourceLimit(c: Call) returns (accepted: bool, verdict: Verdict)
      requires !c.change.SoftDelete?
      modifies this
      ensures verdict == Judge(c.terms, |Live(old(rows))|, c.now)
      ensures accepted == Accepted(old(rows), c) && rows == After(old(rows), c)
    {
      var count := |Live(rows)|;
      verdict := Judge(c.terms, count, c.now);
      if !verdict.Allowed? {
        return false, verdict;
      }
      var id := c.change.id;
      if if c.change.Create? then id in rows else id !in rows || !rows[id] {
        return false, verdict;
      }
      rows := rows[id := false];
      return true, verdict;
    }

    method Remove(c: Call) returns (accepted: bool)
      requires c.change.SoftDelete?
      modifies this
      ensures accepted == Accepted(old(rows), c) && rows == After(old(rows), c)
    {
      accepted := c.change.id in rows && !rows[c.change.id];
      if accepted {
        rows := rows[c.change.id := true];
      }
    }
  }
}
