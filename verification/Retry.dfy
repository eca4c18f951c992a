/**
 * The bounded retry around reservations (src/modules/orders/reservation-transaction.util.ts) and the
 * creation event that `OrdersService.create` dispatches after it returns.
 */
module Retry {
  import opened Domain
  import opened Reservation
  import opened Booking

  // ----- Which database errors are retried -----

  datatype Cause = Cause(kind: string, code: string, originalCode: string)

  datatype DbError =
    | AdapterError(cause: Option<Cause>)
    | KnownRequestError(code: string, adapterCause: Option<Cause>)
    | OtherError

  predicate IsReservationConflict(e: DbError) {
    match e
    case AdapterError(Some(c)) =>
      || (c.kind == "TransactionWriteConflict" && c.originalCode == "40001")
      || (c.kind == "postgres" && c.code == "40P01" && c.originalCode == "40P01")
    case KnownRequestError(code, cause) =>
      || code == "P2034"
      || (code == "P2010" && cause.Some?
          && (cause.value.kind == "TransactionWriteConflict" || cause.value.originalCode == "40001" || cause.value.originalCode == "40P01"))
    case _ => false
  }

  /** The shapes of errors that are retried: nothing else is. */
  lemma RetriedShapes(e: DbError)
    ensures IsReservationConflict(e) <==>
            || (exists code :: e == AdapterError(Some(Cause("TransactionWriteConflict", code, "40001"))))
            || e == AdapterError(Some(Cause("postgres", "40P01", "40P01")))
            || (exists cause :: e == KnownRequestError("P2034", cause))
            || (exists cause: Cause :: e == KnownRequestError("P2010", Some(cause))
                                       && (cause.kind == "TransactionWriteConflict" || cause.originalCode in {"40001", "40P01"}))
  {
    match e {
      case AdapterError(Some(c)) =>
        assert e == AdapterError(Some(Cause(c.kind, c.code, c.originalCode)));
      case _ =>
    }
  }

  // ----- The retry loop -----

  /** What the callback of a transaction did: a value with the tables to commit, or an exception. */
  datatype TxResult<S, T> = Commit(value: T, next: S) | Abort(failure: Failure)

  /** The tables an attempt runs on, and the database error that stops it, if any. */
  datatype Attempt<S> = Attempt(db: S, fault: Option<DbError>)

  datatype Reply<T> = Returned(value: T) | Threw(failure: Failure) | ThrewDb(error: DbError) | Busy

  predicate Retried<S>(a: Attempt<S>) {
    a.fault.Some? && IsReservationConflict(a.fault.value)
  }

  /** The first of the attempts i, i+1, ... below 3 that is not retried, or 3. */
  function Settled<S>(attempts: seq<Attempt<S>>, i: nat): (n: nat)
    requires i <= 3 <= |attempts|
    ensures i <= n <= 3 && (n < 3 ==> !Retried(attempts[n])) && forall k :: i <= k < n ==> Retried(attempts[k])
    decreases 3 - i
  {
    if i == 3 || !Retried(attempts[i]) then i else Settled(attempts, i + 1)
  }

  /** The settled attempt is the one before which everything failed with a conflict, and which itself did not. */
  lemma SettledIff<S>(attempts: seq<Attempt<S>>, n: nat)
    requires |attempts| >= 3
    ensures Settled(attempts, 0) == n <==>
            && n <= 3
            && (forall k :: 0 <= k < n ==> attempts[k].fault.Some? && IsReservationConflict(attempts[k].fault.value))
            && (n < 3 && attempts[n].fault.Some? ==> !IsReservationConflict(attempts[n].fault.value))
  {
    var m := Settled(attempts, 0);
    if n < m {
      assert Retried(attempts[n]);
    }
  }

  /**
   * At most three attempts, each on the tables as they are then. Nothing but the returning attempt
   * commits: `commits` lists the tables that were committed.
   */
  method RunReservationTransaction<S, T>(reserve: S -> TxResult<S, T>, attempts: seq<Attempt<S>>)
    returns (reply: Reply<T>, commits: seq<S>)
    requires |attempts| >= 3
    ensures |commits| <= 1 && (|commits| == 1 <==> reply.Returned?)
    ensures reply.Busy? <==> Settled(attempts, 0) == 3
    ensures reply.ThrewDb? ==> !IsReservationConflict(reply.error)
    ensures reply.ThrewDb? ==> Settled(attempts, 0) < 3 && attempts[Settled(attempts, 0)].fault == Some(reply.error)
    ensures reply.Returned? || reply.Threw? ==>
              && Settled(attempts, 0) < 3 && attempts[Settled(attempts, 0)].fault.None?
              && var outcome := reserve(attempts[Settled(attempts, 0)].db);
                 if reply.Threw? then outcome == Abort(reply.failure) else outcome == Commit(reply.value, commits[0])
  {
    var attempt := 1;
    while true
      invariant 1 <= attempt <= 3 && Settled(attempts, 0) == Settled(attempts, attempt - 1)
      decreases 3 - attempt
    {
      var a := attempts[attempt - 1];
      if a.fault.None? {
        match reserve(a.db) {
          case Commit(value, next) => return Returned(value), [next];
          case Abort(failure) => return Threw(failure), [];
        }
      }
      if !IsReservationConflict(a.fault.value) {
        return ThrewDb(a.fault.value), [];
      }
      if attempt >= 3 {
        return Busy, [];
      }
      attempt := attempt + 1;
    }
  }

  // ----- Creating an order with retries -----

  /** The callback of `create`: the event is not part of the transaction. */
  function CreateCallback(c: CreateCall): World -> TxResult<World, Outcome<Order>> {
    (w: World) =>
      match CreateOutcome(w, c)
      case Err(f) => Abort(f)
      case Ok(o) => Commit(o, AfterCreate(w, c).(orderEvents := w.orderEvents))
  }

  /**
   * `create` as a whole. Its effect, the dispatched event included, is that of one atomic Create
   * step on the tables of the returning attempt, or nothing at all; a replay dispatches no event.
   */
  method CreateWithRetry(c: CreateCall, attempts: seq<Attempt<World>>)
    returns (reply: Reply<Outcome<Order>>, commits: seq<World>, dispatched: seq<Id>)
    requires |attempts| >= 3
    ensures |commits| <= 1 && (|commits| == 1 <==> reply.Returned?)
    ensures reply.Returned? ==>
              && Settled(attempts, 0) < 3
              && var w := attempts[Settled(attempts, 0)].db;
                 && CreateOutcome(w, c) == Ok(reply.value)
                 && commits[0].(orderEvents := commits[0].orderEvents + dispatched) == Apply(w, Create(c))
                 && dispatched == if reply.value.Created? then [c.newId] else []
    ensures !reply.Returned? ==> dispatched == []
  {
    reply, commits := RunReservationTransaction(CreateCallback(c), attempts);
    dispatched := if reply.Returned? && reply.value.Created? then [c.newId] else [];
  }
}
