/**
 * The request-key protocol of src/modules/idempotency: a key is claimed, the resource is created
 * and the key row is completed with the resource id, all in the caller's transaction.
 * SHA-256 is taken to be injective, so the fingerprint of an intent is the intent itself.
 */
module Idempotency {
  import opened Domain

  datatype Kind = PaymentV1 | OrderV1

  /** Every request of the protocol is a POST; the stored method adds nothing to the path. */
  datatype Route = OrdersRoute | PublicBookRoute | PaymentsRoute(order: Id)

  datatype Intent =
    | OrderIntent(branch: Id, client: Id, vehicle: Id, post: Option<Id>, employee: Option<Id>,
                  start: int, services: seq<Id>, source: string, notes: Option<string>)
    | PublicIntent(payload: string)
    | PaymentIntent(amount: int, means: string, status: string, reference: Option<string>)

  datatype Identity = Identity(key: string, route: Route, kind: Kind, actor: Option<Id>, fingerprint: Intent)

  datatype Envelope = Envelope(kind: Kind, actor: Option<Id>, fingerprint: Intent, resource: Option<Id>)

  /** A key row; `body` is None for a historical body that is not an envelope. */
  datatype Row = Row(route: Route, statusCode: int, body: Option<Envelope>, expiresAt: int)

  datatype Claim = Fresh | Replay(resource: Id)

  // ----- Identities -----

  predicate KeyChar(c: char) {
    'a' <= c <= 'z' || 'A' <= c <= 'Z' || '0' <= c <= '9' || c == '_' || c == '-' || c == ':' || c == '.'
  }

  predicate ValidKey(key: string) {
    0 < |key| <= 128 && forall i | 0 <= i < |key| :: KeyChar(key[i])
  }

  function RequestIdentity(key: Option<string>, route: Route, kind: Kind, actor: Option<Id>, payload: Intent)
    : Result<Option<Identity>, Failure>
  {
    match key
    case None => Ok(None)
    case Some(k) => if ValidKey(k) then Ok(Some(Identity(k, route, kind, actor, payload))) else Err(BadRequest)
  }

  // ----- The protocol on values -----

  predicate Live(rows: map<string, Row>, key: string, now: int) {
    key in rows && rows[key].expiresAt > now
  }

  predicate SameRequest(row: Row, identity: Identity) {
    && row.body.Some?
    && row.route == identity.route
    && row.body.value.kind == identity.kind
    && row.body.value.actor == identity.actor
    && row.body.value.fingerprint == identity.fingerprint
  }

  function ReplayRequest(row: Row, identity: Identity): Result<Claim, Failure> {
    if !SameRequest(row, identity) then Err(Conflict)
    else if row.statusCode <= 0 || row.body.value.resource.None? then Err(Conflict)
    else Ok(Replay(row.body.value.resource.value))
  }

  function ClaimFor(rows: map<string, Row>, identity: Identity, now: int): Result<Claim, Failure> {
    if Live(rows, identity.key, now) then ReplayRequest(rows[identity.key], identity) else Ok(Fresh)
  }

  function EnvelopeOf(identity: Identity, resource: Option<Id>): Envelope {
    Envelope(identity.kind, identity.actor, identity.fingerprint, resource)
  }

  function RowsAfterClaim(rows: map<string, Row>, identity: Identity, now: int): map<string, Row> {
    if Live(rows, identity.key, now) then rows
    else rows[identity.key := Row(identity.route, 0, Some(EnvelopeOf(identity, None)), now + 86400000)]
  }

  /** The key row left by a committed creation that was claimed at `now`. */
  function CompletedRow(identity: Identity, resource: Id, now: int): Row {
    Row(identity.route, 201, Some(EnvelopeOf(identity, Some(resource))), now + 86400000)
  }

  function RowsAfterCleanup(rows: map<string, Row>, now: int): map<string, Row> {
    map k | k in rows && !(rows[k].expiresAt < now) :: rows[k]
  }

  /** From a fresh claim on, for 24 hours, the key is held: until the resource is saved every claim under it conflicts. */
  lemma ClaimedIsHeld(rows: map<string, Row>, identity: Identity, now: int, other: Identity, later: int)
    requires ClaimFor(rows, identity, now) == Ok(Fresh) && other.key == identity.key && now <= later
    ensures ClaimFor(RowsAfterClaim(rows, identity, now), other, later) ==
            if later < now + 24 * 3600000 then Err(Conflict) else Ok(Fresh)
    ensures RowsAfterClaim(rows, identity, now)[identity.key].statusCode == 0
    ensures forall k :: k in rows && k != identity.key ==>
              k in RowsAfterClaim(rows, identity, now) && RowsAfterClaim(rows, identity, now)[k] == rows[k]
  {
  }

  /** A key is well-formed exactly when it has 1 to 128 characters of the alphabet below. */
  lemma ValidKeyIff(key: string)
    ensures ValidKey(key) <==> key != "" && |key| < 129 && forall c :: c in key ==> Letter(c) || c in {'_', '-', ':', '.'}
  {
    if forall c :: c in key ==> Letter(c) || c in {'_', '-', ':', '.'} {
      forall i | 0 <= i < |key|
        ensures KeyChar(key[i])
      {
        assert key[i] in key;
      }
    }
  }

  /** A request without a key has no identity, one with a malformed key is refused, and any other is identified by all it says. */
  lemma IdentityAnswer(key: Option<string>, route: Route, kind: Kind, actor: Option<Id>, payload: Intent)
    ensures var r := RequestIdentity(key, route, kind, actor, payload);
            && (r == Ok(None) <==> key.None?)
            && (r.Err? <==> key.Some? && !ValidKey(key.value))
            && (r.Err? ==> r.error == BadRequest)
            && (forall i: Identity :: r == Ok(Some(i)) ==>
                  key == Some(i.key) && i.route == route && i.kind == kind && i.actor == actor && i.fingerprint == payload)
  {
    hide ValidKey;
  }

  /** A letter or a digit, by its code. */
  predicate Letter(c: char) {
    var code := c as int;
    48 <= code < 58 || 65 <= code < 91 || 97 <= code < 123
  }

  // ----- The key table -----

  class KeyTable {
    var rows: map<string, Row>

    constructor ()
      ensures rows == map[]
    {
      rows := map[];
    }

    method FindByKey(key: string) returns (row: Option<Row>)
      ensures row == if key in rows then Some(rows[key]) else None
    {
      row := if key in rows then Some(rows[key]) else None;
    }

    /** INSERT ... ON CONFLICT DO UPDATE ... WHERE "expiresAt" <= claimedAt RETURNING id. */
    method AcquireRequestLock(identity: Identity, claimedAt: int, expiresAt: int) returns (acquired: bool)
      modifies this
      ensures acquired == !Live(old(rows), identity.key, claimedAt)
      ensures rows == if acquired
                      then old(rows)[identity.key := Row(identity.route, 0, Some(EnvelopeOf(identity, None)), expiresAt)]
                      else old(rows)
    {
      if identity.key in rows && !(rows[identity.key].expiresAt <= claimedAt) {
        return false;
      }
      rows := rows[identity.key := Row(identity.route, 0, Some(EnvelopeOf(identity, None)), expiresAt)];
      return true;
    }

    /**
     * `claimRequestTx`. `overtaken` says that the first read came before a concurrent winner's
     * commit and missed its row: the conditional upsert then refuses, and the winner is read again.
     * The outcome does not depend on it.
     */
    method ClaimRequest(identity: Identity, now: int, overtaken: bool) returns (claim: Result<Claim, Failure>)
      modifies this
      ensures claim == ClaimFor(old(rows), identity, now)
      ensures rows == RowsAfterClaim(old(rows), identity, now)
    {
      var existing := FindByKey(identity.key);
      if !overtaken && existing.Some? && existing.value.expiresAt > now {
        return ReplayRequest(existing.value, identity);
      }
      var acquired := AcquireRequestLock(identity, now, now + 24 * 3600000);
      if acquired {
        return Ok(Fresh);
      }
      var winner := FindByKey(identity.key);
      if winner.Some? {
        return ReplayRequest(winner.value, identity);
      }
      return Err(Conflict);
    }

    /** `readRequestTx`: a replay without a claim; None when no live row exists. */
    method ReadRequest(identity: Identity, now: int) returns (claim: Option<Result<Claim, Failure>>)
      ensures claim == if Live(rows, identity.key, now) then Some(ClaimFor(rows, identity, now)) else None
    {
      var existing := FindByKey(identity.key);
      claim := if existing.Some? && existing.value.expiresAt > now
               then Some(ReplayRequest(existing.value, identity)) else None;
    }

    method SaveRequest(identity: Identity, resource: Id)
      requires identity.key in rows
      modifies this
      ensures rows == old(rows)[identity.key :=
                        old(rows)[identity.key].(statusCode := 201, body := Some(EnvelopeOf(identity, Some(resource))))]
    {
      rows := rows[identity.key :=
                     rows[identity.key].(statusCode := 201, body := Some(EnvelopeOf(identity, Some(resource))))];
    }

    method DeleteExpired(now: int)
      modifies this
      ensures rows == RowsAfterCleanup(old(rows), now)
    {
      rows := map k | k in rows && !(rows[k].expiresAt < now) :: rows[k];
    }

    /** The database discards what an aborted transaction wrote. */
    method Rollback(saved: map<string, Row>)
      modifies this
      ensures rows == saved
    {
      rows := saved;
    }
  }
}
