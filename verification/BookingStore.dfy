/**
 * The tables and the transactions that change them, in the form of OrdersService,
 * SchedulingService.reserveSlot, reserveEmployee and PaymentsService. Each transaction is
 * atomic: Serializable isolation and row locks in the code justify it.
 */
module BookingStore {
  import opened Domain
  import opened WorkingWindow
  import opened Idempotency
  import opened OrderIntent
  import opened Reservation
  import opened Booking

  class Store {
    var clock: int
    var site: Site
    var orders: map<Id, Order>
    var payments: seq<Payment>
    const keys: KeyTable
    var orderEvents: seq<Id>
    var paymentEvents: seq<Id>
    ghost var history: History

    constructor (clock: int, site: Site)
      ensures fresh(keys)
      ensures View() == World(clock, site, map[], [], map[], [], [], History(map[], 0, []))
    {
      this.clock, this.site := clock, site;
      orders, payments, orderEvents, paymentEvents := map[], [], [], [];
      keys := new KeyTable();
      history := History(map[], 0, []);
    }

    ghost function View(): World
      reads this, keys
    {
      World(clock, site, orders, payments, keys.rows, orderEvents, paymentEvents, history)
    }

    // ----- Reserving resources -----

    /** The post row is locked; then the overlapping orders are counted. */
    method ReserveSlot(post: Id, slot: Slot) returns (conflict: bool)
      ensures conflict == !PostFree(orders, post, slot)
    {
      var bufferedStart, bufferedEnd := slot.start - slot.buffer * 60000, slot.end + slot.buffer * 60000;
      var conflicts := CountOverlapping(orders, post, bufferedStart, bufferedEnd, slot.exclude);
      NoneCountedIffFree(orders, post, slot);
      conflict := conflicts > 0;
    }

    /** `findMany({ where: workPostWhere, orderBy: { id: 'asc' } })` */
    method PostsById(branch: Id) returns (ids: seq<Id>)
      ensures Ascending(ids) && forall p :: p in ids <==> UsablePost(site, p, branch)
    {
      var rest := set p | p in site.posts && UsablePost(site, p, branch);
      ids := [];
      while rest != {}
        invariant Ascending(ids) && (forall p, q :: p in ids && q in rest ==> p.Below(q))
        invariant forall p :: p in ids || p in rest <==> UsablePost(site, p, branch)
        decreases |rest|
      {
        var next := MinId(rest);
        assert forall k :: 0 <= k < |ids| ==> ids[k] in ids && ids[k].Below(next);
        ids, rest := ids + [next], rest - {next};
      }
    }

    method ResolveWorkPost(branch: Id, named: Option<Id>, slot: Slot) returns (r: Result<Id, Failure>)
      ensures r == PostFor(site, orders, branch, named, slot)
    {
      if !ActiveBranch(site, branch) {
        return Err(BadRequest);
      }
      if named.Some? {
        if !UsablePost(site, named.value, branch) {
          return Err(BadRequest);
        }
        var conflict := ReserveSlot(named.value, slot);
        return if conflict then Err(Conflict) else Ok(named.value);
      }
      var posts := PostsById(branch);
      for i := 0 to |posts|
        invariant forall k :: 0 <= k < i ==> !PostFree(orders, posts[k], slot)
      {
        var conflict := ReserveSlot(posts[i], slot);
        if !conflict {
          assert posts[i] in posts;
          FirstFreeIsLeast(posts, i, FreePosts(site, orders, branch, slot));
          return Ok(posts[i]);
        }
      }
      assert FreePosts(site, orders, branch, slot) == {};
      return Err(BadRequest);
    }

    method ReserveEmployee(branch: Id, named: Option<Id>, slot: Slot) returns (r: Result<Option<Id>, Failure>)
      ensures r == EmployeeFor(site, orders, branch, named, slot)
    {
      if named.None? {
        var configured := |ConfiguredProfiles(site, branch)|;
        if configured == 0 {
          return Ok(None);
        }
      }
      if !ActiveBranch(site, branch) {
        assert EligibleEmployees(site, orders, branch, slot) == {};
        return Err(BadRequest);
      }
      var window := WorkingWindowForInterval(slot.start, slot.end, site.branches[branch].zone);
      if window.None? {
        assert EligibleEmployees(site, orders, branch, slot) == {};
        return Err(BadRequest);
      }
      var candidate := named;
      if named.None? {
        var matching := set e | e in site.employees && Matches(site, orders, branch, e, slot, window.value);
        assert matching == EligibleEmployees(site, orders, branch, slot);
        if matching == {} {
          return Err(BadRequest);
        }
        candidate := Some(MinId(matching));
      }
      // The candidate's row is locked here, and the filter is evaluated again.
      if !Matches(site, orders, branch, candidate.value, slot, window.value) {
        return Err(BadRequest);
      }
      return Ok(candidate);
    }

    /** Posts are locked before employees. */
    method ReserveResources(branch: Id, post: Ask, employee: Ask, slot: Slot) returns (r: Result<Resources, Failure>)
      ensures r == ResourcesFor(site, orders, branch, post, employee, slot)
    {
      var workPost: Option<Id>, worker: Option<Id> := None, None;
      if !post.Unassigned? {
        var p := ResolveWorkPost(branch, NamedId(post), slot);
        if p.Err? {
          return Err(p.error);
        }
        workPost := Some(p.value);
      }
      if !employee.Unassigned? {
        var e := ReserveEmployee(branch, NamedId(employee), slot);
        if e.Err? {
          return Err(e.error);
        }
        worker := e.value;
      }
      return Ok(Resources(workPost, worker));
    }

    // ----- Orders -----

    /** The checks of `create` between the claim and the reservation. */
    method CheckRequest(dto: CreateDto, dayAllowed: bool) returns (valid: bool)
      ensures valid == ValidRequest(View(), dto, dayAllowed)
    {
      if |dto.services| == 0 {
        return false;
      }
      if dto.start < clock {
        return false;
      }
      if !Owns(site, dto.client, dto.vehicle) {
        return false;
      }
      if !ServicesResolve(site, dto.services) {
        return false;
      }
      return ActiveBranch(site, dto.branch) && dayAllowed;
    }

    method PrepareOrder(dto: CreateDto, dayAllowed: bool) returns (r: Result<Order, Failure>)
      ensures r == NewOrder(View(), dto, dayAllowed)
    {
      hide ResourcesFor, ValidRequest, PriceSum, DurationSum;
      var valid := CheckRequest(dto, dayAllowed);
      if !valid {
        return Err(BadRequest);
      }
      var totalPrice, totalDuration := PriceSum(site, dto.services), DurationSum(site, dto.services);
      var scheduledEnd := dto.start + totalDuration * 60000;
      var buffer := BufferFor(site, dto.branch);
      var status := if SourceOf(dto) == "WEB" then BookedPendingConfirmation else Booked;
      var resources := ReserveResources(dto.branch, AskFor(dto.post), AskFor(dto.employee),
                                        Slot(dto.start, scheduledEnd, buffer, None));
      if resources.Err? {
        return Err(resources.error);
      }
      return Ok(Order(dto.branch, dto.client, dto.vehicle, resources.value.post, resources.value.employee,
                      status, dto.start, scheduledEnd, totalPrice, false));
    }

    method PrepareFresh(c: CreateCall) returns (r: Result<Outcome<Order>, Failure>)
      ensures r == FreshOutcome(View(), c)
    {
      var prepared := PrepareOrder(c.dto, c.dayAllowed);
      if prepared.Err? {
        return Err(prepared.error);
      }
      if c.newId in orders {
        return Err(Conflict);
      }
      return Ok(Created(prepared.value));
    }

    /** The transaction of `create` up to the insert: it has only touched the key row. */
    method ClaimAndPrepare(c: CreateCall, identity: Option<Identity>, overtaken: bool) returns (r: Result<Outcome<Order>, Failure>)
      requires InScope(c.dto.branch, c.scope) && OrderIdentity(c) == Ok(identity)
      modifies keys
      ensures r == CreateOutcome(old(View()), c)
      ensures r.Ok? ==> keys.rows == if identity.Some? then RowsAfterClaim(old(keys.rows), identity.value, clock) else old(keys.rows)
    {
      if identity.Some? {
        var claim := keys.ClaimRequest(identity.value, clock, overtaken);
        if claim.Err? {
          return Err(claim.error);
        }
        if claim.value.Replay? {
          var id := claim.value.resource;
          if id in orders && !orders[id].deleted && orders[id].branch == c.dto.branch {
            return Ok(Replayed(id));
          }
          return Err(NotFound);
        }
      }
      r := PrepareFresh(c);
      FreshIgnoresKeys(old(View()), View(), c);
    }

    /** The insert, and the completion of the key row. */
    method InsertOrder(c: CreateCall, identity: Option<Identity>, order: Order)
      requires identity.Some? ==> identity.value.key in keys.rows
      modifies this`orders, this`history, keys
      ensures orders == old(orders)[c.newId := order]
      ensures history == Recorded(Stamped(old(history), c.newId, BufferFor(site, c.dto.branch)), OrderV1, c.newId, identity, clock)
      ensures keys.rows == if identity.None? then old(keys.rows)
                           else var row := old(keys.rows)[identity.value.key];
                                old(keys.rows)[identity.value.key :=
                                  row.(statusCode := 201, body := Some(EnvelopeOf(identity.value, Some(c.newId))))]
    {
      orders := orders[c.newId := order];
      history := Recorded(Stamped(history, c.newId, BufferFor(site, c.dto.branch)), OrderV1, c.newId, identity, clock);
      if identity.Some? {
        keys.SaveRequest(identity.value, c.newId);
      }
    }

    method Create(c: CreateCall, overtaken: bool) returns (r: Result<Outcome<Order>, Failure>)
      modifies this, keys
      ensures r == CreateOutcome(old(View()), c)
      ensures View() == AfterCreate(old(View()), c)
    {
      if !InScope(c.dto.branch, c.scope) {
        return Err(BadRequest);
      }
      var identity := OrderIdentity(c);
      if identity.Err? {
        return Err(BadRequest);
      }
      hide CreateOutcome, OrderIdentity, KeysAfterCreation, RowsAfterClaim, BufferFor;
      var saved := keys.rows;
      r := ClaimAndPrepare(c, identity.value, overtaken);
      if r.Err? {
        keys.Rollback(saved);
      } else if r.value.Created? {
        ClaimedThenSaved(old(View()), c, identity.value, keys.rows);
        InsertOrder(c, identity.value, r.value.row);
        orderEvents := orderEvents + [c.newId];
      } else {
        UnclaimedRowsStay(old(View()), c);
      }
    }

    /** Answers a repeated public booking without starting a new one. */
    method ReplayPublicBooking(c: CreateCall) returns (r: Result<Option<Id>, Failure>)
      requires c.key.Some? && c.anonymous.Some? && c.actor.None?
      ensures r == if OrderIdentity(c).Err? then Err(BadRequest)
                   else if !Live(keys.rows, c.key.value, clock) then Ok(None)
                   else match CreateOutcome(View(), c.(scope := None))
                        case Ok(Replayed(id)) => Ok(Some(id))
                        case Ok(Created(_)) => Ok(None)
                        case Err(f) => Err(f)
    {
      var identity := OrderIdentity(c);
      if identity.Err? {
        return Err(BadRequest);
      }
      var claim := keys.ReadRequest(identity.value.value, clock);
      if claim.None? {
        return Ok(None);
      }
      if claim.value.Err? {
        return Err(claim.value.error);
      }
      if claim.value.value.Fresh? {
        return Ok(None);
      }
      var id := claim.value.value.resource;
      if id in orders && !orders[id].deleted && orders[id].branch == c.dto.branch {
        return Ok(Some(id));
      }
      return Err(NotFound);
    }

    /** The transaction of `reschedule` up to the update. */
    method PrepareMove(c: RescheduleCall) returns (r: Result<Order, Failure>)
      ensures r == RescheduleOutcome(View(), c)
    {
      hide ResourcesFor, BufferFor, ActiveBranch;
      if c.id !in orders || orders[c.id].deleted || !InScope(orders[c.id].branch, c.scope) {
        return Err(NotFound);
      }
      var order := orders[c.id];
      if order.status != Booked && order.status != BookedPendingConfirmation {
        return Err(BadRequest);
      }
      var duration := order.end - order.start;
      if c.start < clock || duration <= 0 || !ActiveBranch(site, order.branch) || !c.dayAllowed {
        return Err(BadRequest);
      }
      var buffer := BufferFor(site, order.branch);
      var resources := ReserveResources(order.branch, AskOrKeep(c.post, order.post), AskOrKeep(c.employee, order.employee),
                                        Slot(c.start, c.start + duration, buffer, Some(c.id)));
      if resources.Err? {
        return Err(resources.error);
      }
      return Ok(order.(start := c.start, end := c.start + duration,
                       post := resources.value.post, employee := resources.value.employee));
    }

    method Reschedule(c: RescheduleCall) returns (r: Result<Order, Failure>)
      modifies this`orders, this`history
      ensures r == RescheduleOutcome(old(View()), c)
      ensures View() == AfterReschedule(old(View()), c)
    {
      r := PrepareMove(c);
      hide RescheduleOutcome, BufferFor;
      if r.Ok? {
        orders := orders[c.id := r.value];
        history := Stamped(history, c.id, BufferFor(site, r.value.branch));
      }
    }

    method UpdateStatus(id: Id, status: OrderStatus, scope: Option<Id>) returns (r: Result<Order, Failure>)
      modifies this`orders
      ensures r == StatusOutcome(old(View()), id, status, scope)
      ensures View() == AfterUpdate(old(View()), id, r)
    {
      if id !in orders || orders[id].deleted || !InScope(orders[id].branch, scope) {
        return Err(NotFound);
      }
      if status !in Transitions(orders[id].status) {
        return Err(BadRequest);
      }
      orders := orders[id := orders[id].(status := status)];
      return Ok(orders[id]);
    }

    /** `handleConfirmationTimeout`: one conditional update. */
    method ConfirmationTimeout(id: Id) returns (count: nat)
      modifies this`orders
      ensures View() == Apply(old(View()), Step.ConfirmationTimeout(id))
      ensures count == if View() == old(View()) then 0 else 1
    {
      if id !in orders || orders[id].status != BookedPendingConfirmation {
        return 0;
      }
      orders := orders[id := orders[id].(status := Cancelled)];
      assert View().orders[id].status != old(View()).orders[id].status;
      return 1;
    }

    method SoftDelete(id: Id, scope: Option<Id>) returns (r: Result<Order, Failure>)
      modifies this`orders
      ensures r == DeleteOutcome(old(View()), id, scope)
      ensures View() == AfterUpdate(old(View()), id, r)
    {
      if id !in orders || orders[id].deleted || !InScope(orders[id].branch, scope) {
        return Err(NotFound);
      }
      orders := orders[id := orders[id].(deleted := true)];
      return Ok(orders[id]);
    }

    method RestoreOrder(id: Id, scope: Option<Id>) returns (r: Result<Order, Failure>)
      modifies this`orders, this`history
      ensures r == RestoreOutcome(old(View()), id, scope)
      ensures View() == AfterRestore(old(View()), id, scope)
    {
      if id !in orders || !InScope(orders[id].branch, scope) {
        return Err(NotFound);
      }
      var order := orders[id];
      if !order.deleted {
        return Err(BadRequest);
      }
      var isTerminal := Terminal(order.status);
      if if isTerminal then order.branch !in site.branches else !ActiveBranch(site, order.branch) {
        return Err(BadRequest);
      }
      if !isTerminal {
        var buffer := BufferFor(site, order.branch);
        var resources := ReserveResources(order.branch, AskOrKeep(None, order.post), AskOrKeep(None, order.employee),
                                          Slot(order.start, order.end, buffer, None));
        if resources.Err? {
          return Err(resources.error);
        }
        history := Stamped(history, id, buffer);
      }
      orders := orders[id := order.(deleted := false)];
      return Ok(orders[id]);
    }

    // ----- Payments -----

    /** `existingPayments.reduce(...)` over the payments of one order. */
    method SumPaid(order: Id) returns (total: nat)
      ensures total == Paid(payments, order)
    {
      total := 0;
      for i := 0 to |payments|
        invariant total == Paid(payments[..i], order)
      {
        assert payments[..i + 1][..i] == payments[..i];
        if payments[i].order == order {
          total := total + payments[i].amount;
        }
      }
      assert payments[..|payments|] == payments;
    }

    /** The callback that runs while the order row is locked. */
    method PayTx(c: PayCall, identity: Option<Identity>, overtaken: bool) returns (r: Result<Outcome<Payment>, Failure>)
      requires PaymentIdentity(c) == Ok(identity)
      modifies this`payments, this`history, keys
      ensures r == PayOutcome(old(View()), c)
      ensures r.Ok? && r.value.Created? ==>
                View() == AfterPay(old(View()), c).(paymentEvents := paymentEvents)
      ensures r.Err? || r.value.Replayed? ==> payments == old(payments) && history == old(history)
      ensures r.Ok? && r.value.Replayed? ==> keys.rows == old(keys.rows)
    {
      if c.order !in orders || orders[c.order].deleted || !InScope(orders[c.order].branch, c.scope) {
        return Err(NotFound);
      }
      var order := orders[c.order];
      if identity.Some? {
        var claim := keys.ClaimRequest(identity.value, clock, overtaken);
        if claim.Err? {
          return Err(claim.error);
        }
        if claim.value.Replay? {
          return if HasPaymentOf(payments, claim.value.resource, c.order)
                 then Ok(Replayed(claim.value.resource)) else Err(Conflict);
        }
      }
      if order.status == Cancelled || order.status == Completed || order.status == NoShow {
        return Err(BadRequest);
      }
      var totalPaid := SumPaid(c.order);
      if order.totalPrice > 0 && totalPaid + c.amount > order.totalPrice {
        return Err(BadRequest);
      }
      if HasPayment(payments, c.newId) {
        return Err(Conflict);
      }
      var payment := Payment(c.newId, c.order, c.amount);
      payments := payments + [payment];
      history := Recorded(history, PaymentV1, c.newId, identity, clock);
      if identity.Some? {
        keys.SaveRequest(identity.value, c.newId);
      }
      return Ok(Created(payment));
    }

    method CreatePayment(c: PayCall, overtaken: bool) returns (r: Result<Outcome<Payment>, Failure>)
      modifies this, keys
      ensures r == PayOutcome(old(View()), c)
      ensures View() == AfterPay(old(View()), c)
    {
      var identity := PaymentIdentity(c);
      if identity.Err? {
        return Err(BadRequest);
      }
      var saved := keys.rows;
      r := PayTx(c, identity.value, overtaken);
      if r.Err? {
        keys.Rollback(saved);
      } else if r.value.Created? {
        paymentEvents := paymentEvents + [c.newId];
      }
    }

    // ----- Everything else that happens to the tables -----

    method CleanExpired()
      modifies keys
      ensures View() == Apply(old(View()), Step.CleanExpired)
    {
      keys.DeleteExpired(clock);
    }

    method Administer(site': Site)
      modifies this`site
      ensures View() == Apply(old(View()), Step.Administer(site'))
    {
      site := site';
    }

    method Wait(ms: nat)
      modifies this`clock
      ensures View() == Apply(old(View()), Step.Wait(ms))
    {
      clock := clock + ms;
    }
  }

  /** The claimed row, once completed, is the receipt of the creation. */
  lemma ClaimedThenSaved(w: World, c: CreateCall, identity: Option<Identity>, rows: map<string, Row>)
    requires OrderIdentity(c) == Ok(identity) && CreateOutcome(w, c).Ok? && CreateOutcome(w, c).value.Created?
    requires rows == if identity.Some? then RowsAfterClaim(w.keys, identity.value, w.clock) else w.keys
    ensures identity.Some? ==> identity.value.key in rows
    ensures KeysAfterCreation(w, identity, c.newId) ==
            if identity.None? then rows
            else rows[identity.value.key :=
                   rows[identity.value.key].(statusCode := 201, body := Some(EnvelopeOf(identity.value, Some(c.newId))))]
  {
    hide FreshOutcome, OrderIdentity;
  }

  /** A replay leaves the key table as it was. */
  lemma UnclaimedRowsStay(w: World, c: CreateCall)
    requires OrderIdentity(c).Ok? && CreateOutcome(w, c).Ok? && CreateOutcome(w, c).value.Replayed?
    ensures OrderIdentity(c).value.Some? && RowsAfterClaim(w.keys, OrderIdentity(c).value.value, w.clock) == w.keys
  {
    hide NewOrder, OrderIdentity;
  }

  /** Preparing a fresh order does not read the key table. */
  lemma FreshIgnoresKeys(w: World, w': World, c: CreateCall)
    requires w' == w.(keys := w'.keys)
    ensures FreshOutcome(w', c) == FreshOutcome(w, c)
  {
    hide ResourcesFor, ServicesResolve, PriceSum, DurationSum;
  }

  predicate Ascending(ids: seq<Id>) {
    forall i, j :: 0 <= i < j < |ids| ==> ids[i].Below(ids[j])
  }

  /** The first free entry of an ascending list is the least free id. */
  lemma FirstFreeIsLeast(ids: seq<Id>, i: int, free: set<Id>)
    requires Ascending(ids) && 0 <= i < |ids| && ids[i] in free
    requires forall p :: p in free ==> p in ids
    requires forall k :: 0 <= k < i ==> ids[k] !in free
    ensures MinId(free) == ids[i]
  {
  }
}
