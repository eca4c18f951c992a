/**
 * What holds after every run of booking and payment transactions that starts from empty tables:
 * no double booking, no overpayment, one creation per key and day, one event per creation.
 */
module BookingSafety {
  import opened Domain
  import opened Idempotency
  import opened OrderIntent
  import opened Reservation
  import opened Booking

  // ----- No double booking -----

  /** Disjoint, with at least `buffer` minutes between them. */
  predicate Apart(a: Order, b: Order, buffer: nat) {
    a.end + buffer * 60000 <= b.start || b.end + buffer * 60000 <= a.start
  }

  predicate Shares(a: Order, b: Order) {
    (a.post.Some? && a.post == b.post) || (a.employee.Some? && a.employee == b.employee)
  }

  /** The buffer in force when the later of two reservations was made. */
  function LaterBuffer(h: History, i: Id, j: Id): nat
    requires i in h.stamps && j in h.stamps
  {
    if h.stamps[i].at < h.stamps[j].at then h.stamps[j].buffer else h.stamps[i].buffer
  }

  predicate SafePair(orders: map<Id, Order>, h: History, i: Id, j: Id)
    requires i in orders && j in orders && i in h.stamps && j in h.stamps
  {
    Active(orders[i]) && Active(orders[j]) && Shares(orders[i], orders[j]) ==>
      Apart(orders[i], orders[j], LaterBuffer(h, i, j))
  }

  predicate StampsOrdered(orders: map<Id, Order>, h: History) {
    && orders.Keys <= h.stamps.Keys
    && forall i :: i in h.stamps ==> h.stamps[i].at < h.tick
  }

  ghost predicate NoDoubleBooking(orders: map<Id, Order>, h: History) {
    && StampsOrdered(orders, h)
    && forall i, j :: i in orders && j in orders && i != j ==> SafePair(orders, h, i, j)
  }

  /** The slot [o.start, o.end) with the buffer is free for the resources of `o`. */
  predicate ResourcesFree(orders: map<Id, Order>, o: Order, slot: Slot) {
    && slot.start == o.start && slot.end == o.end
    && (o.post.Some? ==> PostFree(orders, o.post.value, slot))
    && (o.employee.Some? ==> EmployeeFree(orders, o.employee.value, slot))
  }

  lemma ReservingKeepsSpacing(orders: map<Id, Order>, h: History, id: Id, o: Order, slot: Slot)
    requires NoDoubleBooking(orders, h) && ResourcesFree(orders, o, slot)
    requires slot.exclude == None || slot.exclude == Some(id)
    ensures NoDoubleBooking(orders[id := o], Stamped(h, id, slot.buffer))
  {
    var orders', h' := orders[id := o], Stamped(h, id, slot.buffer);
    forall j | j in orders && j != id
      ensures SafePair(orders', h', id, j) && SafePair(orders', h', j, id)
    {
      if Active(orders[j]) && Shares(o, orders[j]) {
        assert !Collides(orders[j], slot);
      }
    }
    forall i, j | i in orders' && j in orders' && i != j
      ensures SafePair(orders', h', i, j)
    {
      if i != id && j != id {
        assert SafePair(orders, h, i, j);
      }
    }
  }

  lemma UpdatingKeepsSpacing(orders: map<Id, Order>, h: History, id: Id, o: Order)
    requires NoDoubleBooking(orders, h) && id in orders
    requires o == orders[id].(status := o.status, deleted := o.deleted) && (Active(o) ==> Active(orders[id]))
    ensures NoDoubleBooking(orders[id := o], h)
  {
    var orders' := orders[id := o];
    forall i, j | i in orders' && j in orders' && i != j
      ensures SafePair(orders', h, i, j)
    {
      assert SafePair(orders, h, i, j);
    }
  }

  /** The statuses without exits are those that overlap queries leave out, so no status change re-activates an order. */
  lemma TerminalMeansExcluded(s: OrderStatus)
    ensures Terminal(s) <==> s == Completed || s == Cancelled || s == NoShow
  {
  }

  lemma CreateKeepsSpacing(w: World, c: CreateCall)
    requires NoDoubleBooking(w.orders, w.history)
    ensures var w' := AfterCreate(w, c); NoDoubleBooking(w'.orders, w'.history)
  {
    var outcome := CreateOutcome(w, c);
    if outcome.Ok? && outcome.value.Created? {
      var slot := SlotFor(w, c.dto);
      ReservedWasFree(w.site, w.orders, c.dto.branch, AskFor(c.dto.post), AskFor(c.dto.employee), slot);
      ReservingKeepsSpacing(w.orders, w.history, c.newId, outcome.value.row, slot);
      SpacingIgnoresRecords(Stamped(w.history, c.newId, slot.buffer), AfterCreate(w, c).orders, AfterCreate(w, c).history);
    }
  }

  lemma SpacingIgnoresRecords(h: History, orders: map<Id, Order>, h': History)
    requires h' == h.(made := h'.made) && NoDoubleBooking(orders, h)
    ensures NoDoubleBooking(orders, h')
  {
  }

  lemma RescheduleKeepsSpacing(w: World, c: RescheduleCall)
    requires NoDoubleBooking(w.orders, w.history)
    ensures var w' := AfterReschedule(w, c); NoDoubleBooking(w'.orders, w'.history)
  {
    var outcome := RescheduleOutcome(w, c);
    if outcome.Ok? {
      MovedToFree(w, c);
      var o := w.orders[c.id];
      ReservingKeepsSpacing(w.orders, w.history, c.id, outcome.value, MovedSlot(w, c, o));
    }
  }

  lemma MovedToFree(w: World, c: RescheduleCall)
    requires RescheduleOutcome(w, c).Ok?
    ensures ResourcesFree(w.orders, RescheduleOutcome(w, c).value, MovedSlot(w, c, w.orders[c.id]))
    ensures RescheduleOutcome(w, c).value.branch == w.orders[c.id].branch
  {
    var o := w.orders[c.id];
    ReservedWasFree(w.site, w.orders, o.branch, AskOrKeep(c.post, o.post), AskOrKeep(c.employee, o.employee), MovedSlot(w, c, o));
  }

  lemma NamedIsKept(site: Site, orders: map<Id, Order>, branch: Id, post: Option<Id>, employee: Option<Id>, slot: Slot)
    requires ResourcesFor(site, orders, branch, AskOrKeep(None, post), AskOrKeep(None, employee), slot).Ok?
    ensures ResourcesFor(site, orders, branch, AskOrKeep(None, post), AskOrKeep(None, employee), slot).value == Resources(post, employee)
  {
  }

  lemma RestoreKeepsSpacing(w: World, id: Id, scope: Option<Id>)
    requires NoDoubleBooking(w.orders, w.history)
    ensures var w' := AfterRestore(w, id, scope); NoDoubleBooking(w'.orders, w'.history)
  {
    var outcome := RestoreOutcome(w, id, scope);
    if outcome.Ok? {
      var o := w.orders[id];
      TerminalMeansExcluded(o.status);
      if Terminal(o.status) {
        UpdatingKeepsSpacing(w.orders, w.history, id, outcome.value);
      } else {
        var slot := Slot(o.start, o.end, BufferFor(w.site, o.branch), None);
        ReservedWasFree(w.site, w.orders, o.branch, AskOrKeep(None, o.post), AskOrKeep(None, o.employee), slot);
        NamedIsKept(w.site, w.orders, o.branch, o.post, o.employee, slot);
        ReservingKeepsSpacing(w.orders, w.history, id, outcome.value, slot);
      }
    }
  }

  lemma StatusKeepsSpacing(w: World, id: Id, status: OrderStatus, scope: Option<Id>)
    requires NoDoubleBooking(w.orders, w.history)
    ensures NoDoubleBooking(AfterUpdate(w, id, StatusOutcome(w, id, status, scope)).orders, w.history)
  {
    if StatusOutcome(w, id, status, scope).Ok? {
      TerminalMeansExcluded(w.orders[id].status);
      UpdatingKeepsSpacing(w.orders, w.history, id, w.orders[id].(status := status));
    }
  }

  lemma TimeoutKeepsSpacing(w: World, id: Id)
    requires NoDoubleBooking(w.orders, w.history)
    ensures NoDoubleBooking(AfterTimeout(w, id).orders, w.history)
  {
    if AfterTimeout(w, id) != w {
      UpdatingKeepsSpacing(w.orders, w.history, id, w.orders[id].(status := Cancelled));
    }
  }

  lemma DeleteKeepsSpacing(w: World, id: Id, scope: Option<Id>)
    requires NoDoubleBooking(w.orders, w.history)
    ensures NoDoubleBooking(AfterUpdate(w, id, DeleteOutcome(w, id, scope)).orders, w.history)
  {
  }

  // ----- No overpayment -----

  ghost predicate NoOverpayment(w: World) {
    && (forall i :: 0 <= i < |w.payments| ==> w.payments[i].order in w.orders)
    && forall id :: id in w.orders && w.orders[id].totalPrice > 0 ==> Paid(w.payments, id) <= w.orders[id].totalPrice
  }

  lemma {:induction false} NothingPaidForUnknown(payments: seq<Payment>, order: Id)
    requires forall i :: 0 <= i < |payments| ==> payments[i].order != order
    ensures Paid(payments, order) == 0
  {
    if payments != [] {
      NothingPaidForUnknown(payments[..|payments| - 1], order);
    }
  }

  lemma PaidAfterOneMore(payments: seq<Payment>, p: Payment, order: Id)
    ensures Paid(payments + [p], order) == Paid(payments, order) + (if p.order == order then p.amount else 0)
  {
  }

  lemma PayKeepsNoOverpayment(w: World, c: PayCall)
    requires NoOverpayment(w)
    ensures NoOverpayment(AfterPay(w, c))
  {
    var outcome := PayOutcome(w, c);
    if outcome.Ok? && outcome.value.Created? {
      forall id | id in w.orders
        ensures Paid(AfterPay(w, c).payments, id) == Paid(w.payments, id) + (if c.order == id then c.amount else 0)
      {
        PaidAfterOneMore(w.payments, outcome.value.row, id);
      }
    }
  }

  /** Rows keep their total price, and nothing has been paid for a new row. */
  lemma SamePricesNoOverpayment(w: World, w': World)
    requires NoOverpayment(w) && w'.payments == w.payments && w.orders.Keys <= w'.orders.Keys
    requires forall id :: id in w.orders ==> w'.orders[id].totalPrice == w.orders[id].totalPrice
    ensures NoOverpayment(w')
  {
    forall id | id in w'.orders && id !in w.orders
      ensures Paid(w'.payments, id) == 0
    {
      NothingPaidForUnknown(w'.payments, id);
    }
  }

  lemma OtherStepsKeepPrices(w: World, s: Step)
    requires !s.Pay?
    ensures var w' := Apply(w, s);
            && w'.payments == w.payments && w.orders.Keys <= w'.orders.Keys
            && forall id :: id in w.orders ==> w'.orders[id].totalPrice == w.orders[id].totalPrice
  {
    hide ResourcesFor, ValidRequest;
  }

  lemma StepKeepsNoOverpayment(w: World, s: Step)
    requires NoOverpayment(w)
    ensures NoOverpayment(Apply(w, s))
  {
    if s.Pay? {
      PayKeepsNoOverpayment(w, s.pay);
    } else {
      hide Apply, NoOverpayment;
      OtherStepsKeepPrices(w, s);
      SamePricesNoOverpayment(w, Apply(w, s));
    }
  }

  // ----- One creation per key and day; replays of it until then -----

  /** Every committed key row is complete and names a resource made under that key. */
  ghost predicate KeysAreReceipts(w: World) {
    forall k :: k in w.keys ==> exists i :: 0 <= i < |w.history.made| && IsReceipt(w.keys[k], k, w.history.made[i])
  }

  predicate IsReceipt(row: Row, key: string, made: Creation) {
    && made.identity.Some? && made.identity.value.key == key && made.identity.value.kind == made.kind
    && row == CompletedRow(made.identity.value, made.resource, made.at)
  }

  predicate SameKey(a: Creation, b: Creation) {
    a.identity.Some? && b.identity.Some? && a.identity.value.key == b.identity.value.key
  }

  /** A creation is a day old, or its key is still held. */
  predicate StillHeld(w: World, c: Creation) {
    || c.identity.None? || c.at + 86400000 <= w.clock
    || (c.identity.value.key in w.keys && c.at + 86400000 <= w.keys[c.identity.value.key].expiresAt)
  }

  ghost predicate KeysHeldForADay(w: World) {
    forall i :: 0 <= i < |w.history.made| ==> w.history.made[i].at <= w.clock && StillHeld(w, w.history.made[i])
  }

  ghost predicate CreationsADayApart(made: seq<Creation>) {
    forall i, j :: 0 <= i < j < |made| && SameKey(made[i], made[j]) ==> made[i].at + 86400000 <= made[j].at
  }

  ghost predicate KeyDiscipline(w: World) {
    KeysAreReceipts(w) && KeysHeldForADay(w) && CreationsADayApart(w.history.made)
  }

  /** `w'` is `w` after a creation under a key that no live row holds. */
  ghost predicate Creates(w: World, w': World, identity: Option<Identity>, resource: Id, kind: Kind) {
    && (identity.Some? ==> identity.value.kind == kind && !Live(w.keys, identity.value.key, w.clock))
    && w'.keys == KeysAfterCreation(w, identity, resource) && w'.clock == w.clock
    && w'.history.made == w.history.made + [Creation(kind, resource, identity, w.clock)]
  }

  lemma CreationKeepsReceipts(w: World, w': World, identity: Option<Identity>, resource: Id, kind: Kind)
    requires KeysAreReceipts(w) && Creates(w, w', identity, resource, kind)
    ensures KeysAreReceipts(w')
  {
    var n := |w.history.made|;
    forall k | k in w'.keys
      ensures exists i :: 0 <= i < |w'.history.made| && IsReceipt(w'.keys[k], k, w'.history.made[i])
    {
      if identity.Some? && identity.value.key == k {
        assert IsReceipt(w'.keys[k], k, w'.history.made[n]);
      } else {
        var i :| 0 <= i < n && IsReceipt(w.keys[k], k, w.history.made[i]);
        assert IsReceipt(w'.keys[k], k, w'.history.made[i]);
      }
    }
  }

  lemma CreationKeepsHeld(w: World, w': World, identity: Option<Identity>, resource: Id, kind: Kind)
    requires KeysHeldForADay(w) && Creates(w, w', identity, resource, kind)
    ensures KeysHeldForADay(w')
  {
  }

  lemma CreationKeepsApart(w: World, w': World, identity: Option<Identity>, resource: Id, kind: Kind)
    requires KeysHeldForADay(w) && CreationsADayApart(w.history.made) && Creates(w, w', identity, resource, kind)
    ensures CreationsADayApart(w'.history.made)
  {
  }

  lemma CreationKeepsDiscipline(w: World, w': World, identity: Option<Identity>, resource: Id, kind: Kind)
    requires KeyDiscipline(w) && Creates(w, w', identity, resource, kind)
    ensures KeyDiscipline(w')
  {
    CreationKeepsReceipts(w, w', identity, resource, kind);
    CreationKeepsHeld(w, w', identity, resource, kind);
    CreationKeepsApart(w, w', identity, resource, kind);
  }

  lemma CleanupKeepsDiscipline(w: World)
    requires KeyDiscipline(w)
    ensures KeyDiscipline(w.(keys := RowsAfterCleanup(w.keys, w.clock)))
  {
    var w' := w.(keys := RowsAfterCleanup(w.keys, w.clock));
    forall i | 0 <= i < |w'.history.made|
      ensures StillHeld(w', w'.history.made[i])
    {
      assert StillHeld(w, w.history.made[i]);
    }
  }

  lemma WaitKeepsDiscipline(w: World, ms: nat)
    requires KeyDiscipline(w)
    ensures KeyDiscipline(w.(clock := w.clock + ms))
  {
  }

  lemma CreateKeepsDiscipline(w: World, c: CreateCall)
    requires KeyDiscipline(w)
    ensures KeyDiscipline(AfterCreate(w, c))
  {
    var outcome := CreateOutcome(w, c);
    if outcome.Ok? && outcome.value.Created? {
      CreationKeepsDiscipline(w, AfterCreate(w, c), OrderIdentity(c).value, c.newId, OrderV1);
    }
  }

  lemma PayKeepsDiscipline(w: World, c: PayCall)
    requires KeyDiscipline(w)
    ensures KeyDiscipline(AfterPay(w, c))
  {
    var outcome := PayOutcome(w, c);
    if outcome.Ok? && outcome.value.Created? {
      CreationKeepsDiscipline(w, AfterPay(w, c), PaymentIdentity(c).value, c.newId, PaymentV1);
    }
  }

  lemma OtherStepsKeepKeys(w: World, s: Step)
    requires !s.Create? && !s.Pay? && !s.CleanExpired? && !s.Wait?
    ensures var w' := Apply(w, s);
            w'.keys == w.keys && w'.clock == w.clock && w'.history.made == w.history.made
            && w'.orders.Keys == w.orders.Keys && w'.payments == w.payments
            && w'.orderEvents == w.orderEvents && w'.paymentEvents == w.paymentEvents
  {
    hide ResourcesFor;
  }

  lemma StepKeepsDiscipline(w: World, s: Step)
    requires KeyDiscipline(w)
    ensures KeyDiscipline(Apply(w, s))
  {
    hide KeyDiscipline, CreateOutcome, PayOutcome, RescheduleOutcome, RestoreOutcome;
    if s.Create? {
      CreateKeepsDiscipline(w, s.create);
    } else if s.Pay? {
      PayKeepsDiscipline(w, s.pay);
    } else if s.CleanExpired? {
      CleanupKeepsDiscipline(w);
    } else if s.Wait? {
      WaitKeepsDiscipline(w, s.ms);
    } else {
      OtherStepsKeepKeys(w, s);
      SameKeysSameDiscipline(w, Apply(w, s));
    }
  }

  lemma SameKeysSameDiscipline(w: World, w': World)
    requires KeyDiscipline(w) && w'.keys == w.keys && w'.clock == w.clock && w'.history.made == w.history.made
    ensures KeyDiscipline(w')
  {
  }

  /**
   * For a day after a creation, a request under its key yields that resource if it is the same
   * request and a conflict otherwise: it never creates.
   */
  lemma RepeatNeverCreates(w: World, i: int, identity: Identity)
    requires KeyDiscipline(w) && 0 <= i < |w.history.made| && w.history.made[i].identity.Some?
    requires w.history.made[i].identity.value.key == identity.key && w.clock < w.history.made[i].at + 86400000
    ensures ClaimFor(w.keys, identity, w.clock) ==
            if identity == w.history.made[i].identity.value then Ok(Replay(w.history.made[i].resource)) else Err(Conflict)
  {
    var made, row := w.history.made, w.keys[identity.key];
    assert StillHeld(w, made[i]);
    var j :| 0 <= j < |made| && IsReceipt(row, identity.key, made[j]);
    WithinADayIsSame(made, i, j);
  }

  lemma WithinADayIsSame(made: seq<Creation>, i: int, j: int)
    requires CreationsADayApart(made) && 0 <= i < |made| && 0 <= j < |made| && SameKey(made[i], made[j])
    requires made[i].at - 86400000 < made[j].at < made[i].at + 86400000
    ensures i == j
  {
  }

  // ----- One event per creation -----

  predicate EventsMatchRows(w: World) {
    && Enumerates(w.orderEvents, w.orders.Keys)
    && |w.paymentEvents| == |w.payments|
    && (forall i :: 0 <= i < |w.payments| ==> w.payments[i].id == w.paymentEvents[i])
    && Distinct(w.paymentEvents)
  }

  lemma CreateKeepsEvents(w: World, c: CreateCall)
    requires EventsMatchRows(w)
    ensures EventsMatchRows(AfterCreate(w, c))
  {
    hide NewOrder;
    var w' := AfterCreate(w, c);
    if CreateOutcome(w, c).Ok? && CreateOutcome(w, c).value.Created? {
      assert forall x :: x in w'.orderEvents <==> x in w.orderEvents || x == c.newId;
    }
  }

  lemma PayKeepsEvents(w: World, c: PayCall)
    requires EventsMatchRows(w)
    ensures EventsMatchRows(AfterPay(w, c))
  {
    if PayOutcome(w, c).Ok? && PayOutcome(w, c).value.Created? {
      forall i | 0 <= i < |w.paymentEvents|
        ensures w.paymentEvents[i] != c.newId
      {
        assert w.payments[i].id == w.paymentEvents[i];
      }
    }
  }

  lemma StepKeepsEvents(w: World, s: Step)
    requires EventsMatchRows(w)
    ensures EventsMatchRows(Apply(w, s))
  {
    hide CreateOutcome, PayOutcome, RescheduleOutcome, RestoreOutcome;
    if s.Create? {
      CreateKeepsEvents(w, s.create);
    } else if s.Pay? {
      PayKeepsEvents(w, s.pay);
    } else if !s.CleanExpired? && !s.Wait? {
      OtherStepsKeepKeys(w, s);
    }
  }

  // ----- Every run -----

  ghost predicate Sound(w: World) {
    NoDoubleBooking(w.orders, w.history) && NoOverpayment(w) && KeyDiscipline(w) && EventsMatchRows(w)
  }

  /** Empty tables. */
  ghost predicate Genesis(w: World) {
    && w.orders == map[] && w.payments == [] && w.keys == map[] && w.orderEvents == [] && w.paymentEvents == []
    && w.history == History(map[], 0, [])
  }

  lemma StepKeepsSound(w: World, s: Step)
    requires Sound(w)
    ensures Sound(Apply(w, s))
  {
    StepKeepsNoOverpayment(w, s);
    StepKeepsDiscipline(w, s);
    StepKeepsEvents(w, s);
    match s
    case Create(c) => CreateKeepsSpacing(w, c);
    case Reschedule(c) => RescheduleKeepsSpacing(w, c);
    case UpdateStatus(id, status, scope) => StatusKeepsSpacing(w, id, status, scope);
    case ConfirmationTimeout(id) => TimeoutKeepsSpacing(w, id);
    case SoftDelete(id, scope) => DeleteKeepsSpacing(w, id, scope);
    case Restore(id, scope) => RestoreKeepsSpacing(w, id, scope);
    case Pay(c) => PayKeepsSpacing(w, c);
    case _ =>
  }

  lemma PayKeepsSpacing(w: World, c: PayCall)
    requires NoDoubleBooking(w.orders, w.history)
    ensures var w' := AfterPay(w, c); NoDoubleBooking(w'.orders, w'.history)
  {
    var w' := AfterPay(w, c);
    SpacingIgnoresRecords(w.history, w'.orders, w'.history);
  }

  lemma {:induction false} RunKeepsSound(w: World, steps: seq<Step>)
    requires Sound(w)
    ensures Sound(Run(w, steps))
    decreases |steps|
  {
    if steps != [] {
      StepKeepsSound(w, steps[0]);
      RunKeepsSound(Apply(w, steps[0]), steps[1..]);
    }
  }

  /** The main result: every run from empty tables ends in a sound state. */
  lemma EveryRunIsSound(w: World, steps: seq<Step>)
    requires Genesis(w)
    ensures Sound(Run(w, steps))
  {
    RunKeepsSound(w, steps);
  }

  // ----- Retrying a request -----

  lemma {:induction false} RunExtendsHistory(w: World, steps: seq<Step>)
    ensures w.history.made <= Run(w, steps).history.made && w.payments <= Run(w, steps).payments
    decreases |steps|
  {
    if steps != [] {
      var next := Apply(w, steps[0]);
      assert w.history.made <= next.history.made && w.payments <= next.payments;
      RunExtendsHistory(next, steps[1..]);
    }
  }

  lemma CreationStaysRecorded(w: World, s: Step, made: Creation, steps: seq<Step>)
    requires Sound(w) && Apply(w, s).history.made == w.history.made + [made]
    ensures var later := Run(Apply(w, s), steps);
            && KeyDiscipline(later) && Apply(w, s).payments <= later.payments
            && |w.history.made| < |later.history.made| && later.history.made[|w.history.made|] == made
  {
    hide Apply, Run, KeyDiscipline;
    StepKeepsSound(w, s);
    RunKeepsSound(Apply(w, s), steps);
    RunExtendsHistory(Apply(w, s), steps);
    assert Apply(w, s).history.made[|w.history.made|] == made;
  }

  lemma BookingIsRecorded(w: World, c: CreateCall)
    requires CreateOutcome(w, c).Ok? && CreateOutcome(w, c).value.Created?
    ensures Apply(w, Create(c)) == AfterCreate(w, c) && OrderIdentity(c).Ok? && InScope(c.dto.branch, c.scope)
    ensures AfterCreate(w, c).history.made == w.history.made + [Creation(OrderV1, c.newId, OrderIdentity(c).value, w.clock)]
  {
    hide FreshOutcome;
  }

  lemma KeyedIdentity(c: CreateCall, retry: CreateCall)
    requires OrderIdentity(c).Ok? && c.key.Some? && retry.key == c.key
    ensures OrderIdentity(c).value.Some? && OrderIdentity(c).value.value.key == c.key.value && OrderIdentity(retry).Ok?
  {
  }

  lemma ReplayedAnswer(w: World, i: int, retry: CreateCall)
    requires KeyDiscipline(w) && 0 <= i < |w.history.made| && w.history.made[i].identity.Some?
    requires retry.key == Some(w.history.made[i].identity.value.key) && w.clock < w.history.made[i].at + 86400000
    requires OrderIdentity(retry).Ok? && InScope(retry.dto.branch, retry.scope)
    ensures AfterCreate(w, retry) == w
    ensures CreateOutcome(w, retry) ==
            if OrderIdentity(retry).value != w.history.made[i].identity then Err(Conflict)
            else if Visible(w, w.history.made[i].resource, Some(retry.dto.branch)) then Ok(Replayed(w.history.made[i].resource))
            else Err(NotFound)
  {
    RepeatNeverCreates(w, i, OrderIdentity(retry).value.value);
  }

  /**
   * Whatever happens in the day after a keyed booking, sending a request with its key again changes
   * nothing: the same request is answered with the booked order while that order is visible in the
   * branch, and any other request is refused.
   */
  lemma RetriedBooking(w: World, c: CreateCall, steps: seq<Step>, retry: CreateCall)
    requires Sound(w) && CreateOutcome(w, c).Ok? && CreateOutcome(w, c).value.Created? && c.key.Some?
    requires Run(AfterCreate(w, c), steps).clock < w.clock + 86400000
    requires retry.key == c.key && InScope(retry.dto.branch, retry.scope)
    ensures var later := Run(AfterCreate(w, c), steps);
            && AfterCreate(later, retry) == later
            && CreateOutcome(later, retry) ==
               if OrderIdentity(retry) != OrderIdentity(c) then Err(Conflict)
               else if Visible(later, c.newId, Some(retry.dto.branch)) then Ok(Replayed(c.newId))
               else Err(NotFound)
  {
    hide AfterCreate, CreateOutcome, Apply, Run, Sound, OrderIdentity, KeyDiscipline, Visible;
    BookingIsRecorded(w, c);
    KeyedIdentity(c, retry);
    CreationStaysRecorded(w, Create(c), Creation(OrderV1, c.newId, OrderIdentity(c).value, w.clock), steps);
    ReplayedAnswer(Run(AfterCreate(w, c), steps), |w.history.made|, retry);
  }

  lemma ReplayedPaymentAnswer(w: World, i: int, retry: PayCall)
    requires KeyDiscipline(w) && 0 <= i < |w.history.made| && w.history.made[i].identity.Some?
    requires retry.key == Some(w.history.made[i].identity.value.key) && w.clock < w.history.made[i].at + 86400000
    requires PaymentIdentity(retry).Ok?
    ensures AfterPay(w, retry) == w
    ensures PayOutcome(w, retry) ==
            if !Visible(w, retry.order, retry.scope) then Err(NotFound)
            else if PaymentIdentity(retry).value != w.history.made[i].identity then Err(Conflict)
            else if HasPaymentOf(w.payments, w.history.made[i].resource, retry.order) then Ok(Replayed(w.history.made[i].resource))
            else Err(Conflict)
  {
    RepeatNeverCreates(w, i, PaymentIdentity(retry).value.value);
  }

  /**
   * Whatever happens in the day after a keyed payment, sending it again charges nothing: on a visible
   * order the same request is answered with that payment, and any other request under the key is refused.
   */
  lemma RetriedPayment(w: World, c: PayCall, steps: seq<Step>, retry: PayCall)
    requires Sound(w) && PayOutcome(w, c).Ok? && PayOutcome(w, c).value.Created? && c.key.Some?
    requires Run(AfterPay(w, c), steps).clock < w.clock + 86400000 && retry.key == c.key
    ensures var later := Run(AfterPay(w, c), steps);
            && AfterPay(later, retry) == later
            && PayOutcome(later, retry) ==
               if !Visible(later, retry.order, retry.scope) then Err(NotFound)
               else if PaymentIdentity(retry) != PaymentIdentity(c) then Err(Conflict)
               else Ok(Replayed(c.newId))
  {
    var made, n := Creation(PaymentV1, c.newId, PaymentIdentity(c).value, w.clock), |w.payments|;
    assert Apply(w, Pay(c)) == AfterPay(w, c) && AfterPay(w, c).history.made == w.history.made + [made];
    assert AfterPay(w, c).payments[n] == Payment(c.newId, c.order, c.amount);
    hide AfterPay, PayOutcome, Run, Sound;
    CreationStaysRecorded(w, Pay(c), made, steps);
    var later := Run(AfterPay(w, c), steps);
    assert later.payments[n] == Payment(c.newId, c.order, c.amount);
    ReplayedPaymentAnswer(later, |w.history.made|, retry);
  }

  /** Listing the services in another order is still the same request. */
  lemma SameServicesSameRequest(c: CreateCall, retry: CreateCall)
    requires c.anonymous.None? && retry.anonymous.None? && retry.key == c.key && retry.actor == c.actor && OrderIdentity(c).Ok?
    requires c.key.Some?
    ensures OrderIdentity(retry) == OrderIdentity(c) <==>
            && retry.dto.(services := [], source := SourceOf(retry.dto)) == c.dto.(services := [], source := SourceOf(c.dto))
            && multiset(retry.dto.services) == multiset(c.dto.services)
  {
    FingerprintIff(retry.dto, c.dto);
  }
}
