/**
 * The committed steps of orders and payments over one tenant's tables: what each transaction of
 * OrdersService and PaymentsService does to the tables, and when it is refused. A refused
 * transaction changes nothing.
 */
module Booking {
  import opened Domain
  import opened Idempotency
  import opened OrderIntent
  import opened Reservation

  datatype Payment = Payment(id: Id, order: Id, amount: nat)

  /** When an order last reserved its resources, and the buffer then in force. */
  datatype Stamp = Stamp(at: nat, buffer: nat)

  /** A resource created by a committed transaction, and the request identity it was claimed with. */
  datatype Creation = Creation(kind: Kind, resource: Id, identity: Option<Identity>, at: int)

  /** What happened so far; no step reads it. */
  datatype History = History(stamps: map<Id, Stamp>, tick: nat, made: seq<Creation>)

  datatype World = World(clock: int, site: Site, orders: map<Id, Order>, payments: seq<Payment>,
                         keys: map<string, Row>, orderEvents: seq<Id>, paymentEvents: seq<Id>, history: History)

  /** A transaction that creates a resource, or replays one created earlier under its key. */
  datatype Outcome<T> = Replayed(id: Id) | Created(row: T)

  predicate InScope(branch: Id, scope: Option<Id>) {
    scope.None? || scope.value == branch
  }

  /** The order row is visible to the caller: not deleted, and in the caller's branch. */
  predicate Visible(w: World, id: Id, scope: Option<Id>) {
    id in w.orders && !w.orders[id].deleted && InScope(w.orders[id].branch, scope)
  }

  function Stamped(h: History, order: Id, buffer: nat): History {
    h.(stamps := h.stamps[order := Stamp(h.tick, buffer)], tick := h.tick + 1)
  }

  function Recorded(h: History, kind: Kind, resource: Id, identity: Option<Identity>, at: int): History {
    h.(made := h.made + [Creation(kind, resource, identity, at)])
  }

  function KeysAfterCreation(w: World, identity: Option<Identity>, resource: Id): map<string, Row> {
    if identity.None? then w.keys
    else w.keys[identity.value.key := CompletedRow(identity.value, resource, w.clock)]
  }

  // ----- Creating an order -----

  /** `anonymous` is the payload of a public booking, `dayAllowed` the verdict of the booking-day rules. */
  datatype CreateCall = CreateCall(dto: CreateDto, key: Option<string>, actor: Option<Id>, anonymous: Option<string>,
                                   scope: Option<Id>, dayAllowed: bool, newId: Id)

  function OrderIdentity(c: CreateCall): Result<Option<Identity>, Failure> {
    if c.anonymous.Some?
    then RequestIdentity(c.key, PublicBookRoute, OrderV1, c.actor, PublicIntent(c.anonymous.value))
    else RequestIdentity(c.key, OrdersRoute, OrderV1, c.actor, IntentOf(c.dto))
  }

  function PriceSum(site: Site, services: seq<Id>): nat {
    if services == [] then 0
    else (if services[0] in site.services then site.services[services[0]].price else 0) + PriceSum(site, services[1..])
  }

  function DurationSum(site: Site, services: seq<Id>): nat {
    if services == [] then 0
    else (if services[0] in site.services then site.services[services[0]].durationMin else 0)
         + DurationSum(site, services[1..])
  }

  /** `resolveServicesAndPricing`: one active row per requested id, so a repeated id is refused. */
  predicate ServicesResolve(site: Site, services: seq<Id>) {
    && Distinct(services)
    && forall i | 0 <= i < |services| ::
         services[i] in site.services && site.services[services[i]].isActive && !site.services[services[i]].deleted
  }

  predicate Owns(site: Site, client: Id, vehicle: Id) {
    && client in site.clients
    && vehicle in site.vehicles && !site.vehicles[vehicle].deleted && site.vehicles[vehicle].client == client
  }

  function AskFor(chosen: Option<Id>): Ask {
    if chosen.Some? then Named(chosen.value) else Automatic
  }

  function SlotFor(w: World, dto: CreateDto): Slot {
    Slot(dto.start, dto.start + DurationSum(w.site, dto.services) * 60000, BufferFor(w.site, dto.branch), None)
  }

  /** The checks of `create` that come before reserving resources. */
  predicate ValidRequest(w: World, dto: CreateDto, dayAllowed: bool) {
    && dto.services != [] && dto.start >= w.clock && Owns(w.site, dto.client, dto.vehicle)
    && ServicesResolve(w.site, dto.services) && ActiveBranch(w.site, dto.branch) && dayAllowed
  }

  function OrderOn(w: World, dto: CreateDto, r: Resources): Order {
    Order(dto.branch, dto.client, dto.vehicle, r.post, r.employee,
          if SourceOf(dto) == "WEB" then BookedPendingConfirmation else Booked,
          SlotFor(w, dto).start, SlotFor(w, dto).end, PriceSum(w.site, dto.services), false)
  }

  /** The order that a fresh request inserts. */
  function NewOrder(w: World, dto: CreateDto, dayAllowed: bool): Result<Order, Failure> {
    if !ValidRequest(w, dto, dayAllowed) then Err(BadRequest)
    else
      match ResourcesFor(w.site, w.orders, dto.branch, AskFor(dto.post), AskFor(dto.employee), SlotFor(w, dto))
      case Err(f) => Err(f)
      case Ok(r) => Ok(OrderOn(w, dto, r))
  }

  function FreshOutcome(w: World, c: CreateCall): Result<Outcome<Order>, Failure> {
    match NewOrder(w, c.dto, c.dayAllowed)
    case Err(f) => Err(f)
    case Ok(o) => if c.newId in w.orders then Err(Conflict) else Ok(Created(o))
  }

  /** The claim made at the start of a creating transaction; without a key there is nothing to claim. */
  function ClaimOutcome(w: World, identity: Option<Identity>): Result<Claim, Failure> {
    if identity.Some? then ClaimFor(w.keys, identity.value, w.clock) else Ok(Fresh)
  }

  function CreateOutcome(w: World, c: CreateCall): Result<Outcome<Order>, Failure> {
    if !InScope(c.dto.branch, c.scope) || OrderIdentity(c).Err? then Err(BadRequest)
    else
      match ClaimOutcome(w, OrderIdentity(c).value)
      case Err(f) => Err(f)
      case Ok(Replay(id)) =>
        if Visible(w, id, Some(c.dto.branch)) then Ok(Replayed(id)) else Err(NotFound)
      case Ok(Fresh) => FreshOutcome(w, c)
  }

  function AfterCreate(w: World, c: CreateCall): World {
    match CreateOutcome(w, c)
    case Ok(Created(o)) =>
      w.(orders := w.orders[c.newId := o],
         keys := KeysAfterCreation(w, OrderIdentity(c).value, c.newId),
         orderEvents := w.orderEvents + [c.newId],
         history := Recorded(Stamped(w.history, c.newId, BufferFor(w.site, c.dto.branch)),
                             OrderV1, c.newId, OrderIdentity(c).value, w.clock))
    case _ => w
  }

  // ----- Moving, ending, deleting and restoring an order -----

  datatype RescheduleCall = RescheduleCall(id: Id, post: Option<Id>, employee: Option<Id>, start: int,
                                           scope: Option<Id>, dayAllowed: bool)

  /** An omitted id keeps the stored resource, including a stored null. */
  function AskOrKeep(chosen: Option<Id>, stored: Option<Id>): Ask {
    if chosen.Some? then Named(chosen.value) else if stored.Some? then Named(stored.value) else Unassigned
  }

  predicate CanMove(w: World, c: RescheduleCall, o: Order) {
    && (o.status == Booked || o.status == BookedPendingConfirmation)
    && c.start >= w.clock && o.end - o.start > 0 && ActiveBranch(w.site, o.branch) && c.dayAllowed
  }

  /** The stored duration is kept, and the order itself does not count as a conflict. */
  function MovedSlot(w: World, c: RescheduleCall, o: Order): Slot {
    Slot(c.start, c.start + (o.end - o.start), BufferFor(w.site, o.branch), Some(c.id))
  }

  function Moved(o: Order, slot: Slot, r: Resources): Order {
    o.(post := r.post, employee := r.employee, start := slot.start, end := slot.end)
  }

  function RescheduleOutcome(w: World, c: RescheduleCall): Result<Order, Failure> {
    if !Visible(w, c.id, c.scope) then Err(NotFound)
    else
      var o := w.orders[c.id];
      if !CanMove(w, c, o) then Err(BadRequest)
      else
        var slot := MovedSlot(w, c, o);
        match ResourcesFor(w.site, w.orders, o.branch, AskOrKeep(c.post, o.post), AskOrKeep(c.employee, o.employee), slot)
        case Err(f) => Err(f)
        case Ok(r) => Ok(Moved(o, slot, r))
  }

  function AfterReschedule(w: World, c: RescheduleCall): World {
    match RescheduleOutcome(w, c)
    case Ok(o) => w.(orders := w.orders[c.id := o], history := Stamped(w.history, c.id, BufferFor(w.site, o.branch)))
    case _ => w
  }

  function StatusOutcome(w: World, id: Id, status: OrderStatus, scope: Option<Id>): Result<Order, Failure> {
    if !Visible(w, id, scope) then Err(NotFound)
    else if status !in Transitions(w.orders[id].status) then Err(BadRequest)
    else Ok(w.orders[id].(status := status))
  }

  /** The confirmation-timeout job: it cancels a pending order, deleted or not. */
  function AfterTimeout(w: World, id: Id): World {
    if id in w.orders && w.orders[id].status == BookedPendingConfirmation
    then w.(orders := w.orders[id := w.orders[id].(status := Cancelled)]) else w
  }

  function DeleteOutcome(w: World, id: Id, scope: Option<Id>): Result<Order, Failure> {
    if !Visible(w, id, scope) then Err(NotFound) else Ok(w.orders[id].(deleted := true))
  }

  function AfterUpdate(w: World, id: Id, outcome: Result<Order, Failure>): World {
    if outcome.Ok? then w.(orders := w.orders[id := outcome.value]) else w
  }

  function RestoreOutcome(w: World, id: Id, scope: Option<Id>): Result<Order, Failure> {
    if id !in w.orders || !InScope(w.orders[id].branch, scope) then Err(NotFound)
    else
      var o := w.orders[id];
      if !o.deleted then Err(BadRequest)
      else if Terminal(o.status) then
        if o.branch in w.site.branches then Ok(o.(deleted := false)) else Err(BadRequest)
      else if !ActiveBranch(w.site, o.branch) then Err(BadRequest)
      else
        var slot := Slot(o.start, o.end, BufferFor(w.site, o.branch), None);
        match ResourcesFor(w.site, w.orders, o.branch, AskOrKeep(None, o.post), AskOrKeep(None, o.employee), slot)
        case Err(f) => Err(f)
        case Ok(_) => Ok(o.(deleted := false))
  }

  function AfterRestore(w: World, id: Id, scope: Option<Id>): World {
    match RestoreOutcome(w, id, scope)
    case Ok(o) =>
      var h := if Terminal(o.status) then w.history else Stamped(w.history, id, BufferFor(w.site, o.branch));
      w.(orders := w.orders[id := o], history := h)
    case _ => w
  }

  // ----- Paying -----

  datatype PayCall = PayCall(order: Id, amount: nat, means: string, status: string, reference: Option<string>,
                             key: Option<string>, actor: Id, scope: Option<Id>, newId: Id)

  function PaymentIdentity(c: PayCall): Result<Option<Identity>, Failure> {
    RequestIdentity(c.key, PaymentsRoute(c.order), PaymentV1, Some(c.actor),
                    PaymentIntent(c.amount, c.means, if c.status == "" then "PAID" else c.status, c.reference))
  }

  function Paid(payments: seq<Payment>, order: Id): nat {
    if payments == [] then 0
    else Paid(payments[..|payments| - 1], order)
         + (if payments[|payments| - 1].order == order then payments[|payments| - 1].amount else 0)
  }

  predicate HasPayment(payments: seq<Payment>, id: Id) {
    exists i | 0 <= i < |payments| :: payments[i].id == id
  }

  predicate HasPaymentOf(payments: seq<Payment>, id: Id, order: Id) {
    exists i | 0 <= i < |payments| :: payments[i].id == id && payments[i].order == order
  }

  function PayOutcome(w: World, c: PayCall): Result<Outcome<Payment>, Failure> {
    if PaymentIdentity(c).Err? then Err(BadRequest)
    else if !Visible(w, c.order, c.scope) then Err(NotFound)
    else
      match ClaimOutcome(w, PaymentIdentity(c).value)
      case Err(f) => Err(f)
      case Ok(Replay(id)) => if HasPaymentOf(w.payments, id, c.order) then Ok(Replayed(id)) else Err(Conflict)
      case Ok(Fresh) =>
        var o := w.orders[c.order];
        if o.status == Cancelled || o.status == Completed || o.status == NoShow then Err(BadRequest)
        else if o.totalPrice > 0 && Paid(w.payments, c.order) + c.amount > o.totalPrice then Err(BadRequest)
        else if HasPayment(w.payments, c.newId) then Err(Conflict)
        else Ok(Created(Payment(c.newId, c.order, c.amount)))
  }

  function AfterPay(w: World, c: PayCall): World {
    match PayOutcome(w, c)
    case Ok(Created(p)) =>
      w.(payments := w.payments + [p],
         keys := KeysAfterCreation(w, PaymentIdentity(c).value, c.newId),
         paymentEvents := w.paymentEvents + [c.newId],
         history := Recorded(w.history, PaymentV1, c.newId, PaymentIdentity(c).value, w.clock))
    case _ => w
  }

  // ----- Runs -----

  /** One committed or refused transaction, a key clean-up, or a change made elsewhere. */
  datatype Step =
    | Create(create: CreateCall)
    | Reschedule(reschedule: RescheduleCall)
    | UpdateStatus(id: Id, status: OrderStatus, scope: Option<Id>)
    | ConfirmationTimeout(id: Id)
    | SoftDelete(id: Id, scope: Option<Id>)
    | Restore(id: Id, scope: Option<Id>)
    | Pay(pay: PayCall)
    | CleanExpired
    | Administer(site: Site)
    | Wait(ms: nat)

  function Apply(w: World, s: Step): World {
    match s
    case Create(c) => AfterCreate(w, c)
    case Reschedule(c) => AfterReschedule(w, c)
    case UpdateStatus(id, status, scope) => AfterUpdate(w, id, StatusOutcome(w, id, status, scope))
    case ConfirmationTimeout(id) => AfterTimeout(w, id)
    case SoftDelete(id, scope) => AfterUpdate(w, id, DeleteOutcome(w, id, scope))
    case Restore(id, scope) => AfterRestore(w, id, scope)
    case Pay(c) => AfterPay(w, c)
    case CleanExpired => w.(keys := RowsAfterCleanup(w.keys, w.clock))
    case Administer(site) => w.(site := site)
    case Wait(ms) => w.(clock := w.clock + ms)
  }

  function Run(w: World, steps: seq<Step>): World
    decreases |steps|
  {
    if steps == [] then w else Run(Apply(w, steps[0]), steps[1..])
  }
}
