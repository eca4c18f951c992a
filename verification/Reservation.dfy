/**
 * Orders, the tables a reservation reads, and the reservation of a work post and an employee
 * (src/modules/orders, src/modules/scheduling). All rows belong to one tenant; times are
 * milliseconds, prices are cents.
 */
module Reservation {
  import opened Domain
  import opened WorkingWindow

  datatype OrderStatus = BookedPendingConfirmation | Booked | InProgress | Completed | Cancelled | NoShow

  /** VALID_STATUS_TRANSITIONS */
  function Transitions(s: OrderStatus): set<OrderStatus> {
    match s
    case BookedPendingConfirmation => {Booked, Cancelled, NoShow}
    case Booked => {InProgress, Cancelled, NoShow}
    case InProgress => {Completed, Cancelled}
    case _ => {}
  }

  predicate Terminal(s: OrderStatus) {
    Transitions(s) == {}
  }

  datatype Order = Order(branch: Id, client: Id, vehicle: Id, post: Option<Id>, employee: Option<Id>,
                         status: OrderStatus, start: int, end: int, totalPrice: nat, deleted: bool)

  datatype Branch = Branch(isActive: bool, deleted: bool, zone: Zone)
  datatype Post = Post(branch: Id, isActive: bool, deleted: bool)
  datatype Employee = Employee(branch: Id, isWorker: bool, active: bool, deleted: bool,
                               workStart: Option<string>, workEnd: Option<string>,
                               userActive: bool, userDeleted: bool)
  datatype Service = Service(price: nat, durationMin: nat, isActive: bool, deleted: bool)
  datatype Vehicle = Vehicle(client: Id, deleted: bool)

  /** Everything a reservation reads and never writes. */
  datatype Site = Site(branches: map<Id, Branch>, posts: map<Id, Post>, employees: map<Id, Employee>,
                       services: map<Id, Service>, clients: set<Id>, vehicles: map<Id, Vehicle>,
                       branchBuffers: map<Id, nat>, tenantBuffer: Option<nat>)

  /** `resolveBookingSettings(...).bufferTimeMinutes`: branch row, then tenant row, then the default. */
  function BufferFor(site: Site, branch: Id): nat {
    if branch in site.branchBuffers then site.branchBuffers[branch]
    else if site.tenantBuffer.Some? then site.tenantBuffer.value
    else 10
  }

  /** The `status NOT IN (...)` and `"deletedAt" IS NULL` of every overlap query. */
  predicate Active(o: Order) {
    !o.deleted && o.status != Cancelled && o.status != NoShow && o.status != Completed
  }

  /** The slot being reserved, the buffer in minutes, and the order that does not count. */
  datatype Slot = Slot(start: int, end: int, buffer: nat, exclude: Option<Id>)

  predicate Overlaps(o: Order, from: int, to: int) {
    Active(o) && o.start < to && o.end > from
  }

  predicate Collides(o: Order, slot: Slot) {
    Overlaps(o, slot.start - slot.buffer * 60000, slot.end + slot.buffer * 60000)
  }

  /** `countOverlapping` of SchedulingRepository. */
  function CountOverlapping(orders: map<Id, Order>, post: Id, from: int, to: int, exclude: Option<Id>): nat {
    |set id | id in orders && orders[id].post == Some(post) && Overlaps(orders[id], from, to) && exclude != Some(id)|
  }

  predicate PostFree(orders: map<Id, Order>, post: Id, slot: Slot) {
    forall id :: id in orders && orders[id].post == Some(post) && slot.exclude != Some(id) ==> !Collides(orders[id], slot)
  }

  predicate EmployeeFree(orders: map<Id, Order>, employee: Id, slot: Slot) {
    forall id :: id in orders && orders[id].employee == Some(employee) && slot.exclude != Some(id) ==> !Collides(orders[id], slot)
  }

  lemma NoneCountedIffFree(orders: map<Id, Order>, post: Id, slot: Slot)
    ensures CountOverlapping(orders, post, slot.start - slot.buffer * 60000, slot.end + slot.buffer * 60000, slot.exclude) == 0
            <==> PostFree(orders, post, slot)
  {
    var from, to := slot.start - slot.buffer * 60000, slot.end + slot.buffer * 60000;
    var hits := set id | id in orders && orders[id].post == Some(post) && Overlaps(orders[id], from, to) && slot.exclude != Some(id);
    if PostFree(orders, post, slot) {
      forall id | id in hits ensures false {
        assert Collides(orders[id], slot);
      }
      assert hits == {};
    } else {
      var id :| id in orders && orders[id].post == Some(post) && slot.exclude != Some(id) && Collides(orders[id], slot);
      assert id in hits;
    }
  }

  // ----- Resources that can be reserved -----

  predicate ActiveBranch(site: Site, branch: Id) {
    branch in site.branches && site.branches[branch].isActive && !site.branches[branch].deleted
  }

  predicate UsablePost(site: Site, post: Id, branch: Id) {
    post in site.posts && site.posts[post].branch == branch && site.posts[post].isActive && !site.posts[post].deleted
  }

  function FreePosts(site: Site, orders: map<Id, Order>, branch: Id, slot: Slot): set<Id> {
    set p | p in site.posts && UsablePost(site, p, branch) && PostFree(orders, p, slot)
  }

  /** The shift texts of a profile cover the window of the slot. */
  predicate ShiftCovers(e: Employee, w: Window) {
    && e.workStart.Some? && LexAtMost(e.workStart.value, w.startTime)
    && e.workEnd.Some? && LexAtMost(w.endTime, e.workEnd.value)
  }

  predicate Employable(e: Employee, branch: Id) {
    e.branch == branch && e.isWorker && e.active && !e.deleted && e.userActive && !e.userDeleted
  }

  /** The filter of `employeeEligibilityWhere`, evaluated on one profile row. */
  predicate Matches(site: Site, orders: map<Id, Order>, branch: Id, employee: Id, slot: Slot, w: Window) {
    && employee in site.employees && Employable(site.employees[employee], branch)
    && ShiftCovers(site.employees[employee], w)
    && EmployeeFree(orders, employee, slot)
  }

  /** No filter is built for an inactive branch or an interval without a window. */
  predicate Eligible(site: Site, orders: map<Id, Order>, branch: Id, employee: Id, slot: Slot) {
    && ActiveBranch(site, branch)
    && var w := WindowFor(site.branches[branch].zone, slot.start, slot.end);
       w.Some? && Matches(site, orders, branch, employee, slot, w.value)
  }

  function EligibleEmployees(site: Site, orders: map<Id, Order>, branch: Id, slot: Slot): set<Id> {
    set e | e in site.employees && Eligible(site, orders, branch, e, slot)
  }

  /** Profiles that switch the workforce rules on: `countProfilesForBranch`, and the count of `reserveEmployee`. */
  function ConfiguredProfiles(site: Site, branch: Id): set<Id> {
    set e | e in site.employees && site.employees[e].branch == branch && site.employees[e].active
            && !site.employees[e].deleted && site.employees[e].workStart.Some?
  }

  // ----- What a reservation yields -----

  function PostFor(site: Site, orders: map<Id, Order>, branch: Id, named: Option<Id>, slot: Slot): Result<Id, Failure> {
    if !ActiveBranch(site, branch) then Err(BadRequest)
    else if named.Some? then
      if !UsablePost(site, named.value, branch) then Err(BadRequest)
      else if !PostFree(orders, named.value, slot) then Err(Conflict)
      else Ok(named.value)
    else
      var free := FreePosts(site, orders, branch, slot);
      if free == {} then Err(BadRequest) else Ok(MinId(free))
  }

  function EmployeeFor(site: Site, orders: map<Id, Order>, branch: Id, named: Option<Id>, slot: Slot)
    : Result<Option<Id>, Failure>
  {
    if named.Some? then
      if Eligible(site, orders, branch, named.value, slot) then Ok(named) else Err(BadRequest)
    else if ConfiguredProfiles(site, branch) == {} then Ok(None)
    else
      var eligible := EligibleEmployees(site, orders, branch, slot);
      if eligible == {} then Err(BadRequest) else Ok(Some(MinId(eligible)))
  }

  /** null keeps a legacy unassigned resource, undefined asks for an automatic one. */
  datatype Ask = Unassigned | Automatic | Named(id: Id)

  function NamedId(ask: Ask): Option<Id> {
    if ask.Named? then Some(ask.id) else None
  }

  datatype Resources = Resources(post: Option<Id>, employee: Option<Id>)

  /** `reserveResources`: the post first, then the employee. */
  function ResourcesFor(site: Site, orders: map<Id, Order>, branch: Id, post: Ask, employee: Ask, slot: Slot)
    : Result<Resources, Failure>
  {
    var p := if post.Unassigned? then Ok(None)
             else match PostFor(site, orders, branch, NamedId(post), slot) case Ok(id) => Ok(Some(id)) case Err(f) => Err(f);
    if p.Err? then Err(p.error)
    else
      var e := if employee.Unassigned? then Ok(None) else EmployeeFor(site, orders, branch, NamedId(employee), slot);
      if e.Err? then Err(e.error) else Ok(Resources(p.value, e.value))
  }

  /** Whatever is reserved was free, buffers included. */
  lemma ReservedWasFree(site: Site, orders: map<Id, Order>, branch: Id, post: Ask, employee: Ask, slot: Slot)
    requires ResourcesFor(site, orders, branch, post, employee, slot).Ok?
    ensures var r := ResourcesFor(site, orders, branch, post, employee, slot).value;
            && (r.post.Some? ==> PostFree(orders, r.post.value, slot) && UsablePost(site, r.post.value, branch))
            && (r.employee.Some? ==> Eligible(site, orders, branch, r.employee.value, slot))
  {
    if post.Automatic? {
      var free := FreePosts(site, orders, branch, slot);
      assert MinId(free) in free;
    }
    if employee.Automatic? && ConfiguredProfiles(site, branch) != {} {
      var eligible := EligibleEmployees(site, orders, branch, slot);
      assert MinId(eligible) in eligible;
    }
  }
}
