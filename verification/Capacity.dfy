/**
 * What the grid advertises is what can be booked: successive automatic bookings of a slot succeed
 * exactly as often as its column says, and an entry is bookable exactly when its flag and the
 * capacity of its column say so.
 */
module Capacity {
  import opened Domain
  import opened Idempotency
  import opened OrderIntent
  import opened Reservation
  import opened Booking
  import opened Availability
  import opened GridAgreement

  /**
   * A request that passes every check before resources are reserved, under no key or under a key that
   * no live row holds; the branch may be inactive.
   */
  predicate Admissible(w: World, c: CreateCall) {
    && OrderIdentity(c).Ok? && (c.key.Some? ==> !Live(w.keys, c.key.value, w.clock))
    && InScope(c.dto.branch, c.scope) && c.dayAllowed
    && c.dto.services != [] && c.dto.start >= w.clock && DurationSum(w.site, c.dto.services) > 0
    && Owns(w.site, c.dto.client, c.dto.vehicle) && ServicesResolve(w.site, c.dto.services)
  }

  predicate Automated(c: CreateCall) {
    c.dto.post.None? && c.dto.employee.None?
  }

  /** The tables after a series of create calls. */
  function BookAll(w: World, calls: seq<CreateCall>): World {
    if calls == [] then w else AfterCreate(BookAll(w, calls[..|calls| - 1]), calls[|calls| - 1])
  }

  predicate Accepted(w: World, c: CreateCall) {
    CreateOutcome(w, c).Ok? && CreateOutcome(w, c).value.Created?
  }

  /** min(free posts, eligible employees), or the free posts alone when no profile is configured. */
  function Capacity(w: World, branch: Id, slot: Slot): nat {
    var posts := |FreePosts(w.site, w.orders, branch, slot)|;
    var employees := |EligibleEmployees(w.site, w.orders, branch, slot)|;
    if ConfiguredProfiles(w.site, branch) == {} || posts < employees then posts else employees
  }

  // ----- One automatic booking -----

  /** The same order, on a post and an employee that were free, takes both of them out. */
  lemma BookingTakesResources(site: Site, orders: map<Id, Order>, branch: Id, slot: Slot, id: Id, o: Order)
    requires id !in orders && Active(o) && o.start == slot.start && o.end == slot.end && slot.start < slot.end && slot.exclude.None?
    ensures var orders' := orders[id := o];
            && FreePosts(site, orders', branch, slot)
               == (set p | p in FreePosts(site, orders, branch, slot) && o.post != Some(p))
            && EligibleEmployees(site, orders', branch, slot)
               == (set e | e in EligibleEmployees(site, orders, branch, slot) && o.employee != Some(e))
  {
    var orders' := orders[id := o];
    assert Collides(o, slot);
    forall p
      ensures PostFree(orders', p, slot) <==> PostFree(orders, p, slot) && o.post != Some(p)
    {
      OneMoreOrder(orders, id, o, slot, p);
    }
    forall e
      ensures EmployeeFree(orders', e, slot) <==> EmployeeFree(orders, e, slot) && o.employee != Some(e)
    {
      OneMoreOrder(orders, id, o, slot, e);
    }
  }

  lemma OneMoreOrder(orders: map<Id, Order>, id: Id, o: Order, slot: Slot, r: Id)
    requires id !in orders && Collides(o, slot) && slot.exclude.None?
    ensures PostFree(orders[id := o], r, slot) <==> PostFree(orders, r, slot) && o.post != Some(r)
    ensures EmployeeFree(orders[id := o], r, slot) <==> EmployeeFree(orders, r, slot) && o.employee != Some(r)
  {
    var orders' := orders[id := o];
    assert orders'[id] == o;
    if PostFree(orders', r, slot) {
      forall j | j in orders && orders[j].post == Some(r)
        ensures !Collides(orders[j], slot)
      {
        assert orders'[j] == orders[j];
      }
    }
    if EmployeeFree(orders', r, slot) {
      forall j | j in orders && orders[j].employee == Some(r)
        ensures !Collides(orders[j], slot)
      {
        assert orders'[j] == orders[j];
      }
    }
  }

  lemma AcceptedIffReserved(w: World, c: CreateCall)
    requires Admissible(w, c) && c.newId !in w.orders
    ensures Accepted(w, c) <==>
            && ActiveBranch(w.site, c.dto.branch)
            && ResourcesFor(w.site, w.orders, c.dto.branch, AskFor(c.dto.post), AskFor(c.dto.employee), SlotFor(w, c.dto)).Ok?
  {
  }

  lemma RemovalCounts(s: set<Id>, x: Id)
    requires x in s
    ensures |set y | y in s && Some(x) != Some(y)| == |s| - 1
  {
    assert (set y | y in s && Some(x) != Some(y)) == s - {x};
  }

  /** An automatic reservation succeeds exactly when capacity is left, and takes a free post and an eligible employee. */
  lemma AutomaticReservation(site: Site, orders: map<Id, Order>, branch: Id, slot: Slot)
    requires ActiveBranch(site, branch)
    ensures var free, eligible := FreePosts(site, orders, branch, slot), EligibleEmployees(site, orders, branch, slot);
            var unstaffed := ConfiguredProfiles(site, branch) == {};
            var r := ResourcesFor(site, orders, branch, Automatic, Automatic, slot);
            && (r.Ok? <==> free != {} && (unstaffed || eligible != {}))
            && (r.Ok? ==> r.value.post.Some? && r.value.post.value in free)
            && (r.Ok? && unstaffed ==> r.value.employee.None?)
            && (r.Ok? && !unstaffed ==> r.value.employee.Some? && r.value.employee.value in eligible)
  {
  }

  lemma AcceptedOrder(w: World, c: CreateCall)
    requires Admissible(w, c) && Automated(c) && Accepted(w, c)
    ensures ResourcesFor(w.site, w.orders, c.dto.branch, Automatic, Automatic, SlotFor(w, c.dto)).Ok?
    ensures var o := OrderOn(w, c.dto, ResourcesFor(w.site, w.orders, c.dto.branch, Automatic, Automatic, SlotFor(w, c.dto)).value);
            && AfterCreate(w, c).orders == w.orders[c.newId := o] && c.newId !in w.orders
            && AfterCreate(w, c).site == w.site && AfterCreate(w, c).clock == w.clock
  {
  }

  /** An automatic booking succeeds exactly when capacity is left, and uses up one unit of it. */
  lemma AutomaticBooking(w: World, c: CreateCall)
    requires Admissible(w, c) && Automated(c) && c.newId !in w.orders && ActiveBranch(w.site, c.dto.branch)
    ensures var slot := SlotFor(w, c.dto);
            && (Accepted(w, c) <==> Capacity(w, c.dto.branch, slot) > 0)
            && (Accepted(w, c) ==> Capacity(AfterCreate(w, c), c.dto.branch, slot) == Capacity(w, c.dto.branch, slot) - 1)
  {
    AcceptedIffReserved(w, c);
    AutomaticReservation(w.site, w.orders, c.dto.branch, SlotFor(w, c.dto));
    if Accepted(w, c) {
      AcceptedOrder(w, c);
      CapacityAfter(w, AfterCreate(w, c), c);
    }
  }

  lemma CapacityAfter(w: World, w': World, c: CreateCall)
    requires ActiveBranch(w.site, c.dto.branch) && w'.site == w.site && c.newId !in w.orders
    requires DurationSum(w.site, c.dto.services) > 0
    requires var r := ResourcesFor(w.site, w.orders, c.dto.branch, Automatic, Automatic, SlotFor(w, c.dto));
             r.Ok? && w'.orders == w.orders[c.newId := OrderOn(w, c.dto, r.value)]
    ensures Capacity(w', c.dto.branch, SlotFor(w, c.dto)) == Capacity(w, c.dto.branch, SlotFor(w, c.dto)) - 1
  {
    var slot := SlotFor(w, c.dto);
    var free, eligible := FreePosts(w.site, w.orders, c.dto.branch, slot), EligibleEmployees(w.site, w.orders, c.dto.branch, slot);
    AutomaticReservation(w.site, w.orders, c.dto.branch, slot);
    var o := w'.orders[c.newId];
    BookingTakesResources(w.site, w.orders, c.dto.branch, slot, c.newId, o);
    RemovalCounts(free, o.post.value);
    if o.employee.Some? {
      RemovalCounts(eligible, o.employee.value);
    }
  }

  // ----- Successive bookings -----

  /** The calls ask for one slot of one branch; clients, vehicles, services, actors and origins may all differ. */
  predicate ForSlot(w: World, calls: seq<CreateCall>, branch: Id, slot: Slot) {
    forall i :: 0 <= i < |calls| ==>
      Admissible(w, calls[i]) && Automated(calls[i]) && calls[i].dto.branch == branch && SlotFor(w, calls[i].dto) == slot
  }

  /** No two calls create under one id or share a key. */
  predicate Unrelated(w: World, calls: seq<CreateCall>) {
    && (forall i :: 0 <= i < |calls| ==> calls[i].newId !in w.orders)
    && forall i, j :: 0 <= i < j < |calls| ==>
         calls[i].newId != calls[j].newId && (calls[i].key.Some? ==> calls[i].key != calls[j].key)
  }

  predicate CreatedBy(calls: seq<CreateCall>, id: Id) {
    exists i :: 0 <= i < |calls| && calls[i].newId == id
  }

  predicate KeyedBy(calls: seq<CreateCall>, key: string) {
    exists i :: 0 <= i < |calls| && calls[i].key == Some(key)
  }

  lemma OneMoreCall(calls: seq<CreateCall>, n: int)
    requires 0 <= n < |calls|
    ensures forall id :: CreatedBy(calls[..n], id) || calls[n].newId == id ==> CreatedBy(calls, id)
    ensures forall key :: KeyedBy(calls[..n], key) || calls[n].key == Some(key) ==> KeyedBy(calls, key)
  {
    forall id | CreatedBy(calls[..n], id)
      ensures CreatedBy(calls, id)
    {
      var i :| 0 <= i < n && calls[..n][i].newId == id;
      assert calls[i].newId == id;
    }
    forall key | KeyedBy(calls[..n], key)
      ensures KeyedBy(calls, key)
    {
      var i :| 0 <= i < n && calls[..n][i].key == Some(key);
      assert calls[i].key == Some(key);
    }
  }

  /** A call adds at most its own order and its own key row. */
  lemma CreateTouchesItsOwn(w: World, c: CreateCall)
    ensures var w' := AfterCreate(w, c);
            && w'.site == w.site && w'.clock == w.clock
            && (forall id :: id in w'.orders ==> id in w.orders || id == c.newId)
            && (forall key :: key in w'.keys && Some(key) != c.key ==> key in w.keys && w'.keys[key] == w.keys[key])
  {
    hide FreshOutcome, ClaimOutcome;
  }

  lemma {:induction false} BookAllKeepsTheRest(w: World, calls: seq<CreateCall>)
    ensures var w' := BookAll(w, calls);
            && w'.site == w.site && w'.clock == w.clock
            && (forall id :: id in w'.orders ==> id in w.orders || CreatedBy(calls, id))
            && (forall key :: key in w'.keys && !KeyedBy(calls, key) ==> key in w.keys && w'.keys[key] == w.keys[key])
  {
    if calls != [] {
      var n := |calls| - 1;
      BookAllKeepsTheRest(w, calls[..n]);
      CreateTouchesItsOwn(BookAll(w, calls[..n]), calls[n]);
      OneMoreCall(calls, n);
    }
  }

  /** A call is still admissible, for the same slot, after unrelated calls. */
  lemma StillAdmissible(w: World, calls: seq<CreateCall>, n: int)
    requires Unrelated(w, calls) && 0 <= n < |calls| && Admissible(w, calls[n])
    ensures var before := BookAll(w, calls[..n]);
            && Admissible(before, calls[n]) && calls[n].newId !in before.orders
            && SlotFor(before, calls[n].dto) == SlotFor(w, calls[n].dto) && before.site == w.site
  {
    BookAllKeepsTheRest(w, calls[..n]);
    hide BookAll, OrderIdentity, Owns, ServicesResolve, DurationSum;
  }

  lemma {:induction false} BookAllUsesCapacity(w: World, calls: seq<CreateCall>, branch: Id, slot: Slot)
    requires ForSlot(w, calls, branch, slot) && Unrelated(w, calls) && ActiveBranch(w.site, branch)
    ensures var capacity := Capacity(w, branch, slot);
            Capacity(BookAll(w, calls), branch, slot) == if |calls| < capacity then capacity - |calls| else 0
  {
    if calls != [] {
      var n := |calls| - 1;
      BookAllUsesCapacity(w, calls[..n], branch, slot);
      StillAdmissible(w, calls, n);
      hide Admissible, SlotFor, Capacity, ActiveBranch;
      AutomaticBooking(BookAll(w, calls[..n]), calls[n]);
    }
  }

  /** The n-th of a series of automatic bookings of one slot succeeds exactly when n is below the capacity. */
  lemma SuccessiveBookings(w: World, calls: seq<CreateCall>, n: nat, branch: Id, slot: Slot)
    requires ForSlot(w, calls, branch, slot) && Unrelated(w, calls) && n < |calls|
    ensures Accepted(BookAll(w, calls[..n]), calls[n]) <==> ActiveBranch(w.site, branch) && n < Capacity(w, branch, slot)
  {
    StillAdmissible(w, calls, n);
    hide Admissible, SlotFor, Capacity;
    var before := BookAll(w, calls[..n]);
    AcceptedIffReserved(before, calls[n]);
    if ActiveBranch(w.site, branch) {
      BookAllUsesCapacity(w, calls[..n], branch, slot);
      AutomaticBooking(before, calls[n]);
    }
  }

  // ----- The grid and the bookings -----

  /** The query describes the slot: its k-th column. */
  predicate Describes(w: World, q: Query, k: int, slot: Slot) {
    q.exclude.None? && q.buffer == BufferFor(w.site, q.branch) && InGrid(q, k) && slot == SlotAt(q, k)
  }

  lemma ColumnCapacityIsCapacity(w: World, q: Query, posts: seq<Id>, candidates: seq<Id>, k: int)
    requires ShiftsWellFormed(w.site) && q.branch in w.site.branches && InGrid(q, k) && BufferedInside(q, k)
    requires q.post.None? && q.employee.None?
    requires Enumerates(posts, PostRows(w.site, q)) && Enumerates(candidates, CandidateRows(w.site, q))
    ensures CapacityAt(w.site, w.orders, q, posts, candidates, k) == Capacity(w, q.branch, SlotAt(q, k))
  {
    var slot, flags := SlotAt(q, k), Flags(w.orders, q, posts, k);
    FlagsCountFreePosts(w.orders, q, posts, k, |posts|);
    assert posts[..|posts|] == posts;
    assert FreeAmong(w.orders, posts, slot) == FreePosts(w.site, w.orders, q.branch, slot);
    FreeEmployeesAreEligible(w.site, w.orders, q, candidates, k);
  }

  /**
   * Advertised capacity is exact. The column of a slot whose buffered interval lies inside the working
   * hours advertises as many posts as successive automatic bookings of that slot succeed, whoever makes
   * them, with or without keys, and the next one is refused; an inactive branch refuses them all.
   */
  lemma AdvertisedCapacityIsExact(w: World, q: Query, posts: seq<Id>, candidates: seq<Id>, k: int, calls: seq<CreateCall>, n: nat)
    requires ShiftsWellFormed(w.site) && q.branch in w.site.branches && BufferedInside(q, k)
    requires q.post.None? && q.employee.None?
    requires Enumerates(posts, PostRows(w.site, q)) && Enumerates(candidates, CandidateRows(w.site, q))
    requires Describes(w, q, k, SlotAt(q, k)) && ForSlot(w, calls, q.branch, SlotAt(q, k)) && Unrelated(w, calls) && n < |calls|
    ensures Accepted(BookAll(w, calls[..n]), calls[n]) <==>
            && ActiveBranch(w.site, q.branch)
            && n < CountAvailable(Column(w.site, w.orders, q, posts, candidates, k))
  {
    ColumnCount(w.site, w.orders, q, posts, candidates, k);
    ColumnCapacityIsCapacity(w, q, posts, candidates, k);
    SuccessiveBookings(w, calls, n, q.branch, SlotAt(q, k));
  }

  lemma CapacityLeftIffEmployee(w: World, q: Query, posts: seq<Id>, candidates: seq<Id>, k: int, i: int)
    requires ShiftsWellFormed(w.site) && q.branch in w.site.branches && InGrid(q, k) && 0 <= i < |posts|
    requires Enumerates(candidates, CandidateRows(w.site, q)) && Flags(w.orders, q, posts, k)[i]
    ensures CapacityAt(w.site, w.orders, q, posts, candidates, k) > 0 <==>
            EmployeeFor(w.site, w.orders, q.branch, q.employee, SlotAt(q, k)).Ok?
  {
    var flags, slot := Flags(w.orders, q, posts, k), SlotAt(q, k);
    RankGrows(flags, i, |flags|);
    FreeEmployeesAreEligible(w.site, w.orders, q, candidates, k);
    var free, eligible := FreeEmployees(w.site, w.orders, q, candidates, k), EligibleEmployees(w.site, w.orders, q.branch, slot);
    if q.employee.Some? {
      assert q.employee.value in free <==> q.employee.value in eligible;
    }
  }

  /** Booking the post of an entry, with the employee of the query, succeeds exactly when its flag is set and capacity is left. */
  lemma EntryIsBookableIff(w: World, c: CreateCall, q: Query, posts: seq<Id>, candidates: seq<Id>, k: int, i: int)
    requires ShiftsWellFormed(w.site) && q.branch in w.site.branches && BufferedInside(q, k)
    requires Enumerates(posts, PostRows(w.site, q)) && Enumerates(candidates, CandidateRows(w.site, q))
    requires Admissible(w, c) && c.newId !in w.orders && c.dto.branch == q.branch && Describes(w, q, k, SlotFor(w, c.dto))
    requires 0 <= i < |posts| && c.dto.post == Some(posts[i]) && c.dto.employee == q.employee
    ensures Accepted(w, c) <==>
            && ActiveBranch(w.site, q.branch)
            && RawFree(w.orders, q, posts, posts[i], k) && CountAvailable(Column(w.site, w.orders, q, posts, candidates, k)) > 0
    ensures q.employee.Some? ==>
              (Accepted(w, c) <==> ActiveBranch(w.site, q.branch) && Column(w.site, w.orders, q, posts, candidates, k)[i].available)
  {
    ColumnCount(w.site, w.orders, q, posts, candidates, k);
    EntryAnswer(w.site, w.orders, q, posts, candidates, k, i);
    AcceptedIffReserved(w, c);
    assert posts[i] in PostRows(w.site, q);
    PostFlagAgrees(w.orders, q, posts, posts[i], k);
    if Flags(w.orders, q, posts, k)[i] {
      CapacityLeftIffEmployee(w, q, posts, candidates, k, i);
    }
  }

  /**
   * Moving a booked order to an entry of the grid that excludes it. The post of the entry is named or is
   * the stored one, and the query names the employee that the move asks for, named or stored, if any: the
   * move succeeds exactly when the flag is set and, if an employee is asked for, capacity is left.
   */
  lemma EntryIsReschedulableIff(w: World, c: RescheduleCall, q: Query, posts: seq<Id>, candidates: seq<Id>, k: int, i: int)
    requires ShiftsWellFormed(w.site) && q.branch in w.site.branches && InGrid(q, k) && BufferedInside(q, k)
    requires Enumerates(posts, PostRows(w.site, q)) && Enumerates(candidates, CandidateRows(w.site, q))
    requires Visible(w, c.id, c.scope) && (w.orders[c.id].status == Booked || w.orders[c.id].status == BookedPendingConfirmation)
    requires q.branch == w.orders[c.id].branch && q.exclude == Some(c.id) && q.buffer == BufferFor(w.site, q.branch)
    requires q.slotMs == w.orders[c.id].end - w.orders[c.id].start && c.start == CursorAt(q, k) && c.start >= w.clock && c.dayAllowed
    requires 0 <= i < |posts| && (if c.post.Some? then c.post else w.orders[c.id].post) == Some(posts[i])
    requires q.employee == if c.employee.Some? then c.employee else w.orders[c.id].employee
    ensures RescheduleOutcome(w, c).Ok? <==>
            && ActiveBranch(w.site, q.branch)
            && RawFree(w.orders, q, posts, posts[i], k)
            && (q.employee.Some? ==> Column(w.site, w.orders, q, posts, candidates, k)[i].available)
  {
    EntryAnswer(w.site, w.orders, q, posts, candidates, k, i);
    var slot := SlotAt(q, k);
    assert slot == MovedSlot(w, c, w.orders[c.id]) && posts[i] in PostRows(w.site, q);
    PostFlagAgrees(w.orders, q, posts, posts[i], k);
    if Flags(w.orders, q, posts, k)[i] {
      CapacityLeftIffEmployee(w, q, posts, candidates, k, i);
    }
  }

  // ----- A branch that is not active -----

  /** What the grid of an inactive branch advertises: something exactly when nobody asks about employees and a flag is set. */
  lemma InactiveBranchAdvertisesIff(w: World, q: Query, posts: seq<Id>, candidates: seq<Id>, k: int)
    requires ShiftsWellFormed(w.site) && q.branch in w.site.branches && !ActiveBranch(w.site, q.branch)
    requires Enumerates(candidates, CandidateRows(w.site, q))
    ensures CountAvailable(Column(w.site, w.orders, q, posts, candidates, k)) > 0 <==>
            && ConfiguredProfiles(w.site, q.branch) == {} && q.employee.None?
            && exists i :: 0 <= i < |posts| && RawFree(w.orders, q, posts, posts[i], k)
  {
    var flags := Flags(w.orders, q, posts, k);
    ColumnCount(w.site, w.orders, q, posts, candidates, k);
    assert CandidateRows(w.site, q) == {};
    EnumerationSize(candidates, {});
    SomeFlagIffRank(flags, |flags|);
    assert (exists i :: 0 <= i < |flags| && flags[i]) <==> exists i :: 0 <= i < |posts| && RawFree(w.orders, q, posts, posts[i], k) by {
      assert forall i :: 0 <= i < |flags| ==> flags[i] == RawFree(w.orders, q, posts, posts[i], k);
    }
  }

  lemma {:induction false} SomeFlagIffRank(flags: seq<bool>, n: int)
    requires 0 <= n <= |flags|
    ensures Rank(flags, n) > 0 <==> exists i :: 0 <= i < n && flags[i]
  {
    if n > 0 {
      SomeFlagIffRank(flags, n - 1);
    }
  }

  /** A closed branch with one usable post and no profiles, a client with a vehicle, and a service of one hour. */
  function ClosedBranch(): World {
    World(0, Site(map[Id(0) := Branch(false, false, (m: int) => 0)], map[Id(1) := Post(Id(0), true, false)], map[],
                  map[Id(2) := Service(2500, 60, true, false)], {Id(3)}, map[Id(4) := Vehicle(Id(3), false)], map[], Some(0)),
          map[], [], map[], [], [], History(map[], 0, []))
  }

  function OneHourThere(): CreateCall {
    CreateCall(CreateDto(Id(0), Id(3), Id(4), None, None, 0, [Id(2)], "INTERNAL", None), None, None, None, None, true, Id(5))
  }

  /** One hour of opening, in one slot. */
  function OneHour(): Query {
    Query(Id(0), None, None, 0, 3600000, 3600000, 0, None)
  }

  /** A concrete closed branch: an otherwise admissible booking is refused ... */
  lemma ClosedBranchRefuses()
    ensures var w, c := ClosedBranch(), OneHourThere();
            Admissible(w, c) && Describes(w, OneHour(), 0, SlotFor(w, c.dto)) && !Accepted(w, c)
  {
    var w, c := ClosedBranch(), OneHourThere();
    assert [Id(2)][1..] == [] && DurationSum(w.site, [Id(2)]) == 60;
    assert Admissible(w, c);
    hide Admissible, DurationSum;
    AcceptedIffReserved(w, c);
  }

  /** ... of a slot that its grid advertises. */
  lemma ClosedBranchAdvertises()
    ensures var site, q := ClosedBranch().site, OneHour();
            && Enumerates([Id(1)], PostRows(site, q)) && Enumerates([], CandidateRows(site, q))
            && CountAvailable(Column(site, map[], q, [Id(1)], [], 0)) > 0
  {
    hide CountAvailable, Column;
    var w, q := ClosedBranch(), OneHour();
    assert ConfiguredProfiles(w.site, q.branch) == {} && CandidateRows(w.site, q) == {} && PostRows(w.site, q) == {Id(1)};
    assert RawFree(w.orders, q, [Id(1)], [Id(1)][0], 0);
    InactiveBranchAdvertisesIff(w, q, [Id(1)], [], 0);
  }
}
