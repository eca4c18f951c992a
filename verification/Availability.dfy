/**
 * The availability grid of `SchedulingService.checkAvailability`
 * (src/modules/scheduling/scheduling.service.ts): batched queries, three cursor loops, and the cap
 * by free employees.
 */
module Availability {
  import opened Domain
  import opened WorkingWindow
  import opened Reservation

  /** The converted working hours, the slot length in milliseconds, and the buffer in minutes. */
  datatype Query = Query(branch: Id, post: Option<Id>, employee: Option<Id>, dayStart: int, dayEnd: int,
                         slotMs: int, buffer: nat, exclude: Option<Id>)

  datatype TimeSlot = TimeSlot(start: int, end: int, post: Id, available: bool)

  // ----- The batched queries -----

  function PostRows(site: Site, q: Query): set<Id> {
    set p | p in site.posts && UsablePost(site, p, q.branch) && (q.post.Some? ==> q.post.value == p)
  }

  /** Orders of the listed posts in [dayStart, dayEnd]: the range is not widened by the buffer. */
  function FetchPostOrders(orders: map<Id, Order>, q: Query, posts: seq<Id>): set<Id> {
    set id | id in orders && q.exclude != Some(id) && orders[id].post.Some? && orders[id].post.value in posts
             && Overlaps(orders[id], q.dayStart, q.dayEnd)
  }

  predicate IsCandidate(e: Employee, branch: Id) {
    Employable(e, branch) && e.workStart.Some? && e.workEnd.Some?
  }

  function CandidateRows(site: Site, q: Query): set<Id> {
    set e | e in site.employees && ActiveBranch(site, q.branch) && IsCandidate(site.employees[e], q.branch)
  }

  /** Orders of the candidates in the day range widened by the buffer. */
  function FetchEmployeeOrders(orders: map<Id, Order>, q: Query, candidates: seq<Id>): set<Id> {
    set id | id in orders && q.exclude != Some(id) && orders[id].employee.Some? && orders[id].employee.value in candidates
             && Overlaps(orders[id], q.dayStart - q.buffer * 60000, q.dayEnd + q.buffer * 60000)
  }

  // ----- Slots -----

  function SlotCount(q: Query): nat {
    if q.slotMs <= 0 || q.dayEnd < q.dayStart then 0 else Div(q.dayEnd - q.dayStart, q.slotMs)
  }

  function Div(a: int, b: int): nat
    requires a >= 0 && b > 0
  {
    a / b
  }

  function CursorAt(q: Query, k: int): int {
    q.dayStart + k * q.slotMs
  }

  function SlotAt(q: Query, k: int): Slot {
    Slot(CursorAt(q, k), CursorAt(q, k) + q.slotMs, q.buffer, q.exclude)
  }

  lemma MulMonotone(a: int, b: int, s: int)
    requires a <= b && s >= 0
    ensures a * s <= b * s
  {
  }

  /** The guard of the three cursor loops counts slots. */
  lemma SlotFits(q: Query, k: nat)
    requires q.slotMs > 0
    ensures CursorAt(q, k) + q.slotMs <= q.dayEnd <==> k < SlotCount(q)
    ensures CursorAt(q, k + 1) == CursorAt(q, k) + q.slotMs && q.dayStart <= CursorAt(q, k)
  {
    var span, s, n := q.dayEnd - q.dayStart, q.slotMs, SlotCount(q);
    MulMonotone(0, k, s);
    if span >= 0 {
      assert n * s <= span < (n + 1) * s;
      if k < n {
        MulMonotone(k + 1, n, s);
      } else {
        MulMonotone(n + 1, k + 1, s);
      }
    }
  }

  /** Without a slot length, or without room for one slot, there are no slots. */
  lemma NoRoomNoSlots(q: Query)
    ensures q.slotMs <= 0 || q.dayEnd - q.dayStart < q.slotMs ==> SlotCount(q) == 0
  {
    if q.slotMs > 0 {
      SlotFits(q, 0);
    }
  }

  // ----- What the grid says about one post and one employee -----

  /** No order of the post that was fetched for the day touches the buffered slot. */
  predicate NoneTouches(orders: map<Id, Order>, fetched: set<Id>, post: Id, slot: Slot) {
    forall id :: id in fetched && id in orders && orders[id].post == Some(post) ==>
      !(orders[id].start < slot.end + slot.buffer * 60000 && orders[id].end > slot.start - slot.buffer * 60000)
  }

  predicate RawFree(orders: map<Id, Order>, q: Query, posts: seq<Id>, post: Id, k: int) {
    NoneTouches(orders, FetchPostOrders(orders, q, posts), post, SlotAt(q, k))
  }

  predicate ShiftsWellFormed(site: Site) {
    forall e :: e in site.employees ==>
      && (site.employees[e].workStart.Some? ==> ValidClock(site.employees[e].workStart.value))
      && (site.employees[e].workEnd.Some? ==> ValidClock(site.employees[e].workEnd.value))
  }

  /** The in-memory filter: shift texts compared as minutes, orders taken from the batch. */
  predicate PassesFilter(site: Site, orders: map<Id, Order>, fetched: set<Id>, employee: Id, slot: Slot, w: Option<Window>)
    requires ShiftsWellFormed(site) && (w.Some? ==> |w.value.startTime| == 5 && |w.value.endTime| == 5)
  {
    && w.Some? && employee in site.employees
    && site.employees[employee].workStart.Some? && site.employees[employee].workEnd.Some?
    && ToMinutes(site.employees[employee].workStart.value) <= ToMinutes(w.value.startTime)
    && ToMinutes(w.value.endTime) <= ToMinutes(site.employees[employee].workEnd.value)
    && forall id :: id in fetched && id in orders && orders[id].employee == Some(employee) ==>
         !(orders[id].start < slot.end + slot.buffer * 60000 && orders[id].end > slot.start - slot.buffer * 60000)
  }

  function Filtered(site: Site, orders: map<Id, Order>, fetched: set<Id>, candidates: seq<Id>, slot: Slot, w: Option<Window>): seq<Id>
    requires ShiftsWellFormed(site) && (w.Some? ==> |w.value.startTime| == 5 && |w.value.endTime| == 5)
  {
    if candidates == [] then []
    else
      var rest := Filtered(site, orders, fetched, candidates[..|candidates| - 1], slot, w);
      var last := candidates[|candidates| - 1];
      if PassesFilter(site, orders, fetched, last, slot, w) then rest + [last] else rest
  }

  function WindowAt(site: Site, q: Query, k: int): Option<Window>
    requires q.branch in site.branches
  {
    WindowFor(site.branches[q.branch].zone, SlotAt(q, k).start, SlotAt(q, k).end)
  }

  function FreeEmployees(site: Site, orders: map<Id, Order>, q: Query, candidates: seq<Id>, k: int): seq<Id>
    requires ShiftsWellFormed(site) && q.branch in site.branches
  {
    Filtered(site, orders, FetchEmployeeOrders(orders, q, candidates), candidates, SlotAt(q, k), WindowAt(site, q, k))
  }

  // ----- One column of the grid -----

  function Flags(orders: map<Id, Order>, q: Query, posts: seq<Id>, k: int): seq<bool> {
    seq(|posts|, i requires 0 <= i < |posts| => RawFree(orders, q, posts, posts[i], k))
  }

  /** How many of the first `i` flags are set. */
  function Rank(flags: seq<bool>, i: int): (r: nat)
    requires 0 <= i <= |flags|
    ensures r <= i
  {
    if i == 0 then 0 else Rank(flags, i - 1) + (if flags[i - 1] then 1 else 0)
  }

  function EffectiveCapacity(q: Query, profiles: nat, freePosts: nat, freeEmployees: seq<Id>): nat {
    if (profiles > 0 || q.employee.Some?) && freePosts > 0 then
      if q.employee.Some? then if q.employee.value in freeEmployees then freePosts else 0
      else if freePosts < |freeEmployees| then freePosts else |freeEmployees|
    else freePosts
  }

  function CapacityAt(site: Site, orders: map<Id, Order>, q: Query, posts: seq<Id>, candidates: seq<Id>, k: int): nat
    requires ShiftsWellFormed(site) && q.branch in site.branches
  {
    var flags := Flags(orders, q, posts, k);
    EffectiveCapacity(q, |ConfiguredProfiles(site, q.branch)|, Rank(flags, |flags|),
                      FreeEmployees(site, orders, q, candidates, k))
  }

  /** The first `cap` free posts are available. */
  function Capped(q: Query, posts: seq<Id>, k: int, flags: seq<bool>, cap: nat): seq<TimeSlot>
    requires |flags| == |posts|
  {
    seq(|posts|, i requires 0 <= i < |posts| =>
      TimeSlot(SlotAt(q, k).start, SlotAt(q, k).end, posts[i], flags[i] && Rank(flags, i) < cap))
  }

  function Column(site: Site, orders: map<Id, Order>, q: Query, posts: seq<Id>, candidates: seq<Id>, k: int): seq<TimeSlot>
    requires ShiftsWellFormed(site) && q.branch in site.branches
  {
    Capped(q, posts, k, Flags(orders, q, posts, k), CapacityAt(site, orders, q, posts, candidates, k))
  }

  function Grid(site: Site, orders: map<Id, Order>, q: Query, posts: seq<Id>, candidates: seq<Id>, n: nat): seq<TimeSlot>
    requires ShiftsWellFormed(site) && q.branch in site.branches
  {
    if n == 0 then [] else Grid(site, orders, q, posts, candidates, n - 1) + Column(site, orders, q, posts, candidates, n - 1)
  }

  // ----- The method -----

  /** First cursor loop: the free employees of every slot. */
  method EmployeeAvailability(site: Site, orders: map<Id, Order>, q: Query, candidates: seq<Id>) returns (bySlot: seq<seq<Id>>)
    requires ShiftsWellFormed(site) && q.branch in site.branches && q.slotMs > 0
    ensures EmployeesDone(site, orders, q, candidates, bySlot)
  {
    var activeOrders := FetchEmployeeOrders(orders, q, candidates);
    bySlot := [];
    var cursor := q.dayStart;
    SlotFits(q, 0);
    while cursor + q.slotMs <= q.dayEnd
      invariant cursor == CursorAt(q, |bySlot|) && |bySlot| <= SlotCount(q)
      invariant forall k :: 0 <= k < |bySlot| ==> bySlot[k] == FreeEmployees(site, orders, q, candidates, k)
      decreases q.dayEnd - cursor
    {
      SlotFits(q, |bySlot|);
      var slotEnd := cursor + q.slotMs;
      var window := WorkingWindowForInterval(cursor, slotEnd, site.branches[q.branch].zone);
      bySlot := bySlot + [Filtered(site, orders, activeOrders, candidates, Slot(cursor, slotEnd, q.buffer, q.exclude), window)];
      cursor := slotEnd;
    }
    SlotFits(q, |bySlot|);
  }

  /** Second cursor loop: the raw flags of one post. */
  method PostSlots(orders: map<Id, Order>, q: Query, posts: seq<Id>, post: Id, existing: set<Id>) returns (flags: seq<bool>)
    requires q.slotMs > 0 && existing == FetchPostOrders(orders, q, posts)
    ensures |flags| == SlotCount(q)
    ensures forall k :: 0 <= k < |flags| ==> flags[k] == RawFree(orders, q, posts, post, k)
  {
    flags := [];
    var cursor := q.dayStart;
    SlotFits(q, 0);
    while cursor + q.slotMs <= q.dayEnd
      invariant cursor == CursorAt(q, |flags|) && |flags| <= SlotCount(q)
      invariant forall k :: 0 <= k < |flags| ==> flags[k] == RawFree(orders, q, posts, post, k)
      decreases q.dayEnd - cursor
    {
      SlotFits(q, |flags|);
      flags := flags + [NoneTouches(orders, existing, post, Slot(cursor, cursor + q.slotMs, q.buffer, q.exclude))];
      cursor := cursor + q.slotMs;
    }
    SlotFits(q, |flags|);
  }

  method AllPostSlots(orders: map<Id, Order>, q: Query, posts: seq<Id>) returns (perPostSlots: seq<seq<bool>>)
    requires q.slotMs > 0
    ensures PostSlotsDone(orders, q, posts, perPostSlots)
  {
    var allOrders := FetchPostOrders(orders, q, posts);
    perPostSlots := [];
    for i := 0 to |posts|
      invariant |perPostSlots| == i
      invariant forall j :: 0 <= j < i ==> |perPostSlots[j]| == SlotCount(q)
      invariant forall j, k :: 0 <= j < i && 0 <= k < SlotCount(q) ==>
                  perPostSlots[j][k] == RawFree(orders, q, posts, posts[j], k)
    {
      var flags := PostSlots(orders, q, posts, posts[i], allOrders);
      perPostSlots := perPostSlots + [flags];
    }
  }

  /** The indices of the set flags, in order. */
  function FreeIndices(flags: seq<bool>, n: int): (ix: seq<int>)
    requires 0 <= n <= |flags|
    ensures |ix| == Rank(flags, n)
  {
    if n == 0 then [] else FreeIndices(flags, n - 1) + (if flags[n - 1] then [n - 1] else [])
  }

  lemma {:induction false} RankGrows(flags: seq<bool>, i: int, n: int)
    requires 0 <= i <= n <= |flags|
    ensures Rank(flags, i) <= Rank(flags, n)
    ensures i < n && flags[i] ==> Rank(flags, i) < Rank(flags, n)
    decreases n
  {
    if i < n {
      RankGrows(flags, i, n - 1);
    }
  }

  lemma {:induction false} IndicesBelow(flags: seq<bool>, n: int)
    requires 0 <= n <= |flags|
    ensures forall x :: x in FreeIndices(flags, n) ==> 0 <= x < n
  {
    if n > 0 {
      IndicesBelow(flags, n - 1);
    }
  }

  /** Being among the first `cap` free indices is a condition on the rank. */
  lemma {:induction false} InCappedIff(flags: seq<bool>, n: int, cap: int, i: int)
    requires 0 <= i < n <= |flags| && 0 <= cap <= Rank(flags, n)
    ensures i in FreeIndices(flags, n)[..cap] <==> flags[i] && Rank(flags, i) < cap
    decreases n
  {
    var before := FreeIndices(flags, n - 1);
    IndicesBelow(flags, n - 1);
    RankGrows(flags, i, n - 1);
    if cap <= |before| {
      assert FreeIndices(flags, n)[..cap] == before[..cap];
      assert forall x :: x in before[..cap] ==> x in before;
      if i < n - 1 {
        InCappedIff(flags, n - 1, cap, i);
      }
    } else {
      assert FreeIndices(flags, n)[..cap] == before + [n - 1];
      assert before[..|before|] == before;
      if i < n - 1 {
        InCappedIff(flags, n - 1, cap - 1, i);
      }
    }
  }

  method CollectFree(flags: seq<bool>) returns (availablePosts: seq<int>)
    ensures availablePosts == FreeIndices(flags, |flags|)
  {
    availablePosts := [];
    for i := 0 to |flags|
      invariant availablePosts == FreeIndices(flags, i)
    {
      if flags[i] {
        availablePosts := availablePosts + [i];
      }
    }
  }

  /** The body of the third loop: collect the free posts, cap them, emit one entry per post. */
  method BuildColumn(q: Query, posts: seq<Id>, flags: seq<bool>, profiles: nat, freeEmployees: seq<Id>, ghost k: int, cursor: int)
    returns (column: seq<TimeSlot>)
    requires |flags| == |posts| && cursor == CursorAt(q, k)
    ensures column == Capped(q, posts, k, flags, EffectiveCapacity(q, profiles, Rank(flags, |flags|), freeEmployees))
  {
    var availablePosts := CollectFree(flags);
    var cap := EffectiveCapacity(q, profiles, |availablePosts|, freeEmployees);
    var cappedAvailable := availablePosts[..cap];
    column := [];
    for i := 0 to |posts|
      invariant |column| == i
      invariant forall j :: 0 <= j < i ==>
                  column[j] == TimeSlot(cursor, cursor + q.slotMs, posts[j], flags[j] && Rank(flags, j) < cap)
    {
      InCappedIff(flags, |flags|, cap, i);
      column := column + [TimeSlot(cursor, cursor + q.slotMs, posts[i], flags[i] && i in cappedAvailable)];
    }
  }

  ghost predicate PostSlotsDone(orders: map<Id, Order>, q: Query, posts: seq<Id>, perPostSlots: seq<seq<bool>>) {
    && |perPostSlots| == |posts|
    && (forall j :: 0 <= j < |posts| ==> |perPostSlots[j]| == SlotCount(q))
    && forall j, k :: 0 <= j < |posts| && 0 <= k < SlotCount(q) ==> perPostSlots[j][k] == RawFree(orders, q, posts, posts[j], k)
  }

  ghost predicate EmployeesDone(site: Site, orders: map<Id, Order>, q: Query, candidates: seq<Id>, bySlot: seq<seq<Id>>)
    requires ShiftsWellFormed(site) && q.branch in site.branches
  {
    && |bySlot| == SlotCount(q)
    && forall k :: 0 <= k < |bySlot| ==> bySlot[k] == FreeEmployees(site, orders, q, candidates, k)
  }

  /** The entries of one time point, from the results of the first two loops. */
  method ColumnAt(site: Site, orders: map<Id, Order>, q: Query, posts: seq<Id>, ghost candidates: seq<Id>, profiles: nat,
                  perPostSlots: seq<seq<bool>>, employeesBySlot: seq<seq<Id>>, slotIdx: nat, cursor: int)
    returns (column: seq<TimeSlot>)
    requires ShiftsWellFormed(site) && q.branch in site.branches && slotIdx < SlotCount(q) && cursor == CursorAt(q, slotIdx)
    requires PostSlotsDone(orders, q, posts, perPostSlots) && profiles == |ConfiguredProfiles(site, q.branch)|
    requires profiles > 0 || q.employee.Some? ==> EmployeesDone(site, orders, q, candidates, employeesBySlot)
    ensures column == Column(site, orders, q, posts, candidates, slotIdx)
  {
    var raw := seq(|posts|, i requires 0 <= i < |posts| => perPostSlots[i][slotIdx]);
    assert raw == Flags(orders, q, posts, slotIdx);
    var free := if profiles > 0 || q.employee.Some? then employeesBySlot[slotIdx] else [];
    column := BuildColumn(q, posts, raw, profiles, free, slotIdx, cursor);
  }

  /** The three loops, once the query is known to be answerable. */
  method BuildSlots(site: Site, orders: map<Id, Order>, q: Query, posts: seq<Id>, candidates: seq<Id>) returns (slots: seq<TimeSlot>)
    requires ShiftsWellFormed(site) && q.branch in site.branches && q.slotMs > 0
    ensures slots == Grid(site, orders, q, posts, candidates, SlotCount(q))
  {
    hide Column;
    var totalProfiles := |ConfiguredProfiles(site, q.branch)|;
    var employeesBySlot := [];
    if totalProfiles > 0 || q.employee.Some? {
      employeesBySlot := EmployeeAvailability(site, orders, q, candidates);
    }
    var perPostSlots := AllPostSlots(orders, q, posts);
    slots := [];
    var cursor, slotIdx := q.dayStart, 0;
    SlotFits(q, 0);
    while cursor + q.slotMs <= q.dayEnd
      invariant 0 <= slotIdx <= SlotCount(q) && cursor == CursorAt(q, slotIdx)
      invariant slots == Grid(site, orders, q, posts, candidates, slotIdx)
      decreases q.dayEnd - cursor
    {
      SlotFits(q, slotIdx);
      var column := ColumnAt(site, orders, q, posts, candidates, totalProfiles, perPostSlots, employeesBySlot, slotIdx, cursor);
      slots := slots + column;
      cursor, slotIdx := cursor + q.slotMs, slotIdx + 1;
    }
    SlotFits(q, slotIdx);
  }

  /**
   * `posts` and `candidates` are the rows returned by the two unordered queries, `dayAllowed` the
   * verdict of the booking-day rules.
   */
  method CheckAvailability(site: Site, orders: map<Id, Order>, q: Query, posts: seq<Id>, candidates: seq<Id>, dayAllowed: bool)
    returns (r: Result<seq<TimeSlot>, Failure>)
    requires ShiftsWellFormed(site)
    requires Enumerates(posts, PostRows(site, q)) && Enumerates(candidates, CandidateRows(site, q))
    ensures r == if q.branch !in site.branches || site.branches[q.branch].deleted then Err(NotFound)
                 else if !dayAllowed then Ok([])
                 else Ok(Grid(site, orders, q, posts, candidates, SlotCount(q)))
  {
    if q.branch !in site.branches || site.branches[q.branch].deleted {
      return Err(NotFound);
    }
    if !dayAllowed {
      return Ok([]);
    }
    if q.slotMs <= 0 {
      return Ok([]);
    }
    var slots := BuildSlots(site, orders, q, posts, candidates);
    return Ok(slots);
  }
}
