/**
 * The batched grid against the point checks made when booking: its employee lists are the eligible
 * employees, its raw flags are the free posts whenever the buffered slot lies inside the working
 * hours, and each column advertises exactly its capacity.
 */
module GridAgreement {
  import opened Domain
  import opened WorkingWindow
  import opened Reservation
  import opened Availability

  predicate BufferedInside(q: Query, k: int) {
    q.dayStart <= SlotAt(q, k).start - q.buffer * 60000 && SlotAt(q, k).end + q.buffer * 60000 <= q.dayEnd
  }

  predicate InGrid(q: Query, k: int) {
    q.slotMs > 0 && 0 <= k < SlotCount(q)
  }

  // ----- Posts -----

  lemma PostFlagAgrees(orders: map<Id, Order>, q: Query, posts: seq<Id>, post: Id, k: int)
    requires InGrid(q, k) && post in posts && BufferedInside(q, k)
    ensures RawFree(orders, q, posts, post, k) <==> PostFree(orders, post, SlotAt(q, k))
  {
  }

  /** One order of `post`, a minute long, that only touches the buffer outside the working hours. */
  function Straddler(q: Query, post: Id, start: int): map<Id, Order> {
    var id := if q.exclude == Some(Id(0)) then Id(1) else Id(0);
    map[id := Order(q.branch, Id(0), Id(0), Some(post), None, Booked, start, start + 60000, 0, false)]
  }

  /**
   * The query for post orders is not widened by the buffer, so the flags are right for every
   * order table exactly when the buffered slot lies inside the working hours.
   */
  lemma PostFlagAgreesIffInside(q: Query, posts: seq<Id>, post: Id, k: int)
    requires InGrid(q, k) && post in posts
    ensures (forall orders :: RawFree(orders, q, posts, post, k) <==> PostFree(orders, post, SlotAt(q, k)))
            <==> BufferedInside(q, k)
  {
    if BufferedInside(q, k) {
      forall orders
        ensures RawFree(orders, q, posts, post, k) <==> PostFree(orders, post, SlotAt(q, k))
      {
        PostFlagAgrees(orders, q, posts, post, k);
      }
    } else {
      SlotFits(q, k);
      var slot := SlotAt(q, k);
      var orders := Straddler(q, post, if q.dayEnd < slot.end + q.buffer * 60000 then q.dayEnd else q.dayStart - 60000);
      assert FetchPostOrders(orders, q, posts) == {};
      var id := if q.exclude == Some(Id(0)) then Id(1) else Id(0);
      assert id in orders && Collides(orders[id], slot);
      assert RawFree(orders, q, posts, post, k) && !PostFree(orders, post, slot);
    }
  }

  // ----- Employees -----

  lemma ShiftTextsAgree(e: Employee, w: Window, z: Zone, start: int, end: int)
    requires WindowFor(z, start, end) == Some(w)
    requires e.workStart.Some? && ValidClock(e.workStart.value) && e.workEnd.Some? && ValidClock(e.workEnd.value)
    ensures |w.startTime| == 5 && |w.endTime| == 5
    ensures ShiftCovers(e, w) <==>
            ToMinutes(e.workStart.value) <= ToMinutes(w.startTime) && ToMinutes(w.endTime) <= ToMinutes(e.workEnd.value)
  {
    hide HHMM, LexLess;
    MinutesOrdered(start, end);
    var from, to := Earliest(z, MinuteOf(start), MinuteOf(end - 1)), Latest(z, MinuteOf(start), MinuteOf(end - 1)) + 1;
    var s, t := ToMinutes(e.workStart.value), ToMinutes(e.workEnd.value);
    ValidClockIsHHMM(e.workStart.value);
    ValidClockIsHHMM(e.workEnd.value);
    ClockRoundTrip(from);
    ClockRoundTrip(to);
    TextOrderIsClockOrder(from, s);
    TextOrderIsClockOrder(t, to);
  }

  /** An employee is eligible when the branch is active, the profile employable, and its shift covers every instant of a free slot. */
  lemma EligibleIffShiftCovers(site: Site, orders: map<Id, Order>, branch: Id, e: Id, slot: Slot)
    requires ShiftsWellFormed(site)
    ensures Eligible(site, orders, branch, e, slot) <==>
            && ActiveBranch(site, branch) && e in site.employees && Employable(site.employees[e], branch)
            && site.employees[e].workStart.Some? && site.employees[e].workEnd.Some?
            && slot.start < slot.end && OneLocalDay(site.branches[branch].zone, slot.start, slot.end)
            && Covers(site.branches[branch].zone, slot.start, slot.end,
                      ToMinutes(site.employees[e].workStart.value), ToMinutes(site.employees[e].workEnd.value))
            && EmployeeFree(orders, e, slot)
  {
    if ActiveBranch(site, branch) && e in site.employees && site.employees[e].workStart.Some? && site.employees[e].workEnd.Some? {
      var zone := site.branches[branch].zone;
      if WindowFor(zone, slot.start, slot.end).Some? {
        WindowIsLeast(zone, slot.start, slot.end, site.employees[e].workStart.value, site.employees[e].workEnd.value);
      }
    }
  }

  predicate Listed(site: Site, orders: map<Id, Order>, q: Query, candidates: seq<Id>, k: int, e: Id)
    requires ShiftsWellFormed(site) && q.branch in site.branches
  {
    PassesFilter(site, orders, FetchEmployeeOrders(orders, q, candidates), e, SlotAt(q, k), WindowAt(site, q, k))
  }

  lemma BatchFindsConflicts(orders: map<Id, Order>, q: Query, candidates: seq<Id>, k: int, e: Id)
    requires InGrid(q, k) && e in candidates
    ensures var slot := SlotAt(q, k);
            EmployeeFree(orders, e, slot) <==>
            forall id :: id in FetchEmployeeOrders(orders, q, candidates) && id in orders && orders[id].employee == Some(e) ==>
              !(orders[id].start < slot.end + slot.buffer * 60000 && orders[id].end > slot.start - slot.buffer * 60000)
  {
    SlotFits(q, k);
    var slot, fetched := SlotAt(q, k), FetchEmployeeOrders(orders, q, candidates);
    forall id | id in orders && orders[id].employee == Some(e) && slot.exclude != Some(id) && Collides(orders[id], slot)
      ensures id in fetched
    {
    }
  }

  /** For every slot of the grid the in-memory filter keeps exactly the eligible employees. */
  lemma EmployeeFilterAgrees(site: Site, orders: map<Id, Order>, q: Query, candidates: seq<Id>, k: int, e: Id)
    requires ShiftsWellFormed(site) && q.branch in site.branches && InGrid(q, k)
    requires Enumerates(candidates, CandidateRows(site, q))
    ensures (e in candidates && Listed(site, orders, q, candidates, k, e)) <==> Eligible(site, orders, q.branch, e, SlotAt(q, k))
  {
    var slot, w := SlotAt(q, k), WindowAt(site, q, k);
    assert e in candidates <==> e in CandidateRows(site, q);
    if e in candidates && w.Some? {
      ShiftTextsAgree(site.employees[e], w.value, site.branches[q.branch].zone, slot.start, slot.end);
      BatchFindsConflicts(orders, q, candidates, k, e);
    }
  }

  lemma WindowTextsHaveFive(site: Site, q: Query, k: int)
    requires q.branch in site.branches
    ensures var w := WindowAt(site, q, k); w.Some? ==> |w.value.startTime| == 5 && |w.value.endTime| == 5
  {
  }

  lemma {:induction false} FilteredIsSubsequence(site: Site, orders: map<Id, Order>, fetched: set<Id>, candidates: seq<Id>, slot: Slot, w: Option<Window>)
    requires ShiftsWellFormed(site) && (w.Some? ==> |w.value.startTime| == 5 && |w.value.endTime| == 5)
    requires Distinct(candidates)
    ensures var kept := Filtered(site, orders, fetched, candidates, slot, w);
            && Distinct(kept)
            && forall e :: e in kept <==> e in candidates && PassesFilter(site, orders, fetched, e, slot, w)
  {
    if candidates != [] {
      var n := |candidates| - 1;
      assert candidates == candidates[..n] + [candidates[n]];
      FilteredIsSubsequence(site, orders, fetched, candidates[..n], slot, w);
    }
  }

  lemma FreeEmployeesAreEligible(site: Site, orders: map<Id, Order>, q: Query, candidates: seq<Id>, k: int)
    requires ShiftsWellFormed(site) && q.branch in site.branches && InGrid(q, k)
    requires Enumerates(candidates, CandidateRows(site, q))
    ensures var eligible := EligibleEmployees(site, orders, q.branch, SlotAt(q, k));
            Enumerates(FreeEmployees(site, orders, q, candidates, k), eligible)
            && |FreeEmployees(site, orders, q, candidates, k)| == |eligible|
  {
    WindowTextsHaveFive(site, q, k);
    FilteredIsSubsequence(site, orders, FetchEmployeeOrders(orders, q, candidates), candidates, SlotAt(q, k), WindowAt(site, q, k));
    var free, eligible := FreeEmployees(site, orders, q, candidates, k), EligibleEmployees(site, orders, q.branch, SlotAt(q, k));
    forall e
      ensures e in free <==> e in eligible
    {
      EmployeeFilterAgrees(site, orders, q, candidates, k, e);
    }
    EnumerationSize(free, eligible);
  }

  // ----- Columns -----

  function CountAvailable(column: seq<TimeSlot>): (n: nat)
  {
    if column == [] then 0
    else CountAvailable(column[..|column| - 1]) + (if column[|column| - 1].available then 1 else 0)
  }

  lemma {:induction false} CappedCount(q: Query, posts: seq<Id>, k: int, flags: seq<bool>, cap: nat, n: int)
    requires |flags| == |posts| && 0 <= n <= |posts|
    ensures CountAvailable(Capped(q, posts, k, flags, cap)[..n]) == if Rank(flags, n) < cap then Rank(flags, n) else cap
  {
    var column := Capped(q, posts, k, flags, cap);
    if n > 0 {
      assert column[..n][..n - 1] == column[..n - 1];
      CappedCount(q, posts, k, flags, cap, n - 1);
    }
  }

  lemma ColumnCount(site: Site, orders: map<Id, Order>, q: Query, posts: seq<Id>, candidates: seq<Id>, k: int)
    requires ShiftsWellFormed(site) && q.branch in site.branches
    ensures CountAvailable(Column(site, orders, q, posts, candidates, k)) == CapacityAt(site, orders, q, posts, candidates, k)
  {
    var flags, cap := Flags(orders, q, posts, k), CapacityAt(site, orders, q, posts, candidates, k);
    var column := Column(site, orders, q, posts, candidates, k);
    CappedCount(q, posts, k, flags, cap, |posts|);
    assert column[..|posts|] == column;
  }

  /** The places, among the first `n`, of the posts that the day's orders leave free. */
  function FreePlaces(orders: map<Id, Order>, q: Query, posts: seq<Id>, k: int, n: int): set<int>
    requires n <= |posts|
  {
    set j | 0 <= j < n && RawFree(orders, q, posts, posts[j], k)
  }

  lemma OneMorePlace(orders: map<Id, Order>, q: Query, posts: seq<Id>, k: int, n: int)
    requires 0 < n <= |posts|
    ensures |FreePlaces(orders, q, posts, k, n)| ==
            |FreePlaces(orders, q, posts, k, n - 1)| + (if RawFree(orders, q, posts, posts[n - 1], k) then 1 else 0)
  {
    hide RawFree;
    var before := FreePlaces(orders, q, posts, k, n - 1);
    assert n - 1 !in before;
    if RawFree(orders, q, posts, posts[n - 1], k) {
      assert FreePlaces(orders, q, posts, k, n) == before + {n - 1};
    } else {
      assert FreePlaces(orders, q, posts, k, n) == before;
    }
  }

  lemma {:induction false} RankCountsPlaces(orders: map<Id, Order>, q: Query, posts: seq<Id>, k: int, n: int)
    requires 0 <= n <= |posts|
    ensures Rank(Flags(orders, q, posts, k), n) == |FreePlaces(orders, q, posts, k, n)|
  {
    if n > 0 {
      RankCountsPlaces(orders, q, posts, k, n - 1);
      OneMorePlace(orders, q, posts, k, n);
      assert Flags(orders, q, posts, k)[n - 1] == RawFree(orders, q, posts, posts[n - 1], k);
      hide RawFree, FreePlaces, Flags;
    } else {
      assert FreePlaces(orders, q, posts, k, 0) == {};
    }
  }

  lemma ListedIffEligible(site: Site, orders: map<Id, Order>, q: Query, candidates: seq<Id>, k: int, e: Id)
    requires ShiftsWellFormed(site) && q.branch in site.branches && InGrid(q, k)
    requires Enumerates(candidates, CandidateRows(site, q))
    ensures e in FreeEmployees(site, orders, q, candidates, k) <==> Eligible(site, orders, q.branch, e, SlotAt(q, k))
  {
    FreeEmployeesAreEligible(site, orders, q, candidates, k);
    assert e in EligibleEmployees(site, orders, q.branch, SlotAt(q, k)) <==> Eligible(site, orders, q.branch, e, SlotAt(q, k));
    hide Eligible, FreeEmployees;
  }

  /**
   * One entry of the grid: its place and time, and when it is available. With an employee named, every free
   * post is, exactly while that employee is eligible; with staff configured, the first free posts are, as
   * many as there are eligible employees; else every free post.
   */
  lemma EntryAnswer(site: Site, orders: map<Id, Order>, q: Query, posts: seq<Id>, candidates: seq<Id>, k: int, i: int)
    requires ShiftsWellFormed(site) && q.branch in site.branches && InGrid(q, k) && 0 <= i < |posts|
    requires Enumerates(candidates, CandidateRows(site, q))
    ensures var entry, slot := Column(site, orders, q, posts, candidates, k)[i], SlotAt(q, k);
            && entry.post == posts[i] && entry.start == q.dayStart + k * q.slotMs && entry.end == entry.start + q.slotMs
            && (entry.available <==>
                && RawFree(orders, q, posts, posts[i], k)
                && (match q.employee
                    case Some(e) => Eligible(site, orders, q.branch, e, slot)
                    case None =>
                      || ConfiguredProfiles(site, q.branch) == {}
                      || |FreePlaces(orders, q, posts, k, i)| < |EligibleEmployees(site, orders, q.branch, slot)|))
  {
    var flags := Flags(orders, q, posts, k);
    RankGrows(flags, i, |flags|);
    RankCountsPlaces(orders, q, posts, k, i);
    FreeEmployeesAreEligible(site, orders, q, candidates, k);
    if q.employee.Some? {
      ListedIffEligible(site, orders, q, candidates, k, q.employee.value);
    }
    assert |ConfiguredProfiles(site, q.branch)| == 0 <==> ConfiguredProfiles(site, q.branch) == {};
    hide Eligible, EligibleEmployees, ConfiguredProfiles, RawFree, FreeEmployees, FreePlaces, Rank;
  }

  /** What each column advertises: all free posts or none when an employee is named, else min(free posts, eligible employees). */
  lemma ColumnAdvertisesCapacity(site: Site, orders: map<Id, Order>, q: Query, posts: seq<Id>, candidates: seq<Id>, k: int)
    requires ShiftsWellFormed(site) && q.branch in site.branches && InGrid(q, k)
    requires Enumerates(candidates, CandidateRows(site, q))
    ensures var free, eligible := |FreePlaces(orders, q, posts, k, |posts|)|, EligibleEmployees(site, orders, q.branch, SlotAt(q, k));
            CountAvailable(Column(site, orders, q, posts, candidates, k)) ==
            match q.employee
            case Some(e) => if e in eligible then free else 0
            case None => if ConfiguredProfiles(site, q.branch) == {} || free < |eligible| then free else |eligible|
  {
    ColumnCount(site, orders, q, posts, candidates, k);
    RankCountsPlaces(orders, q, posts, k, |posts|);
    FreeEmployeesAreEligible(site, orders, q, candidates, k);
    assert |ConfiguredProfiles(site, q.branch)| == 0 <==> ConfiguredProfiles(site, q.branch) == {};
    hide EligibleEmployees, ConfiguredProfiles, FreeEmployees, FreePlaces, Rank, Column;
  }

  /** A raw flag is set exactly when no live order of the post that overlaps the working hours comes within the buffer of the slot. */
  lemma RawFlagIff(orders: map<Id, Order>, q: Query, posts: seq<Id>, post: Id, k: int)
    requires post in posts
    ensures RawFree(orders, q, posts, post, k) <==>
            forall id :: id in orders && orders[id].post == Some(post) && q.exclude != Some(id) && Active(orders[id])
                         && orders[id].start < q.dayEnd && q.dayStart < orders[id].end ==>
              || orders[id].end + q.buffer * 60000 <= q.dayStart + k * q.slotMs
              || q.dayStart + (k * q.slotMs) + q.slotMs + q.buffer * 60000 <= orders[id].start
  {
    var fetched := FetchPostOrders(orders, q, posts);
    forall id | id in orders && orders[id].post == Some(post)
      ensures id in fetched <==> q.exclude != Some(id) && Active(orders[id]) && orders[id].start < q.dayEnd && q.dayStart < orders[id].end
    {
    }
  }

  /** The posts that the grid lists: the usable ones of the branch, or the one that is named, if usable. */
  lemma ListedPosts(site: Site, q: Query, p: Id)
    ensures p in PostRows(site, q) <==>
            && p in site.posts && site.posts[p].isActive && !site.posts[p].deleted && site.posts[p].branch == q.branch
            && (q.post.None? || q.post == Some(p))
  {
  }

  lemma {:induction false} GridLength(site: Site, orders: map<Id, Order>, q: Query, posts: seq<Id>, candidates: seq<Id>, n: nat)
    requires ShiftsWellFormed(site) && q.branch in site.branches
    ensures |Grid(site, orders, q, posts, candidates, n)| == n * |posts|
  {
    if n > 0 {
      GridLength(site, orders, q, posts, candidates, n - 1);
      assert n * |posts| == (n - 1) * |posts| + |posts|;
    }
  }

  /** Later columns come after earlier ones. */
  lemma {:induction false} GridPrefix(site: Site, orders: map<Id, Order>, q: Query, posts: seq<Id>, candidates: seq<Id>, k: nat, n: nat)
    requires ShiftsWellFormed(site) && q.branch in site.branches && k <= n
    ensures Grid(site, orders, q, posts, candidates, k) <= Grid(site, orders, q, posts, candidates, n)
    decreases n - k
  {
    hide Column;
    if k < n {
      GridPrefix(site, orders, q, posts, candidates, k, n - 1);
    }
  }

  lemma SliceOfPrefix<T>(a: seq<T>, b: seq<T>, whole: seq<T>)
    requires a + b <= whole
    ensures whole[|a|..|a| + |b|] == b
  {
  }

  /** The grid has one column of |posts| entries per slot, in order, at aligned starts. */
  lemma GridLayout(site: Site, orders: map<Id, Order>, q: Query, posts: seq<Id>, candidates: seq<Id>, n: nat, k: nat)
    requires ShiftsWellFormed(site) && q.branch in site.branches && k < n
    ensures var grid, p := Grid(site, orders, q, posts, candidates, n), |posts|;
            && |grid| == n * p && 0 <= k * p <= k * p + p <= n * p
            && grid[k * p..k * p + p] == Column(site, orders, q, posts, candidates, k)
  {
    var before, column := Grid(site, orders, q, posts, candidates, k), Column(site, orders, q, posts, candidates, k);
    assert |column| == |posts|;
    hide Column;
    GridLength(site, orders, q, posts, candidates, n);
    GridLength(site, orders, q, posts, candidates, k);
    GridPrefix(site, orders, q, posts, candidates, k + 1, n);
    SliceOfPrefix(before, column, Grid(site, orders, q, posts, candidates, n));
  }

  function FreeAmong(orders: map<Id, Order>, posts: seq<Id>, slot: Slot): set<Id> {
    set p | p in posts && PostFree(orders, p, slot)
  }

  lemma FreeAmongOneMore(orders: map<Id, Order>, posts: seq<Id>, slot: Slot)
    requires posts != [] && Distinct(posts)
    ensures var n := |posts| - 1;
            |FreeAmong(orders, posts, slot)| ==
            |FreeAmong(orders, posts[..n], slot)| + (if PostFree(orders, posts[n], slot) then 1 else 0)
  {
    var n := |posts| - 1;
    assert posts == posts[..n] + [posts[n]];
    assert posts[n] !in posts[..n];
    if PostFree(orders, posts[n], slot) {
      assert FreeAmong(orders, posts, slot) == FreeAmong(orders, posts[..n], slot) + {posts[n]};
    } else {
      assert FreeAmong(orders, posts, slot) == FreeAmong(orders, posts[..n], slot);
    }
  }

  /** The set flags are counted by the free posts, buffered slot inside the working hours. */
  lemma {:induction false} FlagsCountFreePosts(orders: map<Id, Order>, q: Query, posts: seq<Id>, k: int, n: int)
    requires InGrid(q, k) && BufferedInside(q, k) && Distinct(posts) && 0 <= n <= |posts|
    ensures Rank(Flags(orders, q, posts, k), n) == |FreeAmong(orders, posts[..n], SlotAt(q, k))|
  {
    if n > 0 {
      FlagsCountFreePosts(orders, q, posts, k, n - 1);
      PostFlagAgrees(orders, q, posts, posts[n - 1], k);
      assert posts[..n][..n - 1] == posts[..n - 1];
      FreeAmongOneMore(orders, posts[..n], SlotAt(q, k));
    }
  }
}
