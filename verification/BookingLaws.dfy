/**
 * What each call on orders and payments answers, in terms of the rows alone: which requests are
 * accepted, what the accepted row contains, and what every step leaves as it was.
 */
module BookingLaws {
  import opened Domain
  import opened WorkingWindow
  import opened Idempotency
  import opened OrderIntent
  import opened Reservation
  import opened Booking
  import opened BookingSafety
  import opened Availability
  import opened GridAgreement

  // ----- Free, open and fit -----

  predicate OpenBranch(site: Site, branch: Id) {
    branch in site.branches && site.branches[branch].isActive && !site.branches[branch].deleted
  }

  predicate OpenPost(site: Site, branch: Id, p: Id) {
    && p in site.posts && site.posts[p].isActive && !site.posts[p].deleted && site.posts[p].branch == branch
  }

  predicate Blocks(o: Order) {
    !o.deleted && o.status in {BookedPendingConfirmation, Booked, InProgress}
  }

  /** The order ends a buffer before the slot starts, or starts a buffer after it ends. */
  predicate KeepsDistance(o: Order, slot: Slot) {
    o.end + slot.buffer * 60000 <= slot.start || slot.end + slot.buffer * 60000 <= o.start
  }

  predicate PostClear(orders: map<Id, Order>, p: Id, slot: Slot) {
    forall id :: id in orders && orders[id].post == Some(p) && Blocks(orders[id]) ==>
      slot.exclude == Some(id) || KeepsDistance(orders[id], slot)
  }

  predicate EmployeeClear(orders: map<Id, Order>, e: Id, slot: Slot) {
    forall id :: id in orders && orders[id].employee == Some(e) && Blocks(orders[id]) ==>
      slot.exclude == Some(id) || KeepsDistance(orders[id], slot)
  }

  /** A worker of the branch with an active account, on shift at every instant of the slot, all on one local day. */
  predicate FitWorker(site: Site, branch: Id, e: Id, slot: Slot)
    requires ShiftsWellFormed(site)
  {
    && OpenBranch(site, branch) && e in site.employees
    && var row := site.employees[e];
       && row.branch == branch && row.isWorker && row.active && !row.deleted && row.userActive && !row.userDeleted
       && row.workStart.Some? && row.workEnd.Some? && slot.start < slot.end
       && OneLocalDay(site.branches[branch].zone, slot.start, slot.end)
       && Covers(site.branches[branch].zone, slot.start, slot.end, ToMinutes(row.workStart.value), ToMinutes(row.workEnd.value))
  }

  /** An active profile of the branch with a shift. */
  predicate Staffs(site: Site, branch: Id, e: Id) {
    && e in site.employees && site.employees[e].branch == branch && site.employees[e].active && !site.employees[e].deleted
    && site.employees[e].workStart.Some?
  }

  lemma ClearIsFree(orders: map<Id, Order>, r: Id, slot: Slot)
    ensures PostFree(orders, r, slot) <==> PostClear(orders, r, slot)
    ensures EmployeeFree(orders, r, slot) <==> EmployeeClear(orders, r, slot)
  {
    forall o
      ensures Collides(o, slot) <==> Blocks(o) && !KeepsDistance(o, slot)
    {
    }
  }

  /** A named post is reserved exactly when it is open and clear; a conflict means open but not clear. */
  lemma NamedPostAnswer(site: Site, orders: map<Id, Order>, branch: Id, p: Id, slot: Slot)
    ensures PostFor(site, orders, branch, Some(p), slot) ==
            if !OpenBranch(site, branch) || !OpenPost(site, branch, p) then Err(BadRequest)
            else if PostClear(orders, p, slot) then Ok(p) else Err(Conflict)
  {
    ClearIsFree(orders, p, slot);
  }

  /** Without a name, the least open and clear post is reserved. */
  lemma AutomaticPostAnswer(site: Site, orders: map<Id, Order>, branch: Id, slot: Slot)
    ensures var r := PostFor(site, orders, branch, None, slot);
            && (forall p :: r == Ok(p) <==>
                  && OpenBranch(site, branch) && OpenPost(site, branch, p) && PostClear(orders, p, slot)
                  && forall q :: OpenPost(site, branch, q) && PostClear(orders, q, slot) ==> p.AtMost(q))
            && (r.Err? ==> r == Err(BadRequest))
            && (r.Err? <==> !OpenBranch(site, branch) || forall p :: OpenPost(site, branch, p) ==> !PostClear(orders, p, slot))
  {
    var free := FreePosts(site, orders, branch, slot);
    forall p
      ensures p in free <==> OpenPost(site, branch, p) && PostClear(orders, p, slot)
    {
      ClearIsFree(orders, p, slot);
    }
    hide PostClear, OpenPost, FreePosts;
    if free != {} {
      var m := MinId(free);
      forall p | p in free && forall q :: q in free ==> p.AtMost(q)
        ensures p == m
      {
        assert p.AtMost(m) && m.AtMost(p);
      }
    }
  }

  lemma EligibleIsFitAndClear(site: Site, orders: map<Id, Order>, branch: Id, e: Id, slot: Slot)
    requires ShiftsWellFormed(site)
    ensures Eligible(site, orders, branch, e, slot) <==> FitWorker(site, branch, e, slot) && EmployeeClear(orders, e, slot)
  {
    EligibleIffShiftCovers(site, orders, branch, e, slot);
    ClearIsFree(orders, e, slot);
    hide Eligible, EmployeeFree, EmployeeClear, Covers, OneLocalDay;
  }

  /** A named employee is assigned exactly when fit and clear. */
  lemma NamedEmployeeAnswer(site: Site, orders: map<Id, Order>, branch: Id, e: Id, slot: Slot)
    requires ShiftsWellFormed(site)
    ensures EmployeeFor(site, orders, branch, Some(e), slot) ==
            if FitWorker(site, branch, e, slot) && EmployeeClear(orders, e, slot) then Ok(Some(e)) else Err(BadRequest)
  {
    EligibleIsFitAndClear(site, orders, branch, e, slot);
  }

  /** Without a name: nobody in a branch without staff, otherwise the least fit and clear worker. */
  lemma AutomaticEmployeeAnswer(site: Site, orders: map<Id, Order>, branch: Id, slot: Slot)
    requires ShiftsWellFormed(site)
    ensures var r := EmployeeFor(site, orders, branch, None, slot);
            && (r == Ok(None) <==> forall e :: !Staffs(site, branch, e))
            && (forall e :: r == Ok(Some(e)) <==>
                  && (exists s :: Staffs(site, branch, s))
                  && FitWorker(site, branch, e, slot) && EmployeeClear(orders, e, slot)
                  && forall d :: FitWorker(site, branch, d, slot) && EmployeeClear(orders, d, slot) ==> e.AtMost(d))
            && (r.Err? ==> r == Err(BadRequest))
  {
    var eligible, staff := EligibleEmployees(site, orders, branch, slot), ConfiguredProfiles(site, branch);
    assert forall e :: e in staff <==> Staffs(site, branch, e);
    forall e
      ensures e in eligible <==> FitWorker(site, branch, e, slot) && EmployeeClear(orders, e, slot)
    {
      EligibleIsFitAndClear(site, orders, branch, e, slot);
    }
    hide FitWorker, EmployeeClear, Staffs, EligibleEmployees, ConfiguredProfiles;
    if eligible != {} {
      var m := MinId(eligible);
      forall e | e in eligible && forall d :: d in eligible ==> e.AtMost(d)
        ensures e == m
      {
        assert e.AtMost(m) && m.AtMost(e);
      }
    }
    assert staff == {} <==> forall e :: e !in staff;
  }

  /** A branch's own buffer comes first, then the tenant's, then ten minutes; other branches' settings do not matter. */
  lemma BufferFallsBack(site: Site, branch: Id, other: Id, minutes: nat)
    ensures BufferFor(site.(branchBuffers := site.branchBuffers[other := minutes]), branch) ==
            if branch == other then minutes else BufferFor(site, branch)
    ensures BufferFor(site.(branchBuffers := map[], tenantBuffer := Some(minutes)), branch) == minutes
    ensures BufferFor(site.(branchBuffers := map[], tenantBuffer := None), branch) == 10
  {
  }

  // ----- Totals of the services -----

  lemma {:induction false} SumsAdd(site: Site, a: seq<Id>, b: seq<Id>)
    ensures DurationSum(site, a + b) == DurationSum(site, a) + DurationSum(site, b)
    ensures PriceSum(site, a + b) == PriceSum(site, a) + PriceSum(site, b)
  {
    if a == [] {
      assert a + b == b;
    } else {
      assert (a + b)[1..] == a[1..] + b;
      SumsAdd(site, a[1..], b);
    }
  }

  lemma TakeOut(site: Site, s: seq<Id>, j: int) returns (rest: seq<Id>)
    requires 0 <= j < |s|
    ensures multiset(s) == multiset(rest) + multiset{s[j]} && |rest| == |s| - 1
    ensures DurationSum(site, s) == DurationSum(site, [s[j]]) + DurationSum(site, rest)
    ensures PriceSum(site, s) == PriceSum(site, [s[j]]) + PriceSum(site, rest)
  {
    hide DurationSum, PriceSum;
    var before, at, after := s[..j], [s[j]], s[j + 1..];
    rest := before + after;
    assert s == before + (at + after);
    SumsAdd(site, before, at + after);
    SumsAdd(site, at, after);
    SumsAdd(site, before, after);
  }

  /** Totals do not depend on the order in which the services are listed. */
  lemma {:induction false} SumsPermute(site: Site, a: seq<Id>, b: seq<Id>)
    requires multiset(a) == multiset(b)
    ensures DurationSum(site, a) == DurationSum(site, b) && PriceSum(site, a) == PriceSum(site, b)
    decreases |a|
  {
    if a == [] {
      assert |multiset(b)| == 0;
    } else {
      assert a[0] in multiset(b);
      var j :| 0 <= j < |b| && b[j] == a[0];
      var restOfA := TakeOut(site, a, 0);
      var restOfB := TakeOut(site, b, j);
      assert multiset(restOfA) == multiset(a) - multiset{a[0]} == multiset(restOfB);
      SumsPermute(site, restOfA, restOfB);
    }
  }

  /** `totals` are the running sums of `amount` over the listed services. */
  ghost predicate Accumulates(totals: seq<nat>, listing: seq<Id>, amount: Id -> nat) {
    && |totals| == |listing| + 1 && totals[0] == 0
    && forall i :: 0 <= i < |listing| ==> totals[i + 1] == totals[i] + amount(listing[i])
  }

  function MinutesOf(site: Site): Id -> nat {
    (s: Id) => if s in site.services then site.services[s].durationMin else 0
  }

  function CentsOf(site: Site): Id -> nat {
    (s: Id) => if s in site.services then site.services[s].price else 0
  }

  lemma {:induction false} SumsAccumulate(site: Site, listing: seq<Id>) returns (minutes: seq<nat>, cents: seq<nat>)
    ensures Accumulates(minutes, listing, MinutesOf(site)) && minutes[|listing|] == DurationSum(site, listing)
    ensures Accumulates(cents, listing, CentsOf(site)) && cents[|listing|] == PriceSum(site, listing)
  {
    if listing == [] {
      minutes, cents := [0], [0];
    } else {
      var n := |listing| - 1;
      var m, c := SumsAccumulate(site, listing[..n]);
      assert listing == listing[..n] + [listing[n]] && [listing[n]][1..] == [];
      SumsAdd(site, listing[..n], [listing[n]]);
      minutes, cents := m + [m[n] + MinutesOf(site)(listing[n])], c + [c[n] + CentsOf(site)(listing[n])];
    }
  }

  // ----- Creating -----

  /** The named post or any open and clear one, and the named worker, any fit and clear one, or nobody where nobody is needed. */
  predicate Served(site: Site, orders: map<Id, Order>, branch: Id, post: Option<Id>, employee: Option<Id>, slot: Slot) {
    PostFor(site, orders, branch, post, slot).Ok? && EmployeeFor(site, orders, branch, employee, slot).Ok?
  }

  ghost predicate SoundRequest(w: World, c: CreateCall) {
    && c.dto.services != [] && c.dto.start >= w.clock && c.dayAllowed && OpenBranch(w.site, c.dto.branch)
    && c.dto.client in w.site.clients && c.dto.vehicle in w.site.vehicles
    && w.site.vehicles[c.dto.vehicle].client == c.dto.client && !w.site.vehicles[c.dto.vehicle].deleted
    && (forall i, j :: 0 <= i < j < |c.dto.services| ==> c.dto.services[i] != c.dto.services[j])
    && forall s :: s in c.dto.services ==> s in w.site.services && w.site.services[s].isActive && !w.site.services[s].deleted
  }

  /** No key, or a well-formed one that no live row holds. */
  predicate KeyIsFree(w: World, key: Option<string>) {
    key.Some? ==> ValidKey(key.value) && (key.value in w.keys ==> w.keys[key.value].expiresAt <= w.clock)
  }

  lemma SoundIsValid(w: World, c: CreateCall)
    ensures SoundRequest(w, c) <==> ValidRequest(w, c.dto, c.dayAllowed)
  {
    assert (forall s :: s in c.dto.services ==> s in w.site.services && w.site.services[s].isActive && !w.site.services[s].deleted)
           <==> forall i | 0 <= i < |c.dto.services| ::
                  c.dto.services[i] in w.site.services && w.site.services[c.dto.services[i]].isActive
                  && !w.site.services[c.dto.services[i]].deleted;
  }

  /** An order is created exactly for a sound request in scope, under no key or a free one, whose resources can be reserved. */
  lemma CreatedIff(w: World, c: CreateCall)
    ensures (CreateOutcome(w, c).Ok? && CreateOutcome(w, c).value.Created?) <==>
            && (c.scope.None? || c.scope.value == c.dto.branch) && KeyIsFree(w, c.key) && SoundRequest(w, c) && c.newId !in w.orders
            && Served(w.site, w.orders, c.dto.branch, c.dto.post, c.dto.employee,
                      Slot(c.dto.start, c.dto.start + DurationSum(w.site, c.dto.services) * 60000, BufferFor(w.site, c.dto.branch), None))
  {
    SoundIsValid(w, c);
    hide SoundRequest, ValidRequest, PostFor, EmployeeFor, ValidKey, DurationSum, PriceSum, BufferFor;
  }

  /** The created row, field by field; it lasts as long and costs as much as its services together, in any listing order. */
  lemma CreatedOrder(w: World, c: CreateCall, listing: seq<Id>) returns (minutes: seq<nat>, cents: seq<nat>)
    requires CreateOutcome(w, c).Ok? && CreateOutcome(w, c).value.Created? && multiset(listing) == multiset(c.dto.services)
    ensures Accumulates(minutes, listing, MinutesOf(w.site)) && Accumulates(cents, listing, CentsOf(w.site))
    ensures var o, n := CreateOutcome(w, c).value.row, |listing|;
            var slot := Slot(c.dto.start, c.dto.start + minutes[n] * 60000, BufferFor(w.site, c.dto.branch), None);
            && o.start == slot.start && o.end == slot.end && o.totalPrice == cents[n] && !o.deleted
            && o.branch == c.dto.branch && o.client == c.dto.client && o.vehicle == c.dto.vehicle
            && o.status == (if c.dto.source == "WEB" then BookedPendingConfirmation else Booked)
            && o.post.Some? && PostFor(w.site, w.orders, o.branch, c.dto.post, slot) == Ok(o.post.value)
            && EmployeeFor(w.site, w.orders, o.branch, c.dto.employee, slot) == Ok(o.employee)
  {
    minutes, cents := SumsAccumulate(w.site, listing);
    SumsPermute(w.site, listing, c.dto.services);
    hide PostFor, EmployeeFor, ValidRequest, DurationSum, PriceSum, BufferFor, Accumulates;
  }

  /** A replay answers exactly a live, complete key row of the same request, whose order is still there in the branch. */
  lemma ReplayedIff(w: World, c: CreateCall, id: Id)
    ensures CreateOutcome(w, c) == Ok(Replayed(id)) <==>
            && (c.scope.None? || c.scope.value == c.dto.branch) && c.key.Some? && ValidKey(c.key.value)
            && c.key.value in w.keys && w.keys[c.key.value].expiresAt > w.clock && w.keys[c.key.value].statusCode > 0
            && w.keys[c.key.value].route == (if c.anonymous.Some? then PublicBookRoute else OrdersRoute)
            && w.keys[c.key.value].body == Some(Envelope(OrderV1, c.actor,
                 if c.anonymous.Some? then PublicIntent(c.anonymous.value) else IntentOf(c.dto), Some(id)))
            && id in w.orders && !w.orders[id].deleted && w.orders[id].branch == c.dto.branch
  {
    hide NewOrder, ValidKey, IntentOf;
  }

  /** Why a fresh request is refused: the first reason that applies. */
  lemma FreshRefusals(w: World, c: CreateCall)
    requires FreshOutcome(w, c).Err?
    ensures var slot := Slot(c.dto.start, c.dto.start + DurationSum(w.site, c.dto.services) * 60000, BufferFor(w.site, c.dto.branch), None);
            FreshOutcome(w, c).error ==
            if !SoundRequest(w, c) then BadRequest
            else if PostFor(w.site, w.orders, c.dto.branch, c.dto.post, slot).Err?
            then PostFor(w.site, w.orders, c.dto.branch, c.dto.post, slot).error
            else if EmployeeFor(w.site, w.orders, c.dto.branch, c.dto.employee, slot).Err? then BadRequest
            else Conflict
  {
    SoundIsValid(w, c);
    hide SoundRequest, ValidRequest, PostFor, DurationSum, PriceSum, BufferFor;
  }

  /** Why a creation is refused before it gets that far: scope and key form, then the row that holds the key. */
  lemma KeyedRefusals(w: World, c: CreateCall)
    requires CreateOutcome(w, c).Err?
    ensures if (c.scope.Some? && c.scope.value != c.dto.branch) || (c.key.Some? && !ValidKey(c.key.value))
            then CreateOutcome(w, c) == Err(BadRequest)
            else if KeyIsFree(w, c.key) then CreateOutcome(w, c) == FreshOutcome(w, c)
            else CreateOutcome(w, c) ==
                 Err(if exists id :: ReplayRequest(w.keys[c.key.value], OrderIdentity(c).value.value) == Ok(Replay(id)) then NotFound
                     else Conflict)
  {
    hide FreshOutcome, ValidKey, SameRequest;
  }

  // ----- Moving -----

  /** The row is there, not deleted, and in the caller's branch. */
  predicate Reachable(w: World, id: Id, scope: Option<Id>) {
    id in w.orders && !w.orders[id].deleted && (scope.Some? ==> w.orders[id].branch == scope.value)
  }

  /**
   * A move is accepted exactly for a reachable booked order with a stored duration, into the future of an
   * open branch, whose wanted post and employee are free there without the order itself.
   */
  lemma MovedIff(w: World, c: RescheduleCall)
    requires ShiftsWellFormed(w.site) && Reachable(w, c.id, c.scope)
    ensures var o := w.orders[c.id];
            var slot := Slot(c.start, c.start + (o.end - o.start), BufferFor(w.site, o.branch), Some(c.id));
            var post := if c.post.Some? then c.post else o.post;
            var employee := if c.employee.Some? then c.employee else o.employee;
            RescheduleOutcome(w, c).Ok? <==>
            && o.status in {Booked, BookedPendingConfirmation} && w.clock <= c.start && o.start < o.end
            && OpenBranch(w.site, o.branch) && c.dayAllowed
            && (post.Some? ==> OpenPost(w.site, o.branch, post.value) && PostClear(w.orders, post.value, slot))
            && (employee.Some? ==> FitWorker(w.site, o.branch, employee.value, slot) && EmployeeClear(w.orders, employee.value, slot))
  {
    var o := w.orders[c.id];
    var slot := MovedSlot(w, c, o);
    var post := if c.post.Some? then c.post else o.post;
    var employee := if c.employee.Some? then c.employee else o.employee;
    if post.Some? {
      NamedPostAnswer(w.site, w.orders, o.branch, post.value, slot);
    }
    if employee.Some? {
      NamedEmployeeAnswer(w.site, w.orders, o.branch, employee.value, slot);
    }
    hide PostFor, EmployeeFor, PostClear, EmployeeClear, FitWorker, OpenPost, BufferFor;
  }

  /** The moved row: the asked start, the stored duration, what is named or else stored; nothing else changes. */
  lemma MovedOrder(w: World, c: RescheduleCall)
    requires RescheduleOutcome(w, c).Ok?
    ensures Reachable(w, c.id, c.scope)
    ensures var o, moved := w.orders[c.id], RescheduleOutcome(w, c).value;
            && moved.start == c.start && moved.end - moved.start == o.end - o.start
            && moved.post == (if c.post.Some? then c.post else o.post)
            && moved.employee == (if c.employee.Some? then c.employee else o.employee)
            && moved.(start := o.start, end := o.end, post := o.post, employee := o.employee) == o
  {
  }

  lemma MoveRefusals(w: World, c: RescheduleCall)
    requires RescheduleOutcome(w, c).Err?
    ensures RescheduleOutcome(w, c) == Err(NotFound) <==> !Reachable(w, c.id, c.scope)
    ensures RescheduleOutcome(w, c) == Err(Conflict) ==>
              var o := w.orders[c.id];
              var post := if c.post.Some? then c.post else o.post;
              && post.Some? && OpenPost(w.site, o.branch, post.value)
              && !PostClear(w.orders, post.value, Slot(c.start, c.start + (o.end - o.start), BufferFor(w.site, o.branch), Some(c.id)))
  {
    if RescheduleOutcome(w, c) == Err(Conflict) {
      var o := w.orders[c.id];
      var post := if c.post.Some? then c.post else o.post;
      if post.Some? {
        NamedPostAnswer(w.site, w.orders, o.branch, post.value, MovedSlot(w, c, o));
      }
      hide PostClear, PostFree;
    }
  }

  // ----- Status, deletion, restoration -----

  /** The transitions by the status they lead to. */
  lemma StatusIsReachedFrom(s: OrderStatus)
    ensures BookedPendingConfirmation !in Transitions(s)
    ensures Booked in Transitions(s) <==> s == BookedPendingConfirmation
    ensures InProgress in Transitions(s) <==> s == Booked
    ensures Completed in Transitions(s) <==> s == InProgress
    ensures NoShow in Transitions(s) <==> s == BookedPendingConfirmation || s == Booked
    ensures Cancelled in Transitions(s) <==> s == BookedPendingConfirmation || s == Booked || s == InProgress
  {
  }

  /** A reachable order takes an allowed status and nothing else; other calls are refused. */
  lemma StatusAnswer(w: World, id: Id, status: OrderStatus, scope: Option<Id>)
    ensures StatusOutcome(w, id, status, scope) == Err(NotFound) <==> !Reachable(w, id, scope)
    ensures StatusOutcome(w, id, status, scope).Ok? <==> Reachable(w, id, scope) && status in Transitions(w.orders[id].status)
    ensures StatusOutcome(w, id, status, scope).Ok? ==>
              StatusOutcome(w, id, status, scope).value.status == status
              && StatusOutcome(w, id, status, scope).value.(status := w.orders[id].status) == w.orders[id]
  {
  }

  /** The timeout leaves no order pending that it is called for, and touches none that is not. */
  lemma TimeoutAnswer(w: World, id: Id)
    ensures var w' := AfterTimeout(w, id);
            && w'.orders.Keys == w.orders.Keys && w'.(orders := w.orders) == w
            && (forall o :: o in w.orders ==>
                  if o == id && w.orders[o].status == BookedPendingConfirmation
                  then w'.orders[o].status == Cancelled && w'.orders[o].(status := BookedPendingConfirmation) == w.orders[o]
                  else w'.orders[o] == w.orders[o])
  {
  }

  /** Deleting and restoring with nothing in between gives the tables back. */
  lemma RestoreUndoesDelete(w: World, id: Id, scope: Option<Id>)
    requires DeleteOutcome(w, id, scope).Ok?
    ensures var w' := AfterUpdate(w, id, DeleteOutcome(w, id, scope));
            && w'.orders[id].deleted && !Visible(w', id, None)
            && (RestoreOutcome(w', id, scope).Ok? ==> AfterRestore(w', id, scope).orders == w.orders)
  {
    var w' := AfterUpdate(w, id, DeleteOutcome(w, id, scope));
    if RestoreOutcome(w', id, scope).Ok? {
      assert RestoreOutcome(w', id, scope).value == w.orders[id];
    }
  }

  lemma DeleteAnswer(w: World, id: Id, scope: Option<Id>)
    ensures DeleteOutcome(w, id, scope) == if Reachable(w, id, scope) then Ok(w.orders[id].(deleted := true)) else Err(NotFound)
  {
  }

  /**
   * A deleted order comes back unchanged, exactly when it is finished and its branch exists, or its branch
   * is open and its stored post and employee, if any, are free in its slot.
   */
  lemma RestoredIff(w: World, id: Id, scope: Option<Id>)
    requires ShiftsWellFormed(w.site) && id in w.orders && (scope.Some? ==> w.orders[id].branch == scope.value)
    ensures var o := w.orders[id];
            var slot := Slot(o.start, o.end, BufferFor(w.site, o.branch), None);
            && (RestoreOutcome(w, id, scope).Ok? <==>
                && o.deleted
                && (if o.status in {Completed, Cancelled, NoShow} then o.branch in w.site.branches
                    else
                      && OpenBranch(w.site, o.branch)
                      && (o.post.Some? ==> OpenPost(w.site, o.branch, o.post.value) && PostClear(w.orders, o.post.value, slot))
                      && (o.employee.Some? ==>
                            FitWorker(w.site, o.branch, o.employee.value, slot) && EmployeeClear(w.orders, o.employee.value, slot))))
            && (RestoreOutcome(w, id, scope).Ok? ==> RestoreOutcome(w, id, scope).value == o.(deleted := false))
            && RestoreOutcome(w, id, scope) != Err(NotFound)
  {
    var o := w.orders[id];
    var slot := Slot(o.start, o.end, BufferFor(w.site, o.branch), None);
    TerminalMeansExcluded(o.status);
    if o.post.Some? {
      NamedPostAnswer(w.site, w.orders, o.branch, o.post.value, slot);
    }
    if o.employee.Some? {
      NamedEmployeeAnswer(w.site, w.orders, o.branch, o.employee.value, slot);
    }
    hide PostFor, EmployeeFor, PostClear, EmployeeClear, FitWorker, OpenPost, BufferFor, Terminal;
  }

  /** An order out of reach is not found; a live one, or one whose resources are gone, is refused. */
  lemma RestoreRefusals(w: World, id: Id, scope: Option<Id>)
    requires RestoreOutcome(w, id, scope).Err?
    ensures RestoreOutcome(w, id, scope) == Err(NotFound) <==>
            id !in w.orders || (scope.Some? && w.orders[id].branch != scope.value)
    ensures RestoreOutcome(w, id, scope) == Err(Conflict) ==>
              var o := w.orders[id];
              o.deleted && o.post.Some? && OpenPost(w.site, o.branch, o.post.value)
              && !PostClear(w.orders, o.post.value, Slot(o.start, o.end, BufferFor(w.site, o.branch), None))
  {
    if RestoreOutcome(w, id, scope) == Err(Conflict) {
      var o := w.orders[id];
      if o.post.Some? {
        NamedPostAnswer(w.site, w.orders, o.branch, o.post.value, Slot(o.start, o.end, BufferFor(w.site, o.branch), None));
      }
      hide PostClear, PostFree, Terminal;
    }
  }

  // ----- Paying -----

  /** A fresh payment is accepted exactly on an unfinished order and, where there is a total, up to that total. */
  lemma PaidIff(w: World, c: PayCall)
    requires Reachable(w, c.order, c.scope) && KeyIsFree(w, c.key)
    requires forall i :: 0 <= i < |w.payments| ==> w.payments[i].id != c.newId
    ensures var o := w.orders[c.order];
            PayOutcome(w, c) ==
            if o.status in {BookedPendingConfirmation, Booked, InProgress}
               && (o.totalPrice == 0 || Paid(w.payments, c.order) + c.amount <= o.totalPrice)
            then Ok(Created(Payment(c.newId, c.order, c.amount))) else Err(BadRequest)
  {
    hide ValidKey;
  }

  /** Settling exactly what is left of an unfinished order is accepted and leaves nothing to pay. */
  lemma SettlingIsAccepted(w: World, c: PayCall)
    requires Reachable(w, c.order, c.scope) && KeyIsFree(w, c.key)
    requires forall i :: 0 <= i < |w.payments| ==> w.payments[i].id != c.newId
    requires !Terminal(w.orders[c.order].status) && Paid(w.payments, c.order) + c.amount == w.orders[c.order].totalPrice
    ensures Paid(AfterPay(w, c).payments, c.order) == w.orders[c.order].totalPrice
  {
    TerminalMeansExcluded(w.orders[c.order].status);
    PaidIff(w, c);
    PaidAfterOneMore(w.payments, Payment(c.newId, c.order, c.amount), c.order);
  }

  /** A replay answers exactly a live, complete key row of the same payment, which is still recorded. */
  lemma PaymentReplayedIff(w: World, c: PayCall, id: Id)
    ensures PayOutcome(w, c) == Ok(Replayed(id)) <==>
            && Reachable(w, c.order, c.scope) && c.key.Some? && ValidKey(c.key.value)
            && c.key.value in w.keys && w.keys[c.key.value].expiresAt > w.clock && w.keys[c.key.value].statusCode > 0
            && w.keys[c.key.value].route == PaymentsRoute(c.order)
            && w.keys[c.key.value].body == Some(Envelope(PaymentV1, Some(c.actor),
                 PaymentIntent(c.amount, c.means, if c.status == "" then "PAID" else c.status, c.reference), Some(id)))
            && exists i :: 0 <= i < |w.payments| && w.payments[i].id == id && w.payments[i].order == c.order
  {
    hide ValidKey;
  }

  lemma PayRefusals(w: World, c: PayCall)
    requires PayOutcome(w, c).Err?
    ensures PayOutcome(w, c).error ==
            if c.key.Some? && !ValidKey(c.key.value) then BadRequest
            else if !Reachable(w, c.order, c.scope) then NotFound
            else if !KeyIsFree(w, c.key) then Conflict
            else if (exists i :: 0 <= i < |w.payments| && w.payments[i].id == c.newId) && w.orders[c.order].status in {BookedPendingConfirmation, Booked, InProgress}
                    && (w.orders[c.order].totalPrice == 0 || Paid(w.payments, c.order) + c.amount <= w.orders[c.order].totalPrice)
            then Conflict
            else BadRequest
  {
    hide ValidKey;
  }

  // ----- Keys -----

  /** Two keyed orders are one request exactly when the same person sends the same thing from the same place. */
  lemma SameOrderIdentityIff(a: CreateCall, b: CreateCall)
    requires a.key.Some? && a.key == b.key && ValidKey(a.key.value)
    ensures OrderIdentity(a) == OrderIdentity(b) <==>
            && a.actor == b.actor && a.anonymous == b.anonymous
            && (a.anonymous.None? ==>
                  && a.dto.(services := [], source := "") == b.dto.(services := [], source := "")
                  && (a.dto.source == b.dto.source || {a.dto.source, b.dto.source} == {"", "INTERNAL"})
                  && multiset(a.dto.services) == multiset(b.dto.services))
  {
    FingerprintIff(a.dto, b.dto);
    assert {a.dto.source, b.dto.source} == {"", "INTERNAL"} ==> a.dto.source in {"", "INTERNAL"} && b.dto.source in {"", "INTERNAL"};
    assert a.dto.source != b.dto.source && SourceOf(a.dto) == SourceOf(b.dto) ==> {a.dto.source, b.dto.source} == {"", "INTERNAL"};
    hide ValidKey, Sort;
  }

  lemma SamePaymentIdentityIff(a: PayCall, b: PayCall)
    requires a.key.Some? && a.key == b.key && ValidKey(a.key.value)
    ensures PaymentIdentity(a) == PaymentIdentity(b) <==>
            && a.order == b.order && a.actor == b.actor && a.amount == b.amount && a.means == b.means && a.reference == b.reference
            && (a.status == b.status || {a.status, b.status} == {"", "PAID"})
  {
    assert {a.status, b.status} == {"", "PAID"} ==> a.status in {"", "PAID"} && b.status in {"", "PAID"};
    hide ValidKey;
  }

  /** A key is held for exactly the day after a creation under it: then, and only then, it can be claimed afresh. */
  lemma FreshAgainIff(w: World, identity: Identity)
    requires KeyDiscipline(w)
    ensures ClaimFor(w.keys, identity, w.clock) == Ok(Fresh) <==>
            forall i :: 0 <= i < |w.history.made| && w.history.made[i].identity.Some?
                        && w.history.made[i].identity.value.key == identity.key ==>
              w.history.made[i].at + 86400000 <= w.clock
  {
    var made := w.history.made;
    if i :| 0 <= i < |made| && made[i].identity.Some? && made[i].identity.value.key == identity.key && w.clock < made[i].at + 86400000 {
      RepeatNeverCreates(w, i, identity);
    } else if identity.key in w.keys {
      var i :| 0 <= i < |made| && IsReceipt(w.keys[identity.key], identity.key, made[i]);
    }
  }

  /** Cleaning up removes the rows that have expired and goes unnoticed by every claim, then and later. */
  lemma CleanupIsInvisible(rows: map<string, Row>, now: int, identity: Identity, later: int)
    requires now <= later
    ensures ClaimFor(RowsAfterCleanup(rows, now), identity, later) == ClaimFor(rows, identity, later)
    ensures forall k :: k in RowsAfterCleanup(rows, now) <==> k in rows && now <= rows[k].expiresAt
  {
  }

  // ----- What every step leaves alone -----

  /** The order that a step may write, if it writes one. */
  function Target(s: Step): Option<Id> {
    match s
    case Create(c) => Some(c.newId)
    case Reschedule(c) => Some(c.id)
    case UpdateStatus(id, _, _) => Some(id)
    case ConfirmationTimeout(id) => Some(id)
    case SoftDelete(id, _) => Some(id)
    case Restore(id, _) => Some(id)
    case _ => None
  }

  /** A step writes at most its own order, never its owner, branch or price; payments are only added, and only by paying. */
  lemma StepKeepsTheRest(w: World, s: Step)
    ensures var w' := Apply(w, s);
            && (forall id :: id in w.orders ==> id in w'.orders && (Target(s) != Some(id) ==> w'.orders[id] == w.orders[id]))
            && (forall id :: id in w'.orders ==> id in w.orders || (s.Create? && id == s.create.newId))
            && (forall id :: id in w.orders ==> SameOwner(w'.orders[id], w.orders[id]))
            && w.payments <= w'.payments && (!s.Pay? ==> w'.payments == w.payments)
            && (!s.Administer? ==> w'.site == w.site)
            && w'.clock == w.clock + (if s.Wait? then s.ms else 0)
  {
    hide ResourcesFor, ValidRequest, ClaimOutcome, PriceSum, DurationSum;
  }

  predicate SameOwner(a: Order, b: Order) {
    a.branch == b.branch && a.client == b.client && a.vehicle == b.vehicle && a.totalPrice == b.totalPrice
  }

  /** A refused or replayed creation or payment changes nothing, and an accepted one stores its row. */
  lemma OutcomesAreStored(w: World, c: CreateCall, p: PayCall, m: RescheduleCall)
    ensures var r, w' := CreateOutcome(w, c), AfterCreate(w, c);
            if r.Ok? && r.value.Created? then w'.orders == w.orders[c.newId := r.value.row] && w'.payments == w.payments else w' == w
    ensures var r, w' := PayOutcome(w, p), AfterPay(w, p);
            if r.Ok? && r.value.Created? then w'.payments == w.payments + [r.value.row] && w'.orders == w.orders else w' == w
    ensures var r, w' := RescheduleOutcome(w, m), AfterReschedule(w, m);
            if r.Ok? then w'.orders == w.orders[m.id := r.value] && w'.keys == w.keys && w'.payments == w.payments else w' == w
  {
    hide CreateOutcome, PayOutcome, RescheduleOutcome;
  }
}
