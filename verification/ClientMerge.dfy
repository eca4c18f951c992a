/** Merging one client into another (`merge` of src/modules/clients/clients.repository.ts). */
module ClientMerge {
  import opened Domain

  /** A plate "" is a missing plate: the code only tests its truth. */
  datatype Vehicle = Vehicle(client: Id, plate: string, deleted: bool)
  datatype Order = Order(client: Id, vehicle: Id)
  datatype Client = Client(profile: string, deleted: bool)

  /** Every order's vehicle belongs to the order's client. */
  predicate Owned(vehicles: map<Id, Vehicle>, orders: map<Id, Order>) {
    forall o :: o in orders ==> orders[o].vehicle in vehicles && vehicles[orders[o].vehicle].client == orders[o].client
  }

  function VehiclesOf(vehicles: map<Id, Vehicle>, client: Id): set<Id> {
    set v | v in vehicles && vehicles[v].client == client
  }

  /** `new Map(targetVehicles.filter(...).map(...))`: the last listed vehicle of a plate wins. */
  function Plates(vehicles: map<Id, Vehicle>, listed: seq<Id>): map<string, Id>
    requires forall v :: v in listed ==> v in vehicles
  {
    if listed == [] then map[]
    else
      var rest, last := Plates(vehicles, listed[..|listed| - 1]), listed[|listed| - 1];
      if vehicles[last].plate == "" then rest else rest[vehicles[last].plate := last]
  }

  lemma {:induction false} PlatesNameListed(vehicles: map<Id, Vehicle>, listed: seq<Id>)
    requires forall v :: v in listed ==> v in vehicles
    ensures forall p :: p in Plates(vehicles, listed) ==>
              p != "" && Plates(vehicles, listed)[p] in listed && vehicles[Plates(vehicles, listed)[p]].plate == p
    ensures forall v :: v in listed && vehicles[v].plate != "" ==> vehicles[v].plate in Plates(vehicles, listed)
  {
    if listed != [] {
      var n := |listed| - 1;
      assert listed == listed[..n] + [listed[n]];
      PlatesNameListed(vehicles, listed[..n]);
    }
  }

  /** Of several vehicles with one plate the last listed one counts; a vehicle without a plate never does. */
  lemma LastListedCounts(vehicles: map<Id, Vehicle>, listed: seq<Id>, v: Id)
    requires v in vehicles && forall x :: x in listed ==> x in vehicles
    ensures forall x :: x in listed + [v] ==> x in vehicles
    ensures Plates(vehicles, listed + [v]) ==
            if vehicles[v].plate == "" then Plates(vehicles, listed) else Plates(vehicles, listed)[vehicles[v].plate := v]
  {
    assert (listed + [v])[..|listed|] == listed;
  }

  /** The target vehicle that a source vehicle is folded into, if its plate is taken. */
  function FoldInto(plates: map<string, Id>, v: Vehicle): Option<Id> {
    if v.plate != "" && v.plate in plates then Some(plates[v.plate]) else None
  }

  function MergedVehicle(plates: map<string, Id>, v: Vehicle, source: Id, target: Id): Vehicle {
    if v.client != source then v
    else if FoldInto(plates, v).Some? then v.(deleted := true)
    else v.(client := target)
  }

  function MergedVehicles(vehicles: map<Id, Vehicle>, plates: map<string, Id>, source: Id, target: Id, done: set<Id>): map<Id, Vehicle> {
    map v | v in vehicles :: if v in done then MergedVehicle(plates, vehicles[v], source, target) else vehicles[v]
  }

  /** Orders of a folded vehicle are re-pointed. */
  function Repointed(vehicles: map<Id, Vehicle>, plates: map<string, Id>, source: Id, done: set<Id>, o: Order): Order {
    if o.vehicle in done && o.vehicle in vehicles && vehicles[o.vehicle].client == source && FoldInto(plates, vehicles[o.vehicle]).Some?
    then o.(vehicle := FoldInto(plates, vehicles[o.vehicle]).value) else o
  }

  function RepointedOrders(vehicles: map<Id, Vehicle>, plates: map<string, Id>, source: Id, done: set<Id>, orders: map<Id, Order>): map<Id, Order> {
    map o | o in orders :: Repointed(vehicles, plates, source, done, orders[o])
  }

  function Reassigned(orders: map<Id, Order>, source: Id, target: Id): map<Id, Order> {
    map o | o in orders :: if orders[o].client == source then orders[o].(client := target) else orders[o]
  }

  class ClientTables {
    var vehicles: map<Id, Vehicle>
    var orders: map<Id, Order>
    var clients: map<Id, Client>

    method UpdateOrdersOfVehicle(vehicle: Id, keeper: Id)
      modifies this`orders
      ensures orders == map o | o in old(orders) ::
                          if old(orders)[o].vehicle == vehicle then old(orders)[o].(vehicle := keeper) else old(orders)[o]
    {
      orders := map o | o in orders :: if orders[o].vehicle == vehicle then orders[o].(vehicle := keeper) else orders[o];
    }

    /** The loop over the source's vehicles. */
    method FoldVehicles(source: Id, target: Id, sourceVehicles: seq<Id>, plates: map<string, Id>)
      requires source != target && Enumerates(sourceVehicles, VehiclesOf(vehicles, source))
      requires forall p :: p in plates ==> plates[p] in vehicles && vehicles[plates[p]].client == target
      modifies this`orders, this`vehicles
      ensures vehicles == MergedVehicles(old(vehicles), plates, source, target, old(VehiclesOf(vehicles, source)))
      ensures orders == RepointedOrders(old(vehicles), plates, source, old(VehiclesOf(vehicles, source)), old(orders))
    {
      ghost var before, ordersBefore := vehicles, orders;
      ghost var done: set<Id> := {};
      for i := 0 to |sourceVehicles|
        invariant done == set j | 0 <= j < i :: sourceVehicles[j]
        invariant vehicles == MergedVehicles(before, plates, source, target, done)
        invariant orders == RepointedOrders(before, plates, source, done, ordersBefore)
      {
        var v := sourceVehicles[i];
        assert v in sourceVehicles && v !in done && vehicles[v] == before[v];
        var duplicate := FoldInto(plates, vehicles[v]);
        if duplicate.Some? {
          FoldStep(before, plates, source, target, done, ordersBefore, v);
          UpdateOrdersOfVehicle(v, duplicate.value);
          vehicles := vehicles[v := vehicles[v].(deleted := true)];
        } else {
          MoveStep(before, plates, source, done, ordersBefore, v);
          vehicles := vehicles[v := vehicles[v].(client := target)];
        }
        done := done + {v};
      }
      assert done == VehiclesOf(before, source) by {
        forall v | v in VehiclesOf(before, source) ensures v in done { assert v in sourceVehicles; }
        forall v | v in done ensures v in VehiclesOf(before, source) { assert v in sourceVehicles; }
      }
    }

    method PlateMap(targetVehicles: seq<Id>) returns (plates: map<string, Id>)
      requires forall v :: v in targetVehicles ==> v in vehicles
      ensures plates == Plates(vehicles, targetVehicles)
    {
      plates := map[];
      for i := 0 to |targetVehicles|
        invariant plates == Plates(vehicles, targetVehicles[..i])
      {
        assert targetVehicles[..i + 1][..i] == targetVehicles[..i];
        assert targetVehicles[i] in targetVehicles;
        var v := vehicles[targetVehicles[i]];
        if v.plate != "" {
          plates := plates[v.plate := targetVehicles[i]];
        }
      }
      assert targetVehicles[..|targetVehicles|] == targetVehicles;
    }

    /** The two vehicle lists are what the queries return, soft-deleted vehicles included. */
    method Merge(source: Id, target: Id, overrides: string, sourceVehicles: seq<Id>, targetVehicles: seq<Id>)
      requires source in clients && target in clients && source != target
      requires Enumerates(sourceVehicles, VehiclesOf(vehicles, source))
      requires Enumerates(targetVehicles, VehiclesOf(vehicles, target))
      modifies this
      ensures var plates := Plates(old(vehicles), targetVehicles);
              && vehicles == MergedVehicles(old(vehicles), plates, source, target, VehiclesOf(old(vehicles), source))
              && orders == Reassigned(RepointedOrders(old(vehicles), plates, source, VehiclesOf(old(vehicles), source), old(orders)), source, target)
      ensures clients == old(clients)[target := old(clients)[target].(profile := overrides)]
                                     [source := old(clients)[source].(deleted := true)]
    {
      var plates := PlateMap(targetVehicles);
      PlatesNameListed(vehicles, targetVehicles);
      FoldVehicles(source, target, sourceVehicles, plates);
      orders := map o | o in orders :: if orders[o].client == source then orders[o].(client := target) else orders[o];
      clients := clients[target := clients[target].(profile := overrides)];
      clients := clients[source := clients[source].(deleted := true)];
    }
  }

  lemma FoldStep(before: map<Id, Vehicle>, plates: map<string, Id>, source: Id, target: Id, done: set<Id>, orders: map<Id, Order>, v: Id)
    requires v in before && before[v].client == source && v !in done && FoldInto(plates, before[v]).Some? && source != target
    requires forall p :: p in plates ==> plates[p] in before && before[plates[p]].client == target
    ensures var now := RepointedOrders(before, plates, source, done, orders);
            var keeper := FoldInto(plates, before[v]).value;
            (map o | o in now :: if now[o].vehicle == v then now[o].(vehicle := keeper) else now[o])
            == RepointedOrders(before, plates, source, done + {v}, orders)
  {
  }

  lemma MoveStep(before: map<Id, Vehicle>, plates: map<string, Id>, source: Id, done: set<Id>, orders: map<Id, Order>, v: Id)
    requires v in before && FoldInto(plates, before[v]).None?
    ensures RepointedOrders(before, plates, source, done + {v}, orders) == RepointedOrders(before, plates, source, done, orders)
  {
  }

  // ----- What a merge keeps -----

  /** The tables after merging `source` into `target`. */
  function AllMergedVehicles(vehicles: map<Id, Vehicle>, plates: map<string, Id>, source: Id, target: Id): map<Id, Vehicle> {
    MergedVehicles(vehicles, plates, source, target, VehiclesOf(vehicles, source))
  }

  function AllMergedOrders(vehicles: map<Id, Vehicle>, plates: map<string, Id>, source: Id, target: Id, orders: map<Id, Order>): map<Id, Order> {
    Reassigned(RepointedOrders(vehicles, plates, source, VehiclesOf(vehicles, source), orders), source, target)
  }

  /** Where a merge leaves one order: its vehicle, if folded, is replaced by the target's vehicle of that plate. */
  lemma MergedOrder(vehicles: map<Id, Vehicle>, orders: map<Id, Order>, source: Id, target: Id, listed: seq<Id>, o: Id)
    requires Owned(vehicles, orders) && source != target && Enumerates(listed, VehiclesOf(vehicles, target)) && o in orders
    ensures var plates := Plates(vehicles, listed);
            var vehicles', order := AllMergedVehicles(vehicles, plates, source, target), AllMergedOrders(vehicles, plates, source, target, orders)[o];
            && order.client == (if orders[o].client == source then target else orders[o].client)
            && order.vehicle in vehicles' && vehicles'[order.vehicle].client == order.client
            && vehicles'[order.vehicle].plate == vehicles[orders[o].vehicle].plate
            && !(order.vehicle in VehiclesOf(vehicles, source) && FoldInto(plates, vehicles[order.vehicle]).Some?)
  {
    PlatesNameListed(vehicles, listed);
    var plates, v := Plates(vehicles, listed), vehicles[orders[o].vehicle];
    if v.plate in plates {
      assert plates[v.plate] in listed;
    }
  }

  /**
   * Ownership is kept, and so is the plate of every order's vehicle; the order set is unchanged and
   * no order is left with the source or with a folded vehicle.
   */
  lemma MergeKeepsOwnership(vehicles: map<Id, Vehicle>, orders: map<Id, Order>, source: Id, target: Id, listed: seq<Id>)
    requires Owned(vehicles, orders) && source != target && Enumerates(listed, VehiclesOf(vehicles, target))
    ensures var plates := Plates(vehicles, listed);
            var vehicles', orders' := AllMergedVehicles(vehicles, plates, source, target), AllMergedOrders(vehicles, plates, source, target, orders);
            && Owned(vehicles', orders') && orders'.Keys == orders.Keys
            && (forall o :: o in orders ==> vehicles'[orders'[o].vehicle].plate == vehicles[orders[o].vehicle].plate)
            && (forall o :: o in orders ==> orders'[o].client == if orders[o].client == source then target else orders[o].client)
            && (forall v :: v in VehiclesOf(vehicles, source) ==>
                  || vehicles'[v] == vehicles[v].(client := target)
                  || (vehicles'[v] == vehicles[v].(deleted := true) && forall o :: o in orders' ==> orders'[o].vehicle != v))
  {
    var plates := Plates(vehicles, listed);
    var vehicles', orders' := AllMergedVehicles(vehicles, plates, source, target), AllMergedOrders(vehicles, plates, source, target, orders);
    assert forall v :: v in VehiclesOf(vehicles, source) ==>
             vehicles'[v] == if FoldInto(plates, vehicles[v]).Some? then vehicles[v].(deleted := true) else vehicles[v].(client := target);
    assert orders'.Keys == orders.Keys;
    hide AllMergedVehicles, AllMergedOrders, FoldInto, Plates;
    forall o | o in orders
      ensures orders'[o].client == if orders[o].client == source then target else orders[o].client
      ensures orders'[o].vehicle in vehicles' && vehicles'[orders'[o].vehicle].client == orders'[o].client
      ensures vehicles'[orders'[o].vehicle].plate == vehicles[orders[o].vehicle].plate
      ensures !(orders'[o].vehicle in VehiclesOf(vehicles, source) && FoldInto(plates, vehicles[orders'[o].vehicle]).Some?)
    {
      MergedOrder(vehicles, orders, source, target, listed, o);
    }
  }

  /**
   * The plate map also lists soft-deleted target vehicles, so an order's live vehicle can be replaced
   * by a deleted one: exactly when it is folded into a vehicle of the target that is deleted.
   */
  lemma LiveVehicleLostIff(vehicles: map<Id, Vehicle>, orders: map<Id, Order>, source: Id, target: Id, listed: seq<Id>, o: Id)
    requires Owned(vehicles, orders) && source != target && Enumerates(listed, VehiclesOf(vehicles, target))
    requires o in orders && !vehicles[orders[o].vehicle].deleted
    ensures var plates := Plates(vehicles, listed);
            var orders' := AllMergedOrders(vehicles, plates, source, target, orders);
            orders'[o].vehicle in vehicles &&
            (AllMergedVehicles(vehicles, plates, source, target)[orders'[o].vehicle].deleted <==>
             var plate := vehicles[orders[o].vehicle].plate;
             orders[o].client == source && plate in plates && plates[plate] in vehicles && vehicles[plates[plate]].deleted)
  {
    PlatesNameListed(vehicles, listed);
    var plates, v := Plates(vehicles, listed), vehicles[orders[o].vehicle];
    if v.plate in plates {
      assert plates[v.plate] in listed;
    }
  }

  /** Client 1 drives vehicle 3; client 2 once had a vehicle of that plate, vehicle 4, now deleted. */
  function TwoClients(): map<Id, Vehicle> {
    map[Id(3) := Vehicle(Id(1), "AB-123", false), Id(4) := Vehicle(Id(2), "AB-123", true)]
  }

  /** A concrete merge that moves an order from a live vehicle to a deleted one. */
  lemma LiveVehicleIsLost()
    ensures var vehicles, orders, plates := TwoClients(), map[Id(5) := Order(Id(1), Id(3))], Plates(TwoClients(), [Id(4)]);
            && Owned(vehicles, orders) && Enumerates([Id(4)], VehiclesOf(vehicles, Id(2)))
            && !vehicles[orders[Id(5)].vehicle].deleted
            && AllMergedOrders(vehicles, plates, Id(1), Id(2), orders)[Id(5)] == Order(Id(2), Id(4))
            && AllMergedVehicles(vehicles, plates, Id(1), Id(2)) == vehicles[Id(3) := Vehicle(Id(1), "AB-123", true)]
            && vehicles[Id(4)].deleted
  {
    assert [Id(4)][..0] == [] && Plates(TwoClients(), [Id(4)]) == map["AB-123" := Id(4)];
    assert VehiclesOf(TwoClients(), Id(2)) == {Id(4)} && VehiclesOf(TwoClients(), Id(1)) == {Id(3)};
  }
}
