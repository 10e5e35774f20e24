/** The event-sourced Warehouse aggregate: three maps updated in place by
    the per-event handlers, replay and publishing (the AggregateRoot part),
    and the four command handlers. Every method is proved to do exactly
    what the matching function of WarehouseModel says; `published` is the
    event sink's log, to which each publish call appends its events. */
module Aggregate {
  import opened Optional
  import opened Exceptions
  import opened Ledgers
  import opened Events
  import opened Commands
  import opened Locations
  import opened WarehouseModel
  import ReplayFacts

  class Warehouse {
    var quantityByBatchId: map<int, int>
    var locationByLocationId: map<int, Location>
    var batchesById: map<int, Batch>

    /** Every event handed to the event sink so far, in order. */
    ghost var published: seq<Event>

    /** Each location is stored under its own id, so two ids never share a
        Location object. */
    ghost predicate Valid()
      reads this
    {
      forall id :: id in locationByLocationId ==> locationByLocationId[id].id == id
    }

    /** The aggregate's state as a value. */
    ghost function View(): State
      reads this, locationByLocationId.Values
    {
      State(quantityByBatchId,
            map id | id in locationByLocationId ::
              LocationState(locationByLocationId[id].name, locationByLocationId[id].quantityByBatchId),
            batchesById)
    }

    /** The call behaved as `step` says, starting from the sink log `before`. */
    ghost predicate Took(step: Step, r: Option<Exception>, before: seq<Event>)
      reads this, locationByLocationId.Values
    {
      View() == step.state && published == before + step.published && r == step.failure
    }

    /** An empty warehouse; nothing is published. */
    constructor ()
      ensures Valid() && View() == Empty() && published == []
      ensures locationByLocationId == map[]
    {
      quantityByBatchId := map[];
      locationByLocationId := map[];
      batchesById := map[];
      published := [];
    }

    /** The replaying constructor: an empty warehouse, then every event
        handled in order; nothing is published. When `r` is an exception
        the C# constructor throws and the object is never seen. */
    static method Replaying(events: seq<Event>) returns (w: Warehouse, r: Option<Exception>)
      ensures fresh(w) && w.Valid() && w.published == []
      ensures Run(w.View(), r) == Replay(Empty(), events)
    {
      w := new Warehouse();
      r := w.HandleAll(events);
    }

    method HandleAddedBatch(batchId: int, quantity: int)
      requires Valid()
      modifies this
      ensures Valid() && locationByLocationId == old(locationByLocationId) && published == old(published)
      ensures Run(View(), None) == Attempt(old(View()), AddedBatch(batchId, quantity))
    {
      if batchId in quantityByBatchId {
        var quantityInWarehouse := quantityByBatchId[batchId];
        quantityByBatchId := quantityByBatchId[batchId := quantityInWarehouse + quantity];
      } else {
        quantityByBatchId := quantityByBatchId[batchId := quantity];
      }
    }

    /** As written: an over-removal first stores the negative difference,
        and then the entry is removed in every case. */
    method HandleRemovedBatch(batchId: int, quantity: int) returns (r: Option<Exception>)
      requires Valid()
      modifies this
      ensures Valid() && locationByLocationId == old(locationByLocationId) && published == old(published)
      ensures Run(View(), r) == Attempt(old(View()), RemovedBatch(batchId, quantity))
    {
      if batchId !in quantityByBatchId {
        return Some(KeyNotFound);
      }
      var quantityInWarehouse := quantityByBatchId[batchId];
      if quantity > quantityInWarehouse {
        quantityInWarehouse := quantityInWarehouse - quantity;
        quantityByBatchId := quantityByBatchId[batchId := quantityInWarehouse];
      }
      quantityByBatchId := quantityByBatchId - {batchId};
      r := None;
    }

    method HandleCreatedLocation(locationId: int, name: string) returns (r: Option<Exception>)
      requires Valid()
      modifies this
      ensures Valid() && fresh(locationByLocationId.Values - old(locationByLocationId.Values))
      ensures published == old(published)
      ensures Run(View(), r) == Attempt(old(View()), CreatedLocation(locationId, name))
    {
      if locationId in locationByLocationId {
        return Some(DuplicateKey);
      }
      var location := new Location(locationId, name);
      locationByLocationId := locationByLocationId[location.id := location];
      r := None;
    }

    method HandleAddedBatchToLocation(locationId: int, batchId: int, quantity: int)
      returns (r: Option<Exception>)
      requires Valid()
      modifies locationByLocationId.Values
      ensures Valid() && published == old(published)
      ensures Run(View(), r) == Attempt(old(View()), AddedBatchToLocation(locationId, batchId, quantity))
    {
      if locationId !in locationByLocationId {
        return Some(KeyNotFound);
      }
      var location := locationByLocationId[locationId];
      assert forall k :: k in locationByLocationId && k != locationId ==> locationByLocationId[k] != location;
      location.AddBatch(batchId, quantity);
      assert View().locationByLocationId == old(View()).locationByLocationId[locationId :=
        LocationState(location.name, location.quantityByBatchId)];
      r := None;
    }

    method HandleRemovedBatchFromLocation(locationId: int, batchId: int, quantity: int)
      returns (r: Option<Exception>)
      requires Valid()
      modifies locationByLocationId.Values
      ensures Valid() && published == old(published)
      ensures Run(View(), r) == Attempt(old(View()), RemovedBatchFromLocation(locationId, batchId, quantity))
    {
      if locationId !in locationByLocationId {
        return Some(KeyNotFound);
      }
      var location := locationByLocationId[locationId];
      assert forall k :: k in locationByLocationId && k != locationId ==> locationByLocationId[k] != location;
      r := location.RemoveBatch(batchId, quantity);
      assert View().locationByLocationId == old(View()).locationByLocationId[locationId :=
        LocationState(location.name, location.quantityByBatchId)];
    }

    method HandleRegisteredBatch(batchId: int, name: string, isPharma: bool) returns (r: Option<Exception>)
      requires Valid()
      modifies this
      ensures Valid() && locationByLocationId == old(locationByLocationId) && published == old(published)
      ensures Run(View(), r) == Attempt(old(View()), RegisteredBatch(batchId, name, isPharma))
    {
      if batchId in batchesById {
        return Some(DuplicateKey);
      }
      batchesById := batchesById[batchId := Batch(name, isPharma)];
      r := None;
    }

    /** `Handle(Event)`: each event kind goes to its own handler. */
    method Handle(e: Event) returns (r: Option<Exception>)
      requires Valid()
      modifies this, locationByLocationId.Values
      ensures Valid() && fresh(locationByLocationId.Values - old(locationByLocationId.Values))
      ensures published == old(published)
      ensures Run(View(), r) == Attempt(old(View()), e)
    {
      match e {
        case AddedBatch(b, q) =>
          HandleAddedBatch(b, q);
          r := None;
        case RemovedBatch(b, q) =>
          r := HandleRemovedBatch(b, q);
        case CreatedLocation(id, name) =>
          r := HandleCreatedLocation(id, name);
        case AddedBatchToLocation(id, b, q) =>
          r := HandleAddedBatchToLocation(id, b, q);
        case RemovedBatchFromLocation(id, b, q) =>
          r := HandleRemovedBatchFromLocation(id, b, q);
        case RegisteredBatch(b, name, isPharma) =>
          r := HandleRegisteredBatch(b, name, isPharma);
      }
    }

    /** `Handle(events)`: handle each event in order; an exception stops
        the loop with the earlier events already applied. */
    method HandleAll(events: seq<Event>) returns (r: Option<Exception>)
      requires Valid()
      modifies this, locationByLocationId.Values
      ensures Valid() && fresh(locationByLocationId.Values - old(locationByLocationId.Values))
      ensures published == old(published)
      ensures Run(View(), r) == Replay(old(View()), events)
    {
      var i := 0;
      while i < |events|
        invariant 0 <= i <= |events|
        invariant Valid() && fresh(locationByLocationId.Values - old(locationByLocationId.Values))
        invariant published == old(published)
        invariant Replay(old(View()), events[..i]) == Run(View(), None)
      {
        ghost var before := View();
        r := Handle(events[i]);
        ReplayFacts.ReplayAppend(old(View()), events[..i], [events[i]]);
        ReplayFacts.ReplaySingle(before, events[i]);
        assert events[..i] + [events[i]] == events[..i + 1];
        if r.Some? {
          ReplayFacts.ReplayStopsAtFailure(old(View()), events, i + 1);
          return;
        }
        i := i + 1;
      }
      assert events[..i] == events;
      r := None;
    }

    /** `HandleAndPublish(evt)`: handle it, then publish `[evt]`. */
    method HandleAndPublish(e: Event) returns (r: Option<Exception>)
      requires Valid()
      modifies this, locationByLocationId.Values
      ensures Valid() && fresh(locationByLocationId.Values - old(locationByLocationId.Values))
      ensures Took(Publish(old(View()), e), r, old(published))
    {
      r := Handle(e);
      if r.None? {
        published := published + [e];
      }
    }

    /** `HandleAndPublish(events)`: handle all of them, then one publish
        call with the whole list. */
    method HandleAndPublishAll(events: seq<Event>) returns (r: Option<Exception>)
      requires Valid()
      modifies this, locationByLocationId.Values
      ensures Valid() && fresh(locationByLocationId.Values - old(locationByLocationId.Values))
      ensures Took(PublishAll(old(View()), events), r, old(published))
    {
      r := HandleAll(events);
      if r.None? {
        published := published + events;
      }
    }

    /** `Values.First(l => l.Name == name)`, its id: some location with
        that name, in no particular order, or None when there is none. */
    method FindLocation(name: string) returns (site: Option<int>)
      ensures Located(View(), name, site)
    {
      var ids := locationByLocationId.Keys;
      while ids != {}
        invariant ids <= locationByLocationId.Keys
        invariant forall id :: id in locationByLocationId && id !in ids ==> locationByLocationId[id].name != name
        decreases ids
      {
        // bound only so that the `:|` below has a witness; not used by name
        ghost var member := SomeMember(ids);
        var candidate :| candidate in ids;
        if locationByLocationId[candidate].name == name {
          return Some(candidate);
        }
        ids := ids - {candidate};
      }
      return None;
    }

    method ReceiveBatch(batchId: int, quantity: int) returns (r: Option<Exception>, ghost site: Option<int>)
      requires Valid()
      modifies this, locationByLocationId.Values
      ensures Valid() && fresh(locationByLocationId.Values - old(locationByLocationId.Values))
      ensures quantity > 0 && batchId > 0 ==> Located(old(View()), "Receive", site)
      ensures Took(Receive(old(View()), batchId, quantity, site), r, old(published))
    {
      site := None;
      if quantity <= 0 {
        return Some(OutOfRange(Quantity)), site;
      }
      if batchId <= 0 {
        return Some(OutOfRange(BatchId)), site;
      }
      var found := FindLocation("Receive");
      site := found;
      if found.None? {
        return Some(InvalidOperation(NoLocationNamed("Receive"))), site;
      }
      var receiveLocation := locationByLocationId[found.value];
      r := HandleAndPublish(AddedBatch(batchId, quantity));
      if r.Some? {
        return;
      }
      r := HandleAndPublish(AddedBatchToLocation(receiveLocation.id, batchId, quantity));
    }

    method ShipBatch(batchId: int, quantity: int) returns (r: Option<Exception>, ghost site: Option<int>)
      requires Valid()
      modifies this, locationByLocationId.Values
      ensures Valid() && fresh(locationByLocationId.Values - old(locationByLocationId.Values))
      ensures quantity > 0 && batchId > 0 ==> Located(old(View()), "Ship", site)
      ensures Took(Ship(old(View()), batchId, quantity, site), r, old(published))
    {
      site := None;
      if quantity <= 0 {
        return Some(OutOfRange(Quantity)), site;
      }
      if batchId <= 0 {
        return Some(OutOfRange(BatchId)), site;
      }
      var found := FindLocation("Ship");
      site := found;
      if found.None? {
        return Some(InvalidOperation(NoLocationNamed("Ship"))), site;
      }
      var shipLocation := locationByLocationId[found.value];
      var quantityOnLocation := shipLocation.QuantityOfBatch(batchId);
      if quantityOnLocation < quantity {
        return Some(InvalidOperation(NotEnough(quantity, quantityOnLocation))), site;
      }
      r := HandleAndPublish(RemovedBatchFromLocation(shipLocation.id, batchId, quantity));
      if r.Some? {
        return;
      }
      r := HandleAndPublish(RemovedBatch(batchId, quantity));
    }

    method MoveBatch(batchId: int, quantity: int, fromLocationId: int, toLocationId: int)
      returns (r: Option<Exception>)
      requires Valid()
      modifies this, locationByLocationId.Values
      ensures Valid() && fresh(locationByLocationId.Values - old(locationByLocationId.Values))
      ensures Took(Move(old(View()), batchId, quantity, fromLocationId, toLocationId), r, old(published))
    {
      if quantity <= 0 {
        return Some(OutOfRange(Quantity));
      }
      if batchId <= 0 {
        return Some(OutOfRange(BatchId));
      }
      if fromLocationId <= 0 {
        return Some(OutOfRange(FromLocationId));
      }
      if toLocationId <= 0 {
        return Some(OutOfRange(ToLocationId));
      }
      if batchId !in batchesById {
        return Some(KeyNotFound);
      }
      var batch := batchesById[batchId];
      if batch.isPharma {
        if toLocationId !in locationByLocationId {
          return Some(KeyNotFound);
        }
        var toLocation := locationByLocationId[toLocationId];
        if !toLocation.IsEmpty() {
          return Some(InvalidOperation(PharmaIntoNonEmpty));
        }
      }
      r := HandleAndPublish(RemovedBatchFromLocation(fromLocationId, batchId, quantity));
      if r.Some? {
        return;
      }
      r := HandleAndPublish(AddedBatchToLocation(toLocationId, batchId, quantity));
    }

    /** Validates every component against the Assemble location before
        building the list, then hands the whole list to one
        `HandleAndPublish`. */
    method AssembleBatch(order: Option<AssembleOrder>) returns (r: Option<Exception>, ghost site: Option<int>)
      requires Valid()
      modifies this, locationByLocationId.Values
      ensures Valid() && fresh(locationByLocationId.Values - old(locationByLocationId.Values))
      ensures order.Some? && order.value.quantity > 0 && order.value.batchId > 0 && order.value.from.Some?
              ==> Located(old(View()), "Assemble", site)
      ensures Took(Assemble(old(View()), order, site), r, old(published))
    {
      site := None;
      if order.None? {
        return Some(NullArgument), site;
      }
      var o := order.value;
      if o.quantity <= 0 {
        return Some(OutOfRange(Quantity)), site;
      }
      if o.batchId <= 0 {
        return Some(OutOfRange(BatchId)), site;
      }
      if o.from.None? {
        return Some(NullArgument), site;
      }
      var found := FindLocation("Assemble");
      site := found;
      if found.None? {
        return Some(InvalidOperation(NoLocationNamed("Assemble"))), site;
      }
      var assembleLocation := locationByLocationId[found.value];
      var from := o.from.value;
      var events: seq<Event> := [];
      var i := 0;
      while i < |from|
        invariant 0 <= i <= |from|
        invariant Shortfall(View(), assembleLocation.id, from[..i], o.quantity).None?
        invariant events == Components(assembleLocation.id, from[..i], o.quantity)
      {
        assert from[..i + 1][..i] == from[..i];
        if from[i].None? {
          ShortfallFirst(View(), assembleLocation.id, from, o.quantity, i + 1);
          return Some(NullReference), site;
        }
        var source := from[i].value;
        var requiredQuantity := source.quantity * o.quantity;
        var quantityOnLocation := assembleLocation.QuantityOfBatch(source.batchId);
        if quantityOnLocation < requiredQuantity {
          ShortfallFirst(View(), assembleLocation.id, from, o.quantity, i + 1);
          return Some(InvalidOperation(NotEnough(requiredQuantity, quantityOnLocation))), site;
        }
        events := events + [RemovedBatchFromLocation(assembleLocation.id, source.batchId, requiredQuantity),
                            RemovedBatch(source.batchId, requiredQuantity)];
        i := i + 1;
      }
      assert from[..i] == from;
      events := events + [AddedBatch(o.batchId, o.quantity),
                          AddedBatchToLocation(assembleLocation.id, o.batchId, o.quantity)];
      r := HandleAndPublishAll(events);
    }

    /** `Execute(cmd)`: the four handled kinds; null and every other kind
        of command change nothing. */
    method Execute(cmd: Option<Command>) returns (r: Option<Exception>, ghost site: Option<int>)
      requires Valid()
      modifies this, locationByLocationId.Values
      ensures Valid() && fresh(locationByLocationId.Values - old(locationByLocationId.Values))
      ensures cmd.Some? && Lookup(cmd.value).Some? ==> Located(old(View()), Lookup(cmd.value).value, site)
      ensures Took(Dispatch(old(View()), cmd, site), r, old(published))
    {
      site := None;
      r := None;
      match cmd {
        case None =>
        case Some(ReceiveCommand(c)) =>
          r, site := ReceiveBatch(c.batchId, c.quantity);
        case Some(ShipCommand(c)) =>
          r, site := ShipBatch(c.batchId, c.quantity);
        case Some(AssembleCommand(o)) =>
          r, site := AssembleBatch(Some(o));
        case Some(MoveCommand(c)) =>
          r := MoveBatch(c.batchId, c.quantity, c.fromLocationId, c.toLocationId);
        case Some(OtherCommand) =>
      }
    }
  }

  /** A non-empty set has a member. */
  lemma SomeMember(ids: set<int>) returns (x: int)
    requires ids != {}
    ensures x in ids
  {
    if forall y :: y !in ids {
      assert false;
    }
    x :| x in ids;
  }
}
