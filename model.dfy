/** The warehouse as a value: the three maps of the aggregate, what one
    event does to them, replay as a left fold, and what each command does
    (its final state, the events it hands to the sink, and the exception
    it throws, if any). The class in module Aggregate is proved to behave
    exactly like these functions. */
module WarehouseModel {
  import opened Optional
  import opened Exceptions
  import opened Ledgers
  import opened Events
  import opened Commands

  /** A registered batch; `isPharma` is fixed when it is registered. */
  datatype Batch = Batch(name: string, isPharma: bool)

  /** The observable part of a Location object. */
  datatype LocationState = LocationState(name: string, quantityByBatchId: map<int, int>)

  datatype State = State(
    quantityByBatchId: map<int, int>,               // warehouse total per batch
    locationByLocationId: map<int, LocationState>,
    batchesById: map<int, Batch>)

  function Empty(): State {
    State(map[], map[], map[])
  }

  /** The state reached and the exception that stopped the run, if any. */
  datatype Run = Run(state: State, failure: Option<Exception>)

  /** Applying one event, as the per-event `Handle` overloads do. */
  function Attempt(s: State, e: Event): (r: Run)
    ensures r.failure.Some? ==> r.state == s
  {
    match e
    case AddedBatch(b, q) =>
      var total := if b in s.quantityByBatchId then s.quantityByBatchId[b] else 0;
      Run(s.(quantityByBatchId := s.quantityByBatchId[b := total + q]), None)
    case RemovedBatch(b, _) =>
      if b in s.quantityByBatchId then Run(s.(quantityByBatchId := s.quantityByBatchId - {b}), None)
      else Run(s, Some(KeyNotFound))
    case CreatedLocation(id, name) =>
      if id in s.locationByLocationId then Run(s, Some(DuplicateKey))
      else Run(s.(locationByLocationId := s.locationByLocationId[id := LocationState(name, map[])]), None)
    case AddedBatchToLocation(id, b, q) =>
      if id !in s.locationByLocationId then Run(s, Some(KeyNotFound))
      else
        var location := s.locationByLocationId[id];
        var updated := location.(quantityByBatchId := Added(location.quantityByBatchId, b, q));
        Run(s.(locationByLocationId := s.locationByLocationId[id := updated]), None)
    case RemovedBatchFromLocation(id, b, q) =>
      if id !in s.locationByLocationId || b !in s.locationByLocationId[id].quantityByBatchId then
        Run(s, Some(KeyNotFound))
      else
        var location := s.locationByLocationId[id];
        var updated := location.(quantityByBatchId := Removed(location.quantityByBatchId, b, q));
        Run(s.(locationByLocationId := s.locationByLocationId[id := updated]), None)
    case RegisteredBatch(b, name, isPharma) =>
      if b in s.batchesById then Run(s, Some(DuplicateKey))
      else Run(s.(batchesById := s.batchesById[b := Batch(name, isPharma)]), None)
  }

  /** Replaying events in order; the first exception ends the run. */
  function Replay(s: State, events: seq<Event>): Run
    decreases |events|
  {
    if events == [] then Run(s, None)
    else
      var first := Attempt(s, events[0]);
      if first.failure.Some? then first else Replay(first.state, events[1..])
  }

  /** The outcome of a command: final state, events handed to the sink by
      this call (in order), and the exception it ends with, if any. */
  datatype Step = Step(state: State, published: seq<Event>, failure: Option<Exception>)

  /** A command rejected before any event. */
  function Fail(s: State, x: Exception): Step {
    Step(s, [], Some(x))
  }

  /** `HandleAndPublish(evt)`: apply, then publish `[evt]`; an event that
      throws is neither applied nor published. */
  function Publish(s: State, e: Event): (r: Step)
    ensures r.failure.Some? ==> r.state == s && r.published == []
    ensures r.failure.None? ==> r.published == [e]
  {
    var run := Attempt(s, e);
    Step(run.state, if run.failure.None? then [e] else [], run.failure)
  }

  /** `HandleAndPublish(events)`: apply all, then publish the whole list
      once; if any event throws, nothing is published. */
  function PublishAll(s: State, events: seq<Event>): (r: Step)
    ensures r.published == if r.failure.None? then events else []
    ensures r.failure.None? ==> Replay(s, events).state == r.state
  {
    var run := Replay(s, events);
    Step(run.state, if run.failure.None? then events else [], run.failure)
  }

  /** A further `HandleAndPublish(evt)`, reached only if nothing was thrown
      so far: it keeps what was published and adds at most `e`. */
  function Then(step: Step, e: Event): (r: Step)
    ensures step.failure.Some? ==> r == step
    ensures r.published == step.published || r.published == step.published + [e]
  {
    if step.failure.Some? then step
    else
      var next := Publish(step.state, e);
      Step(next.state, step.published + next.published, next.failure)
  }

  /** What `QuantityOfBatch` answers at a location (0 if the location is unknown). */
  function Holding(s: State, locationId: int, batchId: int): int {
    if locationId in s.locationByLocationId then
      QuantityOf(s.locationByLocationId[locationId].quantityByBatchId, batchId)
    else 0
  }

  /** `site` is an admissible answer of `Values.First(l => l.Name == name)`:
      some location with that name, or None when there is none. */
  predicate Located(s: State, name: string, site: Option<int>) {
    match site
    case None => forall id :: id in s.locationByLocationId ==> s.locationByLocationId[id].name != name
    case Some(id) => id in s.locationByLocationId && s.locationByLocationId[id].name == name
  }

  function Receive(s: State, batchId: int, quantity: int, site: Option<int>): (r: Step)
    ensures r.published == [] ==> r.state == s
    ensures r.failure.None? ==> |r.published| == 2
    ensures |r.published| <= 2
  {
    if quantity <= 0 then Fail(s, OutOfRange(Quantity))
    else if batchId <= 0 then Fail(s, OutOfRange(BatchId))
    else if site.None? then Fail(s, InvalidOperation(NoLocationNamed("Receive")))
    else
      Then(Publish(s, AddedBatch(batchId, quantity)),
           AddedBatchToLocation(site.value, batchId, quantity))
  }

  function Ship(s: State, batchId: int, quantity: int, site: Option<int>): (r: Step)
    ensures r.published == [] ==> r.state == s
    ensures r.failure.None? ==> |r.published| == 2
    ensures |r.published| <= 2
  {
    if quantity <= 0 then Fail(s, OutOfRange(Quantity))
    else if batchId <= 0 then Fail(s, OutOfRange(BatchId))
    else if site.None? then Fail(s, InvalidOperation(NoLocationNamed("Ship")))
    else if Holding(s, site.value, batchId) < quantity then
      Fail(s, InvalidOperation(NotEnough(quantity, Holding(s, site.value, batchId))))
    else
      Then(Publish(s, RemovedBatchFromLocation(site.value, batchId, quantity)),
           RemovedBatch(batchId, quantity))
  }

  function Move(s: State, batchId: int, quantity: int, fromLocationId: int, toLocationId: int): (r: Step)
    ensures r.published == [] ==> r.state == s
    ensures r.failure.None? ==> |r.published| == 2
    ensures |r.published| <= 2
  {
    if quantity <= 0 then Fail(s, OutOfRange(Quantity))
    else if batchId <= 0 then Fail(s, OutOfRange(BatchId))
    else if fromLocationId <= 0 then Fail(s, OutOfRange(FromLocationId))
    else if toLocationId <= 0 then Fail(s, OutOfRange(ToLocationId))
    else if batchId !in s.batchesById then Fail(s, KeyNotFound)
    else if s.batchesById[batchId].isPharma && toLocationId !in s.locationByLocationId then
      Fail(s, KeyNotFound)
    else if s.batchesById[batchId].isPharma
         && |s.locationByLocationId[toLocationId].quantityByBatchId| != 0 then
      Fail(s, InvalidOperation(PharmaIntoNonEmpty))
    else
      Then(Publish(s, RemovedBatchFromLocation(fromLocationId, batchId, quantity)),
           AddedBatchToLocation(toLocationId, batchId, quantity))
  }

  /** No component of the list is null. */
  predicate Present(from: seq<Option<BatchQuantity>>) {
    forall i :: 0 <= i < |from| ==> from[i].Some?
  }

  /** The exception the validation loop of AssembleBatch throws, if any:
      at the first component (in order) that is null, or that the location
      holds less of than perUnit x quantity. When there is none, no
      component was null. */
  function Shortfall(s: State, site: int, from: seq<Option<BatchQuantity>>, quantity: int): (r: Option<Exception>)
    ensures r.None? ==> Present(from)
    decreases |from|
  {
    if from == [] then None
    else
      var earlier := Shortfall(s, site, from[..|from| - 1], quantity);
      var last := from[|from| - 1];
      if earlier.Some? then earlier
      else if last.None? then Some(NullReference)
      else
        var required := last.value.quantity * quantity;
        if Holding(s, site, last.value.batchId) < required then
          Some(InvalidOperation(NotEnough(required, Holding(s, site, last.value.batchId))))
        else None
  }

  /** The removal pairs AssembleBatch builds, one pair per component in order. */
  function Components(site: int, from: seq<Option<BatchQuantity>>, quantity: int): (r: seq<Event>)
    requires Present(from)
    ensures |r| == 2 * |from|
    decreases |from|
  {
    if from == [] then []
    else
      var last := from[|from| - 1].value;
      var required := last.quantity * quantity;
      Components(site, from[..|from| - 1], quantity)
        + [RemovedBatchFromLocation(site, last.batchId, required), RemovedBatch(last.batchId, required)]
  }

  /** The full list AssembleBatch publishes: the removal pairs, then the new batch. */
  function AssemblyEvents(site: int, batchId: int, quantity: int, from: seq<Option<BatchQuantity>>): seq<Event>
    requires Present(from)
  {
    Components(site, from, quantity)
      + [AddedBatch(batchId, quantity), AddedBatchToLocation(site, batchId, quantity)]
  }

  /** Assemble publishes the whole list in one call or nothing at all: a
      command that throws has published nothing. */
  function Assemble(s: State, order: Option<AssembleOrder>, site: Option<int>): (r: Step)
    ensures r.failure.Some? ==> r.published == []
    ensures r.failure.None? ==> |r.published| >= 2
  {
    if order.None? then Fail(s, NullArgument)
    else if order.value.quantity <= 0 then Fail(s, OutOfRange(Quantity))
    else if order.value.batchId <= 0 then Fail(s, OutOfRange(BatchId))
    else if order.value.from.None? then Fail(s, NullArgument)
    else if site.None? then Fail(s, InvalidOperation(NoLocationNamed("Assemble")))
    else
      var o := order.value;
      var lack := Shortfall(s, site.value, o.from.value, o.quantity);
      if lack.Some? then Fail(s, lack.value)
      else PublishAll(s, AssemblyEvents(site.value, o.batchId, o.quantity, o.from.value))
  }

  /** Once a prefix of the list throws, the rest of the list is never
      looked at: the whole list throws the same exception. */
  lemma {:induction false} ShortfallFirst(s: State, site: int, from: seq<Option<BatchQuantity>>, quantity: int, i: nat)
    requires 0 < i <= |from|
    requires Shortfall(s, site, from[..i], quantity).Some?
    ensures Shortfall(s, site, from, quantity) == Shortfall(s, site, from[..i], quantity)
    decreases |from|
  {
    if i < |from| {
      var prefix := from[..|from| - 1];
      assert prefix[..i] == from[..i];
      ShortfallFirst(s, site, prefix, quantity, i);
    } else {
      assert from[..i] == from;
    }
  }

  /** `Execute(cmd)`: the four handled kinds; null and any other kind do nothing. */
  function Dispatch(s: State, cmd: Option<Command>, site: Option<int>): Step {
    match cmd
    case None => Step(s, [], None)
    case Some(ReceiveCommand(c)) => Receive(s, c.batchId, c.quantity, site)
    case Some(ShipCommand(c)) => Ship(s, c.batchId, c.quantity, site)
    case Some(AssembleCommand(o)) => Assemble(s, Some(o), site)
    case Some(MoveCommand(c)) => Move(s, c.batchId, c.quantity, c.fromLocationId, c.toLocationId)
    case Some(OtherCommand) => Step(s, [], None)
  }

  /** The special location a command looks up by name, when it gets that
      far: the lookup comes only after the argument checks pass. */
  function Lookup(cmd: Command): Option<string> {
    match cmd
    case ReceiveCommand(c) => if c.quantity > 0 && c.batchId > 0 then Some("Receive") else None
    case ShipCommand(c) => if c.quantity > 0 && c.batchId > 0 then Some("Ship") else None
    case AssembleCommand(o) => if o.quantity > 0 && o.batchId > 0 && o.from.Some? then Some("Assemble") else None
    case MoveCommand(_) => None
    case OtherCommand => None
  }
}
