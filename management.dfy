/** The command-object handlers of the WarehouseManagement copy of the
    aggregate. Its maps, replay, publishing and event handlers are the same
    code as the domain copy, so they run on the same Warehouse class; what
    it adds is a null check on the command before the argument checks.
    The command is an `Option` whose `None` is null. */
module Management {
  import opened Optional
  import opened Exceptions
  import opened Commands
  import opened WarehouseModel
  import opened Aggregate

  /** `Execute(ReceiveBatch cmd)` as a value. */
  function ReceiveOrNull(s: State, cmd: Option<ReceiveBatch>, site: Option<int>): Step {
    if cmd.None? then Fail(s, NullArgument) else Receive(s, cmd.value.batchId, cmd.value.quantity, site)
  }

  /** `Execute(ShipBatch cmd)` as a value. */
  function ShipOrNull(s: State, cmd: Option<ShipBatch>, site: Option<int>): Step {
    if cmd.None? then Fail(s, NullArgument) else Ship(s, cmd.value.batchId, cmd.value.quantity, site)
  }

  /** `Execute(MoveBatch cmd)` as a value. */
  function MoveOrNull(s: State, cmd: Option<MoveBatch>): Step {
    if cmd.None? then Fail(s, NullArgument)
    else Move(s, cmd.value.batchId, cmd.value.quantity, cmd.value.fromLocationId, cmd.value.toLocationId)
  }

  method ExecuteReceive(w: Warehouse, cmd: Option<ReceiveBatch>) returns (r: Option<Exception>, ghost site: Option<int>)
    requires w.Valid()
    modifies w, w.locationByLocationId.Values
    ensures w.Valid() && fresh(w.locationByLocationId.Values - old(w.locationByLocationId.Values))
    ensures cmd.Some? && cmd.value.quantity > 0 && cmd.value.batchId > 0 ==> Located(old(w.View()), "Receive", site)
    ensures w.Took(ReceiveOrNull(old(w.View()), cmd, site), r, old(w.published))
  {
    if cmd.None? {
      return Some(NullArgument), None;
    }
    r, site := w.ReceiveBatch(cmd.value.batchId, cmd.value.quantity);
  }

  method ExecuteShip(w: Warehouse, cmd: Option<ShipBatch>) returns (r: Option<Exception>, ghost site: Option<int>)
    requires w.Valid()
    modifies w, w.locationByLocationId.Values
    ensures w.Valid() && fresh(w.locationByLocationId.Values - old(w.locationByLocationId.Values))
    ensures cmd.Some? && cmd.value.quantity > 0 && cmd.value.batchId > 0 ==> Located(old(w.View()), "Ship", site)
    ensures w.Took(ShipOrNull(old(w.View()), cmd, site), r, old(w.published))
  {
    if cmd.None? {
      return Some(NullArgument), None;
    }
    r, site := w.ShipBatch(cmd.value.batchId, cmd.value.quantity);
  }

  method ExecuteMove(w: Warehouse, cmd: Option<MoveBatch>) returns (r: Option<Exception>)
    requires w.Valid()
    modifies w, w.locationByLocationId.Values
    ensures w.Valid() && fresh(w.locationByLocationId.Values - old(w.locationByLocationId.Values))
    ensures w.Took(MoveOrNull(old(w.View()), cmd), r, old(w.published))
  {
    if cmd.None? {
      return Some(NullArgument);
    }
    r := w.MoveBatch(cmd.value.batchId, cmd.value.quantity, cmd.value.fromLocationId, cmd.value.toLocationId);
  }

  /** A null command of any kind is rejected before anything is applied
      or published, whatever location the lookup would have found. */
  lemma NullRejected(s: State, site: Option<int>)
    ensures ReceiveOrNull(s, None, site) == Step(s, [], Some(NullArgument))
    ensures ShipOrNull(s, None, site) == Step(s, [], Some(NullArgument))
    ensures MoveOrNull(s, None) == Step(s, [], Some(NullArgument))
    ensures Assemble(s, None, site) == Step(s, [], Some(NullArgument))
  {
  }

  /** What `Execute(Command)` routes a command to: a present command is
      handled exactly as its own handler handles it. */
  lemma ExecuteRoutes(s: State, cmd: Command, site: Option<int>)
    ensures cmd.ReceiveCommand? ==> Dispatch(s, Some(cmd), site) == ReceiveOrNull(s, Some(cmd.receive), site)
    ensures cmd.ShipCommand? ==> Dispatch(s, Some(cmd), site) == ShipOrNull(s, Some(cmd.ship), site)
    ensures cmd.MoveCommand? ==> Dispatch(s, Some(cmd), site) == MoveOrNull(s, Some(cmd.move))
    ensures cmd.AssembleCommand? ==> Dispatch(s, Some(cmd), site) == Assemble(s, Some(cmd.order), site)
    ensures cmd.OtherCommand? ==> Dispatch(s, Some(cmd), site) == Step(s, [], None)
  {
  }
}
