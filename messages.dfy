/** The closed vocabulary of domain events: facts the warehouse replays. */
module Events {

  datatype Event =
    | AddedBatch(batchId: int, quantity: int)
    | RemovedBatch(batchId: int, quantity: int)
    | CreatedLocation(locationId: int, name: string)
    | AddedBatchToLocation(locationId: int, batchId: int, quantity: int)
    | RemovedBatchFromLocation(locationId: int, batchId: int, quantity: int)
    | RegisteredBatch(batchId: int, name: string, isPharma: bool)
}

/** The commands `Execute` accepts. A reference that may be null is an
    `Option` whose `None` is null. */
module Commands {
  import opened Optional

  datatype ReceiveBatch = ReceiveBatch(batchId: int, quantity: int)

  datatype ShipBatch = ShipBatch(batchId: int, quantity: int)

  datatype MoveBatch = MoveBatch(batchId: int, quantity: int, fromLocationId: int, toLocationId: int)

  /** One component of an assembly: `quantity` units of `batchId` per unit assembled. */
  datatype BatchQuantity = BatchQuantity(batchId: int, quantity: int)

  /** An assembly order (the AssembleBatch command and BatchAssembleOrder
      carry the same three properties); `from` may be null, and so may each
      of its elements, since BatchQuantity is a class. */
  datatype AssembleOrder = AssembleOrder(batchId: int, quantity: int, from: Option<seq<Option<BatchQuantity>>>)

  /** A command as `Execute` sees it; `OtherCommand` is any other subclass of
      Command (CreateLocation, RegisterBatch, BatchQuantity, ...). */
  datatype Command =
    | ReceiveCommand(receive: ReceiveBatch)
    | ShipCommand(ship: ShipBatch)
    | AssembleCommand(order: AssembleOrder)
    | MoveCommand(move: MoveBatch)
    | OtherCommand
}
