/** The single authority for stock mutations (app/inventory/service.py). */
module Inventories {
  import opened Options
  import opened Schema
  import opened Sessions
  import opened Events

  // ----- what each operation does to the tables -----

  ghost function CreateInventorySpec(db: DB, biz: int, product: int, quantity: int, threshold: int,
                                     id: int, fault: Fault): Outcome
  {
    if !HasProduct(db, biz, product) then Refuse(db, NotFound)
    else if FindInventory(db.inventories, biz, product).Some? then Refuse(db, Conflict)
    else if id in db.inventories then Refuse(db, Conflict)
    else
      var next := db.(inventories := db.inventories[id := Inventory(biz, product, quantity, threshold)]);
      if !Constraints(next) then Refuse(db, Conflict) else Finish(db, next, [], Ok(id), fault)
  }

  ghost function UpdateThresholdSpec(db: DB, biz: int, id: int, threshold: int, fault: Fault): Outcome {
    if threshold < 0 then Refuse(db, Validation)
    else if !HasInventory(db, biz, id) then Refuse(db, NotFound)
    else Finish(db, db.(inventories := db.inventories[id := db.inventories[id].(threshold := threshold)]),
                [], Ok(id), fault)
  }

  datatype Staged = Staged(db: DB, lows: seq<Event>) | Refused(error: Error)

  /** One locked read-modify-write of a stock row plus its movement; nothing committed. */
  ghost function Move(db: DB, id: int, delta: int, kind: MovementType, actor: Option<int>): Staged
    requires id in db.inventories
  {
    var row := db.inventories[id];
    var quantity := row.quantity + delta;
    if quantity < 0 then Refused(InsufficientStock)
    else Staged(
           db.(inventories := db.inventories[id := row.(quantity := quantity)],
               movements := db.movements
                 + [Movement(row.biz, id, row.product, delta, quantity, kind, actor)]),
           if quantity <= row.threshold then [LowStock(row.biz, row.product, quantity, row.threshold)] else [])
  }

  ghost function Stage(db: DB, biz: int, product: int, delta: int, kind: MovementType, actor: Option<int>): Staged {
    if delta == 0 then Refused(Validation)
    else match FindInventory(db.inventories, biz, product)
         case None => Refused(NotFound)
         case Some(id) => Move(db, id, delta, kind, actor)
  }

  ghost function AdjustStockSpec(db: DB, biz: int, id: int, delta: int, kind: MovementType,
                                 actor: Option<int>, fault: Fault): Outcome
  {
    if delta == 0 then Refuse(db, Validation)
    else if !HasInventory(db, biz, id) then Refuse(db, NotFound)
    else match Move(db, id, delta, kind, actor)
         case Refused(error) => Refuse(db, error)
         case Staged(next, lows) => Finish(db, next, lows, Ok(id), fault)
  }

  ghost function AdjustByProductSpec(db: DB, biz: int, product: int, delta: int, kind: MovementType,
                                     actor: Option<int>, fault: Fault): Outcome
  {
    match FindInventory(db.inventories, biz, product)
    case None => Refuse(db, NotFound)
    case Some(id) => AdjustStockSpec(db, biz, id, delta, kind, actor, fault)
  }

  lemma MoveKeepsProducts(db: DB, id: int, delta: int, kind: MovementType, actor: Option<int>)
    requires id in db.inventories && OneRowPerProduct(db.inventories)
    ensures var r := Move(db, id, delta, kind, actor); r.Staged? ==> OneRowPerProduct(r.db.inventories)
  {}

  // ----- the service -----

  datatype StageResult = StagedLow(low: seq<Event>) | StageError(error: Error)

  class InventoryService {
    const session: Session
    const bus: EventBus

    constructor (session: Session, bus: EventBus)
      ensures this.session == session && this.bus == bus
    {
      this.session, this.bus := session, bus;
    }

    method CreateInventory(biz: int, product: int, quantity: int, threshold: int, id: int, fault: Fault)
      returns (answer: Answer)
      requires session.Clean()
      modifies session
      ensures session.Clean()
      ensures var spec := CreateInventorySpec(old(session.committed), biz, product, quantity, threshold, id, fault);
              session.committed == spec.db && answer == spec.answer && spec.events == []
    {
      if !HasProduct(session.working, biz, product) {
        return Err(NotFound);
      }
      var existing := session.InventoryByProduct(biz, product);
      if existing.Some? {
        return Err(Conflict);
      }
      if id in session.working.inventories {
        return Err(Conflict);
      }
      session.working := session.working.(
        inventories := session.working.inventories[id := Inventory(biz, product, quantity, threshold)]);
      var sound := session.Flush();
      if !sound {
        session.Rollback();
        return Err(Conflict);
      }
      var error := session.Commit(fault);
      if error.Some? {
        session.Rollback();
        return Err(error.value);
      }
      var ok := session.Refresh(fault);
      answer := if ok then Ok(id) else Err(DatabaseError);
    }

    method UpdateThreshold(biz: int, id: int, threshold: int, fault: Fault) returns (answer: Answer)
      requires session.Clean()
      modifies session
      ensures session.Clean()
      ensures var spec := UpdateThresholdSpec(old(session.committed), biz, id, threshold, fault);
              session.committed == spec.db && answer == spec.answer && spec.events == []
    {
      if threshold < 0 {
        return Err(Validation);
      }
      if !HasInventory(session.working, biz, id) {
        return Err(NotFound);
      }
      var row := session.working.inventories[id];
      session.working := session.working.(
        inventories := session.working.inventories[id := row.(threshold := threshold)]);
      var error := session.Commit(fault);
      if error.Some? {
        session.Rollback();
        return Err(error.value);
      }
      var ok := session.Refresh(fault);
      answer := if ok then Ok(id) else Err(DatabaseError);
    }

    /** `adjust_stock`: lock, check, write, insert the movement, commit, then publish. */
    method AdjustStock(biz: int, id: int, delta: int, kind: MovementType, actor: Option<int>, fault: Fault)
      returns (answer: Answer)
      requires session.Clean()
      modifies session, bus
      ensures session.Clean()
      ensures var spec := AdjustStockSpec(old(session.committed), biz, id, delta, kind, actor, fault);
              && session.committed == spec.db && answer == spec.answer
              && bus.published == old(bus.published) + spec.events
    {
      if delta == 0 {
        return Err(Validation);
      }
      if !HasInventory(session.working, biz, id) {
        session.Rollback();
        return Err(NotFound);
      }
      var row := session.working.inventories[id];
      var quantity := row.quantity + delta;
      if quantity < 0 {
        session.Rollback();
        return Err(InsufficientStock);
      }
      session.working := session.working.(
        inventories := session.working.inventories[id := row.(quantity := quantity)]);
      session.working := session.working.(
        movements := session.working.movements
          + [Movement(biz, id, row.product, delta, quantity, kind, actor)]);
      MoveKeepsProducts(old(session.committed), id, delta, kind, actor);
      assert Move(old(session.committed), id, delta, kind, actor).db == session.working;
      answer := CommitAndWarn(biz, id, row.product, quantity, row.threshold, fault);
    }

    /** The end of `adjust_stock`: the event only follows a commit and a reload that worked. */
    method CommitAndWarn(biz: int, id: int, product: int, quantity: int, threshold: int, fault: Fault)
      returns (answer: Answer)
      requires session.Valid()
      modifies session, bus
      ensures session.Clean()
      ensures var low := if quantity <= threshold then [LowStock(biz, product, quantity, threshold)] else [];
              var spec := Finish(old(session.committed), old(session.working), low, Ok(id), fault);
              && session.committed == spec.db && answer == spec.answer
              && bus.published == old(bus.published) + spec.events
    {
      var error := session.Commit(fault);
      if error.Some? {
        session.Rollback();
        return Err(error.value);
      }
      var ok := session.Refresh(fault);
      if !ok {
        return Err(DatabaseError);
      }
      if quantity <= threshold {
        bus.Publish(LowStock(biz, product, quantity, threshold));
      }
      answer := Ok(id);
    }

    /** `stage_adjustment`: the same write without the commit; the caller owns the transaction. */
    method StageAdjustment(biz: int, product: int, delta: int, kind: MovementType, actor: Option<int>)
      returns (r: StageResult)
      requires session.Valid()
      modifies session`working
      ensures session.Valid()
      ensures match Stage(old(session.working), biz, product, delta, kind, actor)
              case Refused(error) => r == StageError(error) && session.working == old(session.working)
              case Staged(next, lows) => r == StagedLow(lows) && session.working == next
    {
      if delta == 0 {
        return StageError(Validation);
      }
      var found := session.InventoryByProduct(biz, product);
      if found.None? {
        return StageError(NotFound);
      }
      var id := found.value;
      var row := session.working.inventories[id];
      var quantity := row.quantity + delta;
      if quantity < 0 {
        return StageError(InsufficientStock);
      }
      MoveKeepsProducts(session.working, id, delta, kind, actor);
      session.working := session.working.(
        inventories := session.working.inventories[id := row.(quantity := quantity)]);
      session.working := session.working.(
        movements := session.working.movements
          + [Movement(biz, id, product, delta, quantity, kind, actor)]);
      if quantity <= row.threshold {
        r := StagedLow([LowStock(biz, product, quantity, row.threshold)]);
      } else {
        r := StagedLow([]);
      }
    }

    method AdjustStockByProduct(biz: int, product: int, delta: int, kind: MovementType, actor: Option<int>,
                                fault: Fault)
      returns (answer: Answer)
      requires session.Clean()
      modifies session, bus
      ensures session.Clean()
      ensures var spec := AdjustByProductSpec(old(session.committed), biz, product, delta, kind, actor, fault);
              && session.committed == spec.db && answer == spec.answer
              && bus.published == old(bus.published) + spec.events
    {
      var found := session.InventoryByProduct(biz, product);
      if found.None? {
        return Err(NotFound);
      }
      answer := AdjustStock(biz, found.value, delta, kind, actor, fault);
    }
  }
}
