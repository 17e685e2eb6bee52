/** What a multi-line stock change amounts to: the line-by-line loop against aggregate demand. */
module Stock {
  import opened Options
  import opened Permutations
  import opened Lifecycle
  import opened Schema
  import opened Inventories
  import opened Orders
  import opened Invariant

  /** Units of a product on the shelf; zero without an inventory row. */
  ghost function Units(db: DB, biz: int, product: int): int {
    match FindInventory(db.inventories, biz, product)
    case None => 0
    case Some(i) => db.inventories[i].quantity
  }

  ghost function Threshold(db: DB, biz: int, product: int): int {
    match FindInventory(db.inventories, biz, product)
    case None => 0
    case Some(i) => db.inventories[i].threshold
  }

  /** Total quantity of a product over all lines, which may repeat it. */
  function Demand(lines: seq<Line>, product: int): int {
    if lines == [] then 0
    else
      var line := lines[|lines| - 1];
      Demand(lines[..|lines| - 1], product) + (if line.product == product then line.quantity else 0)
  }

  /** Every ordered product has an inventory row holding at least its total demand. */
  ghost predicate Enough(db: DB, biz: int, lines: seq<Line>) {
    forall l | l in lines ::
      && FindInventory(db.inventories, biz, l.product).Some?
      && Demand(lines, l.product) <= Units(db, biz, l.product)
  }

  ghost predicate AllShelved(db: DB, biz: int, lines: seq<Line>) {
    forall l | l in lines :: FindInventory(db.inventories, biz, l.product).Some?
  }

  lemma {:induction false} DemandNonNegative(lines: seq<Line>, product: int)
    requires PositiveQuantities(lines)
    ensures Demand(lines, product) >= 0
    ensures (exists l :: l in lines && l.product == product) <==> Demand(lines, product) > 0
  {
    if lines != [] {
      var shorter, line := lines[..|lines| - 1], lines[|lines| - 1];
      DemandNonNegative(shorter, product);
      assert line in lines;
      assert forall l | l in lines :: l == line || l in shorter;
    }
  }

  /** One staged movement changes the units of its own product only. */
  lemma MoveUnits(db: DB, id: int, delta: int, kind: MovementType, actor: Option<int>, biz: int, product: int)
    requires StockSound(db) && id in db.inventories && delta != 0
    ensures var r := Move(db, id, delta, kind, actor);
            r.Staged? ==>
              && Units(r.db, biz, product)
                 == Units(db, biz, product)
                    + (if IsInventoryOf(db.inventories[id], biz, product) then delta else 0)
              && Threshold(r.db, biz, product) == Threshold(db, biz, product)
              && FindInventory(r.db.inventories, biz, product) == FindInventory(db.inventories, biz, product)
  {
    var r := Move(db, id, delta, kind, actor);
    if r.Staged? {
      MoveKeepsStockSound(db, id, delta, kind, actor);
      LookupsAgree(db.inventories, r.db.inventories, biz, product);
      if IsInventoryOf(db.inventories[id], biz, product) {
        InventoryFound(db.inventories, biz, product, id);
      }
    }
  }

  /** After a staged change of all lines every product has moved by exactly its demand, and no
      other business's stock has. */
  lemma {:induction false} StagedUnits(db: DB, biz: int, lines: seq<Line>, sign: int, actor: Option<int>,
                                       b: int, product: int)
    requires StockSound(db) && sign in {-1, 1}
    ensures var r := StageLines(db, biz, lines, sign, actor);
            r.Staged? ==>
              && Units(r.db, b, product)
                 == Units(db, b, product) + (if b == biz then sign * Demand(lines, product) else 0)
              && Threshold(r.db, b, product) == Threshold(db, b, product)
              && FindInventory(r.db.inventories, b, product) == FindInventory(db.inventories, b, product)
  {
    hide StockSound, Units, Threshold;
    if lines != [] {
      var shorter, line := lines[..|lines| - 1], lines[|lines| - 1];
      StagedUnits(db, biz, shorter, sign, actor, b, product);
      var before := StageLines(db, biz, shorter, sign, actor);
      if before.Staged? {
        StageLinesKeepsStockSound(db, biz, shorter, sign, actor);
        var found := FindInventory(before.db.inventories, biz, line.product);
        if found.Some? && sign * line.quantity != 0 {
          MoveUnits(before.db, found.value, sign * line.quantity, MovementKind(sign), actor, b, product);
        }
      }
    }
  }

  lemma UnitsNonNegative(db: DB, biz: int, product: int)
    requires StockSound(db)
    ensures Units(db, biz, product) >= 0
  {}

  lemma DemandOfRest(lines: seq<Line>, product: int)
    requires lines != [] && PositiveQuantities(lines)
    ensures Demand(lines[..|lines| - 1], product) <= Demand(lines, product)
  {
    assert lines[|lines| - 1] in lines;
  }

  /** The last line's check, in terms of where the shelves stood before the first line. */
  lemma LastLine(db: DB, biz: int, lines: seq<Line>, sign: int, actor: Option<int>)
    requires StockSound(db) && sign in {-1, 1} && lines != [] && PositiveQuantities(lines)
    requires StageLines(db, biz, lines[..|lines| - 1], sign, actor).Staged?
    ensures var line := lines[|lines| - 1];
            var r := StageLines(db, biz, lines, sign, actor);
            && (r.Staged? <==>
                  && FindInventory(db.inventories, biz, line.product).Some?
                  && Units(db, biz, line.product) + sign * Demand(lines, line.product) >= 0)
            && (r.Refused? ==>
                  r.error == if FindInventory(db.inventories, biz, line.product).None? then NotFound
                             else InsufficientStock)
  {
    hide StockSound;
    var shorter, line := lines[..|lines| - 1], lines[|lines| - 1];
    assert line in lines;
    StagedUnits(db, biz, shorter, sign, actor, biz, line.product);
  }

  /** Line k is the first that cannot be served, because its product has no row or not enough is left. */
  ghost predicate FailsAt(db: DB, biz: int, lines: seq<Line>, k: int, error: Error) {
    && 0 <= k < |lines|
    && Enough(db, biz, lines[..k]) && !Enough(db, biz, lines[..k + 1])
    && error == if forall i | i in db.inventories ::
                     db.inventories[i].biz != biz || db.inventories[i].product != lines[k].product
                then NotFound else InsufficientStock
  }

  /** The loop takes stock out exactly when the aggregate demand is covered; otherwise the first line that
      cannot be served says why. */
  lemma {:induction false} TakenIffEnough(db: DB, biz: int, lines: seq<Line>, actor: Option<int>)
    requires StockSound(db) && PositiveQuantities(lines)
    ensures var r := StageLines(db, biz, lines, -1, actor);
            && (r.Staged? <==> Enough(db, biz, lines))
            && (r.Refused? ==> exists k :: FailsAt(db, biz, lines, k, r.error))
  {
    if lines != [] {
      hide StockSound, Units, FailsAt;
      var shorter, line := lines[..|lines| - 1], lines[|lines| - 1];
      TakenIffEnough(db, biz, shorter, actor);
      var before := StageLines(db, biz, shorter, -1, actor);
      if before.Staged? {
        LastLine(db, biz, lines, -1, actor);
        assert Enough(db, biz, lines) <==> StageLines(db, biz, lines, -1, actor).Staged? by {
          EnoughOfLast(db, biz, lines);
        }
        if StageLines(db, biz, lines, -1, actor).Refused? {
          LastFails(db, biz, lines, StageLines(db, biz, lines, -1, actor).error);
        }
      } else {
        EnoughOfRest(db, biz, lines);
        var k :| FailsAt(db, biz, shorter, k, before.error);
        FailsLonger(db, biz, lines, k, before.error);
      }
    }
  }

  lemma LastFails(db: DB, biz: int, lines: seq<Line>, error: Error)
    requires lines != [] && Enough(db, biz, lines[..|lines| - 1]) && !Enough(db, biz, lines)
    requires error == if FindInventory(db.inventories, biz, lines[|lines| - 1].product).None? then NotFound
                      else InsufficientStock
    ensures FailsAt(db, biz, lines, |lines| - 1, error)
  {
    assert lines[..|lines| - 1 + 1] == lines;
    var product := lines[|lines| - 1].product;
    var found := FindInventory(db.inventories, biz, product);
    forall i | i in db.inventories
      ensures IsInventoryOf(db.inventories[i], biz, product)
          <==> (db.inventories[i].biz == biz && db.inventories[i].product == product)
    {
    }
  }

  lemma FailsLonger(db: DB, biz: int, lines: seq<Line>, k: int, error: Error)
    requires lines != [] && FailsAt(db, biz, lines[..|lines| - 1], k, error)
    ensures FailsAt(db, biz, lines, k, error)
  {
    var shorter := lines[..|lines| - 1];
    assert shorter[..k] == lines[..k] && shorter[..k + 1] == lines[..k + 1];
    hide Enough;
  }

  lemma EnoughOfRest(db: DB, biz: int, lines: seq<Line>)
    requires lines != [] && PositiveQuantities(lines)
    ensures Enough(db, biz, lines) ==> Enough(db, biz, lines[..|lines| - 1])
  {
    var shorter := lines[..|lines| - 1];
    if Enough(db, biz, lines) {
      forall l | l in shorter
        ensures FindInventory(db.inventories, biz, l.product).Some?
        ensures Demand(shorter, l.product) <= Units(db, biz, l.product)
      {
        assert l in lines;
        DemandOfRest(lines, l.product);
      }
    }
  }

  lemma EnoughOfLast(db: DB, biz: int, lines: seq<Line>)
    requires lines != [] && PositiveQuantities(lines) && Enough(db, biz, lines[..|lines| - 1])
    ensures var line := lines[|lines| - 1];
            Enough(db, biz, lines) <==>
              && FindInventory(db.inventories, biz, line.product).Some?
              && Units(db, biz, line.product) - Demand(lines, line.product) >= 0
  {
    var shorter, line := lines[..|lines| - 1], lines[|lines| - 1];
    assert line in lines;
    assert forall l | l in lines :: l == line || l in shorter;
    assert forall l | l in lines && l.product != line.product ::
        l in shorter && Demand(lines, l.product) == Demand(shorter, l.product);
  }

  /** Giving stock back only needs the rows to exist. */
  lemma {:induction false} ReturnedIfShelved(db: DB, biz: int, lines: seq<Line>, actor: Option<int>)
    requires StockSound(db) && PositiveQuantities(lines) && AllShelved(db, biz, lines)
    ensures StageLines(db, biz, lines, 1, actor).Staged?
  {
    if lines != [] {
      var shorter, line := lines[..|lines| - 1], lines[|lines| - 1];
      assert line in lines;
      ReturnedIfShelved(db, biz, shorter, actor);
      LastLine(db, biz, lines, 1, actor);
      UnitsNonNegative(db, biz, line.product);
      DemandNonNegative(lines, line.product);
    }
  }

  // ----- everything a staged change of all lines writes -----

  /** Every row of the business moved by its product's demand. */
  function Shifted(db: DB, biz: int, lines: seq<Line>, sign: int): map<int, Inventory> {
    map i | i in db.inventories ::
      if db.inventories[i].biz != biz then db.inventories[i]
      else db.inventories[i].(quantity := db.inventories[i].quantity + sign * Demand(lines, db.inventories[i].product))
  }

  /** One movement per line, in line order, each saying what was left at that point. */
  ghost function Written(db: DB, biz: int, lines: seq<Line>, sign: int, actor: Option<int>): seq<Movement> {
    if lines == [] then []
    else
      var line := lines[|lines| - 1];
      Written(db, biz, lines[..|lines| - 1], sign, actor)
        + match FindInventory(db.inventories, biz, line.product)
          case None => []
          case Some(i) =>
            [Movement(biz, i, line.product, sign * line.quantity,
                      db.inventories[i].quantity + sign * Demand(lines, line.product),
                      if sign < 0 then Sale else Restock, actor)]
  }

  /** One warning per line that leaves its product at or below the threshold. */
  ghost function Warned(db: DB, biz: int, lines: seq<Line>, sign: int): seq<Event> {
    if lines == [] then []
    else
      var line := lines[|lines| - 1];
      var left := Units(db, biz, line.product) + sign * Demand(lines, line.product);
      Warned(db, biz, lines[..|lines| - 1], sign)
        + if left <= Threshold(db, biz, line.product)
          then [LowStock(biz, line.product, left, Threshold(db, biz, line.product))] else []
  }

  lemma StagedRows(db: DB, biz: int, lines: seq<Line>, sign: int, actor: Option<int>)
    requires StockSound(db) && sign in {-1, 1}
    ensures var r := StageLines(db, biz, lines, sign, actor);
            r.Staged? ==> r.db.inventories == Shifted(db, biz, lines, sign)
  {
    var r := StageLines(db, biz, lines, sign, actor);
    hide StageLines, Demand;
    if r.Staged? {
      StageLinesKeepsStockSound(db, biz, lines, sign, actor);
      StageLinesKeepsOthers(db, biz, lines, sign, actor);
      forall i | i in db.inventories ensures r.db.inventories[i] == Shifted(db, biz, lines, sign)[i] {
        var row := db.inventories[i];
        StagedUnits(db, biz, lines, sign, actor, row.biz, row.product);
        InventoryFound(db.inventories, row.biz, row.product, i);
      }
    }
  }

  /** The last line's movement and warning, in terms of where the shelves stood before the first line. */
  lemma LastWritten(db: DB, biz: int, lines: seq<Line>, sign: int, actor: Option<int>)
    requires StockSound(db) && sign in {-1, 1} && lines != []
    ensures var line := lines[|lines| - 1];
            var before := StageLines(db, biz, lines[..|lines| - 1], sign, actor);
            var r := StageLines(db, biz, lines, sign, actor);
            r.Staged? ==>
              && before.Staged? && FindInventory(db.inventories, biz, line.product).Some?
              && var left := Units(db, biz, line.product) + sign * Demand(lines, line.product);
              && r.db.movements == before.db.movements
                   + [Movement(biz, FindInventory(db.inventories, biz, line.product).value, line.product,
                               sign * line.quantity, left, if sign < 0 then Sale else Restock, actor)]
              && r.lows == before.lows
                   + if left <= Threshold(db, biz, line.product)
                     then [LowStock(biz, line.product, left, Threshold(db, biz, line.product))] else []
  {
    hide StockSound, OneRowPerProduct;
    var shorter, line := lines[..|lines| - 1], lines[|lines| - 1];
    StagedUnits(db, biz, shorter, sign, actor, biz, line.product);
  }

  lemma {:induction false} StagedWrites(db: DB, biz: int, lines: seq<Line>, sign: int, actor: Option<int>)
    requires StockSound(db) && sign in {-1, 1}
    ensures var r := StageLines(db, biz, lines, sign, actor);
            r.Staged? ==>
              && r.db.movements == db.movements + Written(db, biz, lines, sign, actor)
              && r.lows == Warned(db, biz, lines, sign)
  {
    hide StockSound, StageLines, Threshold, Demand;
    if lines != [] {
      StagedWrites(db, biz, lines[..|lines| - 1], sign, actor);
      LastWritten(db, biz, lines, sign, actor);
    } else {
      NothingStaged(db, biz, sign, actor);
    }
  }

  lemma NothingStaged(db: DB, biz: int, sign: int, actor: Option<int>)
    ensures StageLines(db, biz, [], sign, actor) == Staged(db, [])
  {}

  /** Staging all lines in turn writes the rows, the movements and the warnings that the lines call for, and
      nothing else. */
  lemma StagedExactly(db: DB, biz: int, lines: seq<Line>, sign: int, actor: Option<int>)
    requires StockSound(db) && sign in {-1, 1}
    ensures var r := StageLines(db, biz, lines, sign, actor);
            r.Staged? ==>
              r == Staged(db.(inventories := Shifted(db, biz, lines, sign),
                              movements := db.movements + Written(db, biz, lines, sign, actor)),
                          Warned(db, biz, lines, sign))
  {
    StagedRows(db, biz, lines, sign, actor);
    StagedWrites(db, biz, lines, sign, actor);
    StageLinesKeepsStockSound(db, biz, lines, sign, actor);
    hide StockSound, StageLines, Shifted, Written, Warned;
  }

  // ----- low-stock events -----

  /** The quantity carried by the last low-stock event of a product, if there is one. */
  function LastLow(events: seq<Event>, product: int): Option<int> {
    if events == [] then None
    else
      var e := events[|events| - 1];
      if e.LowStock? && e.product == product then Some(e.quantity)
      else LastLow(events[..|events| - 1], product)
  }

  lemma {:induction false} LastLowOfConcat(a: seq<Event>, b: seq<Event>, product: int)
    ensures LastLow(a + b, product) == if LastLow(b, product).Some? then LastLow(b, product) else LastLow(a, product)
  {
    if b == [] {
      assert a + b == a;
    } else {
      LastLowOfConcat(a, b[..|b| - 1], product);
      assert (a + b)[..|a + b| - 1] == a + b[..|b| - 1];
    }
  }

  /** One movement warns of its product exactly when it leaves it at or below its threshold. */
  lemma MoveWarning(db: DB, biz: int, id: int, delta: int, kind: MovementType, actor: Option<int>, product: int)
    requires StockSound(db) && id in db.inventories && delta != 0 && db.inventories[id].biz == biz
    ensures var r := Move(db, id, delta, kind, actor);
            r.Staged? ==>
              LastLow(r.lows, product)
              == if db.inventories[id].product == product && Units(r.db, biz, product) <= Threshold(r.db, biz, product)
                 then Some(Units(r.db, biz, product)) else None
  {
    var r := Move(db, id, delta, kind, actor);
    if r.Staged? {
      MoveKeepsStockSound(db, id, delta, kind, actor);
      assert |r.lows| <= 1 && (r.lows != [] ==> r.lows[..0] == []);
      if db.inventories[id].product == product {
        InventoryFound(r.db.inventories, biz, product, id);
      }
    }
  }

  /** The same for a staged line, with what becomes of the product's units. */
  lemma LineWarning(db: DB, biz: int, line: Line, actor: Option<int>, product: int)
    requires StockSound(db) && line.quantity > 0
    ensures var r := Stage(db, biz, line.product, -line.quantity, Sale, actor);
            r.Staged? ==>
              && LastLow(r.lows, product)
                 == (if line.product == product && Units(r.db, biz, product) <= Threshold(r.db, biz, product)
                     then Some(Units(r.db, biz, product)) else None)
              && Units(r.db, biz, product)
                 == Units(db, biz, product) - (if line.product == product then line.quantity else 0)
              && Threshold(r.db, biz, product) == Threshold(db, biz, product)
  {
    hide StockSound, Units, Threshold, Move, LastLow;
    var found := FindInventory(db.inventories, biz, line.product);
    if found.Some? {
      MoveUnits(db, found.value, -line.quantity, Sale, actor, biz, product);
      MoveWarning(db, biz, found.value, -line.quantity, Sale, actor, product);
    }
  }

  /** The loop's last round, taking stock out. */
  lemma LastTaken(db: DB, biz: int, lines: seq<Line>, actor: Option<int>)
    requires lines != []
    ensures var line := lines[|lines| - 1];
            var before := StageLines(db, biz, lines[..|lines| - 1], -1, actor);
            var r := StageLines(db, biz, lines, -1, actor);
            r.Staged? ==>
              && before.Staged?
              && var last := Stage(before.db, biz, line.product, -line.quantity, Sale, actor);
                 last.Staged? && r.db == last.db && r.lows == before.lows + last.lows
  {
    hide Stage;
  }

  lemma DemandLonger(lines: seq<Line>, product: int)
    requires lines != []
    ensures var line := lines[|lines| - 1];
            Demand(lines, product)
            == Demand(lines[..|lines| - 1], product) + (if line.product == product then line.quantity else 0)
  {}

  ghost predicate WarnsExactly(db: DB, biz: int, lines: seq<Line>, actor: Option<int>, product: int) {
    var r := StageLines(db, biz, lines, -1, actor);
    r.Staged? ==>
      LastLow(r.lows, product)
      == if Demand(lines, product) > 0 && Units(r.db, biz, product) <= Threshold(r.db, biz, product)
         then Some(Units(r.db, biz, product)) else None
  }

  lemma WarningsLonger(db: DB, biz: int, lines: seq<Line>, actor: Option<int>, product: int)
    requires StockSound(db) && PositiveQuantities(lines) && lines != []
    requires WarnsExactly(db, biz, lines[..|lines| - 1], actor, product)
    ensures WarnsExactly(db, biz, lines, actor, product)
  {
    hide StockSound, Units, Threshold, Stage, StageLines, Demand, LastLow;
    var shorter, line := lines[..|lines| - 1], lines[|lines| - 1];
    assert line in lines && line.quantity > 0;
    DemandNonNegative(shorter, product);
    DemandLonger(lines, product);
    LastTaken(db, biz, lines, actor);
    hide PositiveQuantities;
    var before := StageLines(db, biz, shorter, -1, actor);
    if before.Staged? {
      StageLinesKeepsStockSound(db, biz, shorter, -1, actor);
      LineWarning(before.db, biz, line, actor, product);
      var last := Stage(before.db, biz, line.product, -line.quantity, Sale, actor);
      if last.Staged? {
        LastLowOfConcat(before.lows, last.lows, product);
      }
    }
  }

  /** Taking an order out warns of exactly the ordered products that end at or below their
      threshold, and the last warning of each carries the quantity that will be committed. */
  lemma {:induction false} WarningsExact(db: DB, biz: int, lines: seq<Line>, actor: Option<int>, product: int)
    requires StockSound(db) && PositiveQuantities(lines)
    ensures var r := StageLines(db, biz, lines, -1, actor);
            r.Staged? ==>
              LastLow(r.lows, product)
              == if Demand(lines, product) > 0 && Units(r.db, biz, product) <= Threshold(r.db, biz, product)
                 then Some(Units(r.db, biz, product)) else None
  {
    hide StockSound, Units, Threshold, Stage;
    if lines != [] {
      WarningsExact(db, biz, lines[..|lines| - 1], actor, product);
      WarningsLonger(db, biz, lines, actor, product);
    }
  }

  // ----- confirm and cancel -----

  lemma OrderFacts(db: DB, id: int)
    requires Inv(db) && id in db.orders
    ensures StockSound(db) && PositiveQuantities(db.orders[id].lines)
  {}

  /** The tables after all lines of an order have moved stock and its status has changed. */
  ghost function AfterLines(db: DB, id: int, sign: int, actor: Option<int>, to: OrderStatus): DB
    requires id in db.orders
  {
    var order := db.orders[id];
    db.(inventories := Shifted(db, order.biz, order.lines, sign),
        movements := db.movements + Written(db, order.biz, order.lines, sign, actor),
        orders := db.orders[id := order.(status := to)])
  }

  lemma LinesTransition(db: DB, biz: int, id: int, event: OrderEvent, actor: Option<int>, fault: Fault)
    requires Inv(db) && HasOrder(db, biz, id)
    requires (event == Confirm && db.orders[id].status == Created)
          || (event == Cancel && db.orders[id].status == Confirmed)
    ensures var order := db.orders[id];
            var sign := if event == Confirm then -1 else 1;
            var o := TransitionSpec(db, db, biz, id, event, actor, fault);
            match StageLines(db, biz, order.lines, sign, actor)
            case Refused(error) => o == Outcome(db, [], Err(error))
            case Staged(_, _) =>
              var next := AfterLines(db, id, sign, actor, if event == Confirm then Confirmed else Cancelled);
              match fault
              case AtCommit => o == Outcome(db, [], Err(DatabaseError))
              case AfterCommit => o == Outcome(next, [], Err(DatabaseError))
              case NoFault =>
                o == Outcome(next,
                             Warned(db, biz, order.lines, sign)
                               + [if event == Confirm then OrderConfirmed(biz, id, order.customer)
                                  else OrderCancelled(biz, id, order.customer)],
                             Ok(id))
  {
    hide Inv, StockSound, AllFound, Constraints, StageLines, Shifted, Written, Warned;
    var order, sign := db.orders[id], if event == Confirm then -1 else 1;
    OrderFacts(db, id);
    EffectKeepsInv(db, order, if event == Confirm then Decrement else Restore, actor);
    StagedExactly(db, biz, order.lines, sign, actor);
    var r := StageLines(db, biz, order.lines, sign, actor);
    if r.Staged? {
      if event == Cancel {
        HeldLinesFound(db, id);
      }
      StatusKeepsInv(r.db, id, if event == Confirm then Confirmed else Cancelled);
    }
  }

  /** CONFIRM in any reachable state: refused exactly when aggregate demand is not covered, for the reason
      of the first line that cannot be served; otherwise it takes out exactly the demand, writes one
      movement per line and warns of exactly the products it leaves low, then announces itself. */
  lemma ConfirmExact(db: DB, biz: int, id: int, actor: Option<int>, fault: Fault)
    requires Inv(db) && HasOrder(db, biz, id) && db.orders[id].status == Created
    ensures var order := db.orders[id];
            var o := TransitionSpec(db, db, biz, id, Confirm, actor, fault);
            var next := AfterLines(db, id, -1, actor, Confirmed);
            if !Enough(db, biz, order.lines)
            then exists k, error :: FailsAt(db, biz, order.lines, k, error) && o == Outcome(db, [], Err(error))
            else match fault
                 case AtCommit => o == Outcome(db, [], Err(DatabaseError))
                 case AfterCommit => o == Outcome(next, [], Err(DatabaseError))
                 case NoFault =>
                   && o == Outcome(next, Warned(db, biz, order.lines, -1) + [OrderConfirmed(biz, id, order.customer)],
                                   Ok(id))
                   && forall p :: LastLow(o.events, p)
                        == if Demand(order.lines, p) > 0 && Units(o.db, biz, p) <= Threshold(o.db, biz, p)
                           then Some(Units(o.db, biz, p)) else None
    ensures var o := TransitionSpec(db, db, biz, id, Confirm, actor, fault);
            Enough(db, biz, db.orders[id].lines) && fault != AtCommit ==>
              forall b, p :: Units(o.db, b, p)
                == Units(db, b, p) - (if b == biz then Demand(db.orders[id].lines, p) else 0)
  {
    hide Inv, StockSound, AllFound, Units, Threshold, Enough, FailsAt, StageLines, Shifted, Written, TransitionSpec;
    var order := db.orders[id];
    var o := TransitionSpec(db, db, biz, id, Confirm, actor, fault);
    OrderFacts(db, id);
    TakenIffEnough(db, biz, order.lines, actor);
    LinesTransition(db, biz, id, Confirm, actor, fault);
    var r := StageLines(db, biz, order.lines, -1, actor);
    if r.Staged? {
      StagedExactly(db, biz, order.lines, -1, actor);
      forall b, p
        ensures Units(AfterLines(db, id, -1, actor, Confirmed), b, p)
             == Units(db, b, p) - (if b == biz then Demand(order.lines, p) else 0)
      {
        StagedUnits(db, biz, order.lines, -1, actor, b, p);
        UnitsOfStock(r.db, AfterLines(db, id, -1, actor, Confirmed), b, p);
      }
      if fault == NoFault {
        forall p
          ensures LastLow(o.events, p)
               == if Demand(order.lines, p) > 0 && Units(o.db, biz, p) <= Threshold(o.db, biz, p)
                  then Some(Units(o.db, biz, p)) else None
        {
          WarningsExact(db, biz, order.lines, actor, p);
          LastLowOfConcat(r.lows, [OrderConfirmed(biz, id, order.customer)], p);
          UnitsOfStock(r.db, o.db, biz, p);
        }
      }
    }
  }

  lemma UnitsOfStock(a: DB, b: DB, biz: int, product: int)
    requires a.inventories == b.inventories
    ensures Units(a, biz, product) == Units(b, biz, product)
    ensures Threshold(a, biz, product) == Threshold(b, biz, product)
  {}

  /** CANCEL of a confirmed order, in any reachable state, can only fail at the commit: it gives back exactly
      the demand, writes one movement per line and announces itself last. */
  lemma CancelAlwaysRestores(db: DB, biz: int, id: int, actor: Option<int>, fault: Fault)
    requires Inv(db) && HasOrder(db, biz, id) && db.orders[id].status == Confirmed
    ensures var order := db.orders[id];
            var o := TransitionSpec(db, db, biz, id, Cancel, actor, fault);
            var next := AfterLines(db, id, 1, actor, Cancelled);
            match fault
            case AtCommit => o == Outcome(db, [], Err(DatabaseError))
            case AfterCommit => o == Outcome(next, [], Err(DatabaseError))
            case NoFault =>
              o == Outcome(next, Warned(db, biz, order.lines, 1) + [OrderCancelled(biz, id, order.customer)], Ok(id))
    ensures var o := TransitionSpec(db, db, biz, id, Cancel, actor, fault);
            fault != AtCommit ==>
              forall b, p :: Units(o.db, b, p)
                == Units(db, b, p) + (if b == biz then Demand(db.orders[id].lines, p) else 0)
  {
    hide Inv, StockSound, Units, StageLines, Shifted, Written, Warned, TransitionSpec;
    var order := db.orders[id];
    OrderFacts(db, id);
    HeldLinesFound(db, id);
    ReturnedIfShelved(db, biz, order.lines, actor);
    LinesTransition(db, biz, id, Cancel, actor, fault);
    StagedExactly(db, biz, order.lines, 1, actor);
    var r := StageLines(db, biz, order.lines, 1, actor);
    var next := AfterLines(db, id, 1, actor, Cancelled);
    forall b, p ensures Units(next, b, p) == Units(db, b, p) + (if b == biz then Demand(order.lines, p) else 0) {
      StagedUnits(db, biz, order.lines, 1, actor, b, p);
      UnitsOfStock(r.db, next, b, p);
    }
  }

  // ----- the order of the lines -----

  lemma {:induction false} DemandConcat(a: seq<Line>, b: seq<Line>, product: int)
    ensures Demand(a + b, product) == Demand(a, product) + Demand(b, product)
  {
    if b == [] {
      assert a + b == a;
    } else {
      DemandConcat(a, b[..|b| - 1], product);
      assert (a + b)[..|a + b| - 1] == a + b[..|b| - 1];
    }
  }

  lemma DemandWithout(lines: seq<Line>, i: nat, product: int)
    requires i < |lines|
    ensures Demand(lines, product) == Demand(Without(lines, i), product) + Demand([lines[i]], product)
  {
    hide Demand;
    var a, b := lines[..i], lines[i + 1..];
    assert lines == a + [lines[i]] + b;
    DemandConcat(a + [lines[i]], b, product);
    DemandConcat(a, [lines[i]], product);
    DemandConcat(a, b, product);
  }

  lemma {:induction false} DemandPermuted(a: seq<Line>, b: seq<Line>, product: int)
    requires multiset(a) == multiset(b)
    ensures Demand(a, product) == Demand(b, product)
    decreases |a|
  {
    if a == [] {
      assert |multiset(b)| == 0;
    } else {
      hide Demand;
      assert a[0] in multiset(b);
      var i :| 0 <= i < |b| && b[i] == a[0];
      DemandWithout(a, 0, product);
      DemandWithout(b, i, product);
      SameWithout(a, 0, b, i);
      DemandPermuted(Without(a, 0), Without(b, i), product);
    }
  }

  /** Acceptance and the resulting stock do not depend on the order of the lines. */
  lemma LineOrderIrrelevant(db: DB, biz: int, a: seq<Line>, b: seq<Line>, actor: Option<int>)
    requires StockSound(db) && PositiveQuantities(a) && multiset(a) == multiset(b)
    ensures var ra, rb := StageLines(db, biz, a, -1, actor), StageLines(db, biz, b, -1, actor);
            && (ra.Staged? <==> rb.Staged?)
            && (ra.Staged? ==> forall p :: Units(ra.db, biz, p) == Units(rb.db, biz, p))
  {
    hide StockSound, Units;
    forall l ensures l in a <==> l in b {
      assert l in a <==> l in multiset(a);
    }
    forall p ensures Demand(a, p) == Demand(b, p) {
      DemandPermuted(a, b, p);
    }
    TakenIffEnough(db, biz, a, actor);
    TakenIffEnough(db, biz, b, actor);
    var ra, rb := StageLines(db, biz, a, -1, actor), StageLines(db, biz, b, -1, actor);
    forall p ensures ra.Staged? ==> Units(ra.db, biz, p) == Units(rb.db, biz, p) {
      StagedUnits(db, biz, a, -1, actor, biz, p);
      StagedUnits(db, biz, b, -1, actor, biz, p);
    }
  }
}
