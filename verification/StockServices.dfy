/** The interleaved stock transactions as the service calls they come from: running alone is what the
    inventory service stages. */
module StockServices {
  import opened Options
  import opened Schema
  import opened Inventories
  import opened Orders
  import opened Invariant
  import opened StockRace

  function Quantities(t: map<int, Inventory>): map<int, int> {
    map i | i in t :: t[i].quantity
  }

  function RowsOf(movements: seq<Movement>, t: nat): seq<Row> {
    seq(|movements|, i requires 0 <= i < |movements| =>
      Row(t, movements[i].inventory, movements[i].delta, movements[i].resulting))
  }

  /** A stock-changing call: a direct adjustment, or an order's lines taken out (-1) or given back (1). */
  datatype Job =
    | OfRow(biz: int, id: int, delta: int, kind: MovementType, actor: Option<int>)
    | OfLines(biz: int, lines: seq<Line>, sign: int, actor: Option<int>)

  /** What the service stages for it. */
  ghost function StageJob(db: DB, job: Job): Staged {
    match job
    case OfRow(biz, id, delta, kind, actor) =>
      if delta == 0 then Staged.Refused(Validation)
      else if !HasInventory(db, biz, id) then Staged.Refused(NotFound)
      else Move(db, id, delta, kind, actor)
    case OfLines(biz, lines, sign, actor) => StageLines(db, biz, lines, sign, actor)
  }

  /** The row a query finds; `missing` stands for no row. */
  ghost function ShelfOf(t: map<int, Inventory>, biz: int, product: int, missing: int): int {
    match FindInventory(t, biz, product)
    case None => missing
    case Some(i) => i
  }

  ghost function LineChanges(t: map<int, Inventory>, biz: int, lines: seq<Line>, sign: int, missing: int): seq<Change> {
    if lines == [] then []
    else
      var line := lines[|lines| - 1];
      LineChanges(t, biz, lines[..|lines| - 1], sign, missing)
        + [Change(ShelfOf(t, biz, line.product, missing), sign * line.quantity)]
  }

  /** The steps the call becomes in the interleaved model. */
  ghost function ProgramOf(t: map<int, Inventory>, job: Job, missing: int): seq<Change> {
    match job
    case OfRow(biz, id, delta, _, _) => [Change(if id in t && t[id].biz == biz then id else missing, delta)]
    case OfLines(biz, lines, sign, _) => LineChanges(t, biz, lines, sign, missing)
  }

  /** Staged and running alone come to the same. */
  ghost predicate Agree(db: DB, r: Staged, b: Option<Books>, t: nat) {
    && (r.Staged? <==> b.Some?)
    && (r.Staged? ==>
          && StockSound(r.db) && SameShelves(db.inventories, r.db.inventories)
          && db.movements <= r.db.movements
          && b.value == Books(Quantities(r.db.inventories), RowsOf(r.db.movements[|db.movements|..], t)))
  }

  lemma RowsOfConcat(a: seq<Movement>, b: seq<Movement>, t: nat)
    ensures RowsOf(a + b, t) == RowsOf(a, t) + RowsOf(b, t)
  {}

  /** One locked change. */
  lemma MoveAgrees(db: DB, id: int, delta: int, kind: MovementType, actor: Option<int>)
    requires StockSound(db) && id in db.inventories && delta != 0
    ensures var r := Move(db, id, delta, kind, actor);
            var left := Quantities(db.inventories)[id] + delta;
            && (r.Staged? <==> left >= 0)
            && (r.Staged? ==>
                  && StockSound(r.db) && SameShelves(db.inventories, r.db.inventories)
                  && Quantities(r.db.inventories) == Quantities(db.inventories)[id := left]
                  && |r.db.movements| == |db.movements| + 1 && db.movements <= r.db.movements
                  && forall t :: RowsOf(r.db.movements[|db.movements|..], t) == [Row(t, id, delta, left)])
  {
    MoveKeepsStockSound(db, id, delta, kind, actor);
  }

  lemma SameShelvesThrough(a: map<int, Inventory>, b: map<int, Inventory>, c: map<int, Inventory>)
    requires SameShelves(a, b) && SameShelves(b, c)
    ensures SameShelves(a, c)
  {}

  lemma LineAgrees(db: DB, mid: DB, biz: int, line: Line, sign: int, actor: Option<int>, program: seq<Change>, t: nat,
                   missing: int, lows: seq<Event>)
    requires OneRowPerProduct(db.inventories) && missing !in db.inventories
    requires Agree(db, Staged.Staged(mid, lows), Serial(Quantities(db.inventories), t, program), t)
    ensures var c := Change(ShelfOf(db.inventories, biz, line.product, missing), sign * line.quantity);
            var r := Stage(mid, biz, line.product, sign * line.quantity, MovementKind(sign), actor);
            Agree(db, if r.Staged? then Staged.Staged(r.db, lows + r.lows) else r,
                  Serial(Quantities(db.inventories), t, program + [c]), t)
  {
    var delta := sign * line.quantity;
    var c := Change(ShelfOf(db.inventories, biz, line.product, missing), delta);
    assert (program + [c])[..|program|] == program;
    LookupsAgree(db.inventories, mid.inventories, biz, line.product);
    hide StockSound, OneRowPerProduct, Move, SameShelves;
    var found := FindInventory(mid.inventories, biz, line.product);
    if found.Some? && delta != 0 {
      MoveAgrees(mid, found.value, delta, MovementKind(sign), actor);
      var r := Move(mid, found.value, delta, MovementKind(sign), actor);
      if r.Staged? {
        SameShelvesThrough(db.inventories, mid.inventories, r.db.inventories);
        var n, m := |db.movements|, |mid.movements|;
        assert r.db.movements[n..] == mid.movements[n..] + r.db.movements[m..];
        RowsOfConcat(mid.movements[n..], r.db.movements[m..], t);
      }
    }
  }

  lemma NothingStaged(db: DB, t: nat)
    requires StockSound(db)
    ensures Agree(db, Staged.Staged(db, []), Serial(Quantities(db.inventories), t, []), t)
  {
    assert db.movements[|db.movements|..] == [];
  }

  lemma OneRowOfSound(db: DB)
    requires StockSound(db)
    ensures OneRowPerProduct(db.inventories)
  {}

  /** The service's loop over lines is the transaction's program run alone. */
  lemma {:induction false} LinesAgree(db: DB, biz: int, lines: seq<Line>, sign: int, actor: Option<int>, t: nat,
                                      missing: int)
    requires StockSound(db) && missing !in db.inventories
    ensures Agree(db, StageLines(db, biz, lines, sign, actor),
                  Serial(Quantities(db.inventories), t, LineChanges(db.inventories, biz, lines, sign, missing)), t)
  {
    hide StockSound, Agree, Stage, ShelfOf, Quantities, Serial, OneRowPerProduct, MovementKind;
    if lines == [] {
      NothingStaged(db, t);
    } else {
      var line, shorter := lines[|lines| - 1], lines[..|lines| - 1];
      LinesAgree(db, biz, shorter, sign, actor, t, missing);
      var before := StageLines(db, biz, shorter, sign, actor);
      var program := LineChanges(db.inventories, biz, shorter, sign, missing);
      OneRowOfSound(db);
      if before.Staged? {
        LineAgrees(db, before.db, biz, line, sign, actor, program, t, missing, before.lows);
      } else {
        RefusedStays(db, before.error, program,
                     Change(ShelfOf(db.inventories, biz, line.product, missing), sign * line.quantity), t);
      }
    }
  }

  lemma RefusedStays(db: DB, error: Error, program: seq<Change>, c: Change, t: nat)
    requires Agree(db, Staged.Refused(error), Serial(Quantities(db.inventories), t, program), t)
    ensures Agree(db, Staged.Refused(error), Serial(Quantities(db.inventories), t, program + [c]), t)
  {
    assert (program + [c])[..|program|] == program;
  }

  lemma RowAgrees(db: DB, biz: int, id: int, delta: int, kind: MovementType, actor: Option<int>, t: nat, missing: int)
    requires StockSound(db) && missing !in db.inventories
    ensures var job := OfRow(biz, id, delta, kind, actor);
            Agree(db, StageJob(db, job),
                  Serial(Quantities(db.inventories), t, ProgramOf(db.inventories, job, missing)), t)
  {
    hide StockSound, Move;
    var program := ProgramOf(db.inventories, OfRow(biz, id, delta, kind, actor), missing);
    assert program[..0] == [];
    if HasInventory(db, biz, id) && delta != 0 {
      MoveAgrees(db, id, delta, kind, actor);
    }
  }

  /** A stock-changing call of the services, staged alone, is its transaction's program run alone: accepted
      alike, with the same quantities and the same movements. */
  lemma JobAgrees(db: DB, job: Job, t: nat, missing: int)
    requires StockSound(db) && missing !in db.inventories
    ensures Agree(db, StageJob(db, job),
                  Serial(Quantities(db.inventories), t, ProgramOf(db.inventories, job, missing)), t)
  {
    match job
    case OfRow(biz, id, delta, kind, actor) => RowAgrees(db, biz, id, delta, kind, actor, t, missing);
    case OfLines(biz, lines, sign, actor) => LinesAgree(db, biz, lines, sign, actor, t, missing);
  }

  lemma ProgramKept(a: map<int, Inventory>, b: map<int, Inventory>, job: Job, missing: int)
    requires SameShelves(a, b) && OneRowPerProduct(a)
    ensures ProgramOf(a, job, missing) == ProgramOf(b, job, missing)
  {
    if job.OfLines? {
      LineChangesKept(a, b, job.biz, job.lines, job.sign, missing);
    }
  }

  lemma {:induction false} LineChangesKept(a: map<int, Inventory>, b: map<int, Inventory>, biz: int, lines: seq<Line>,
                                           sign: int, missing: int)
    requires SameShelves(a, b) && OneRowPerProduct(a)
    ensures LineChanges(a, biz, lines, sign, missing) == LineChanges(b, biz, lines, sign, missing)
  {
    if lines != [] {
      LineChangesKept(a, b, biz, lines[..|lines| - 1], sign, missing);
      LookupsAgree(a, b, biz, lines[|lines| - 1].product);
    }
  }

  // ----- whole runs -----

  /** The listed calls staged one after the other; none when one is refused. */
  ghost function StageOrder(db: DB, jobs: seq<Job>, order: seq<nat>): Option<DB>
    requires forall i | 0 <= i < |order| :: order[i] < |jobs|
  {
    if order == [] then Some(db)
    else
      match StageOrder(db, jobs, order[..|order| - 1])
      case None => None
      case Some(mid) =>
        match StageJob(mid, jobs[order[|order| - 1]])
        case Refused(_) => None
        case Staged(next, _) => Some(next)
  }

  /** Movements without the transaction they came from. */
  function Bare(rows: seq<Row>): seq<Row> {
    seq(|rows|, i requires 0 <= i < |rows| => rows[i].(txn := 0))
  }

  ghost predicate RunsJobs(t: map<int, Inventory>, jobs: seq<Job>, txns: seq<Txn>, missing: int) {
    |jobs| == |txns| && forall i | 0 <= i < |txns| :: txns[i].program == ProgramOf(t, jobs[i], missing)
  }

  ghost predicate SameBooks(db: DB, r: Option<DB>, b: Option<Books>) {
    && (r.Some? <==> b.Some?)
    && (r.Some? ==>
          && StockSound(r.value) && SameShelves(db.inventories, r.value.inventories)
          && db.movements <= r.value.movements
          && b.value.quantities == Quantities(r.value.inventories)
          && Bare(b.value.rows) == RowsOf(r.value.movements[|db.movements|..], 0))
  }

  lemma OneMoreJob(db: DB, mid: DB, rows: seq<Row>, job: Job, t: nat, missing: int)
    requires StockSound(db) && missing !in db.inventories
    requires SameBooks(db, Some(mid), Some(Books(Quantities(mid.inventories), rows)))
    ensures var r := StageJob(mid, job);
            var b := Serial(Quantities(mid.inventories), t, ProgramOf(db.inventories, job, missing));
            SameBooks(db, if r.Staged? then Some(r.db) else None,
                      if b.Some? then Some(Books(b.value.quantities, rows + b.value.rows)) else None)
  {
    OneRowOfSound(db);
    ProgramKept(db.inventories, mid.inventories, job, missing);
    JobAgrees(mid, job, t, missing);
    hide StockSound, StageJob, Serial, ProgramOf, OneRowPerProduct;
    var r := StageJob(mid, job);
    if r.Staged? {
      SameShelvesThrough(db.inventories, mid.inventories, r.db.inventories);
      var n, m := |db.movements|, |mid.movements|;
      assert r.db.movements[n..] == mid.movements[n..] + r.db.movements[m..];
      RowsOfConcat(mid.movements[n..], r.db.movements[m..], 0);
      BareConcat(rows, RowsOf(r.db.movements[m..], t));
      assert Bare(RowsOf(r.db.movements[m..], t)) == RowsOf(r.db.movements[m..], 0);
    }
  }

  lemma BareConcat(a: seq<Row>, b: seq<Row>)
    ensures Bare(a + b) == Bare(a) + Bare(b)
  {}

  lemma NothingReplayed(db: DB)
    requires StockSound(db)
    ensures SameBooks(db, Some(db), Some(Books(Quantities(db.inventories), [])))
  {
    assert db.movements[|db.movements|..] == [];
  }

  /** Serial replay of transactions is staging their calls one after the other. */
  lemma {:induction false} ReplayIsStaging(db: DB, jobs: seq<Job>, txns: seq<Txn>, order: seq<nat>, missing: int)
    requires StockSound(db) && missing !in db.inventories
    requires Listed(txns, order) && RunsJobs(db.inventories, jobs, txns, missing)
    ensures SameBooks(db, StageOrder(db, jobs, order), SerialReplay(Quantities(db.inventories), txns, order))
  {
    if order == [] {
      NothingReplayed(db);
    } else {
      var shorter, t := order[..|order| - 1], order[|order| - 1];
      ReplayIsStaging(db, jobs, txns, shorter, missing);
      var mid, b := StageOrder(db, jobs, shorter), SerialReplay(Quantities(db.inventories), txns, shorter);
      hide StockSound, StageJob, Serial, ProgramOf, Bare, RowsOf, Quantities, SameShelves;
      if mid.Some? {
        OneMoreJob(db, mid.value, b.value.rows, jobs[t], t, missing);
      }
    }
  }

  /** However stock-changing calls of the services interleave and abort, the committed quantities and movements
      are those of staging the committed calls one after the other in commit order, none of them refused. */
  lemma InterleavingIsStaging(db: DB, jobs: seq<Job>, actions: seq<Action>, missing: int)
    requires StockSound(db) && missing !in db.inventories
    requires RunsJobs(db.inventories, jobs, Run(Quantities(db.inventories), actions).txns, missing)
    ensures var s := Run(Quantities(db.inventories), actions);
            && Listed(s.txns, s.order)
            && var staged := StageOrder(db, jobs, s.order);
            && staged.Some? && Quantities(staged.value.inventories) == s.quantities
            && db.movements <= staged.value.movements
            && RowsOf(staged.value.movements[|db.movements|..], 0) == Bare(Plain(s.log))
  {
    var q := Quantities(db.inventories);
    var s := Run(q, actions);
    EveryRunSerializable(q, actions);
    hide Run, SerialReplay, StageOrder;
    ReplayIsStaging(db, jobs, s.txns, s.order, missing);
  }
}
