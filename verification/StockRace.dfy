/** Stock transactions interleaved step by step: row locks, private writes, a shared movement-id
    sequence, commits and aborts at any point (app/inventory/service.py, app/inventory/repository.py). */
module StockRace {
  import opened Options
  import opened Permutations

  /** One locked read-modify-write of an inventory row: `adjust_stock` is a program of one change,
      an order's confirmation or cancellation one change per line. */
  datatype Change = Change(shelf: int, delta: int)

  /** A movement row; `id` is drawn from the table's sequence when it is inserted. */
  datatype Entry = Entry(id: nat, txn: nat, shelf: int, delta: int, resulting: int)

  datatype Phase = Running | Committed | Refused | Aborted

  /** `seen` is the quantity read under the row lock for the change in hand; `overlay` and `entries`
      are flushed but visible to no one else. */
  datatype Txn = Txn(program: seq<Change>, done: nat, seen: Option<int>, overlay: map<int, int>,
                     entries: seq<Entry>, phase: Phase)

  /** `order` lists the committed transactions in commit order. */
  datatype State = State(quantities: map<int, int>, log: seq<Entry>, locks: map<int, nat>, nextId: nat,
                         txns: seq<Txn>, order: seq<nat>)

  datatype Action =
    | Begin(program: seq<Change>)
    | Lock(txn: nat)    // SELECT ... FOR UPDATE; blocked while another transaction holds the row
    | Write(txn: nat)   // check, update, insert the movement
    | Commit(txn: nat)
    | Abort(txn: nat)   // deadlock victim, lost connection, failed commit: at any time

  function Start(quantities: map<int, int>): State {
    State(quantities, [], map[], 0, [], [])
  }

  predicate Active(s: State, t: nat) {
    t < |s.txns| && s.txns[t].phase == Running
  }

  predicate InHand(s: State, t: nat) {
    Active(s, t) && s.txns[t].done < |s.txns[t].program|
  }

  function Current(s: State, t: nat): Change
    requires InHand(s, t)
  {
    s.txns[t].program[s.txns[t].done]
  }

  function Visible(q: map<int, int>, overlay: map<int, int>, shelf: int): int
    requires shelf in q
  {
    if shelf in overlay then overlay[shelf] else q[shelf]
  }

  function Release(locks: map<int, nat>, t: nat): map<int, nat> {
    map p | p in locks && locks[p] != t :: locks[p]
  }

  /** A rollback: the transaction's writes vanish with its locks; the ids it drew stay drawn. */
  function End(s: State, t: nat, phase: Phase): State
    requires t < |s.txns|
  {
    s.(locks := Release(s.locks, t), txns := s.txns[t := s.txns[t].(phase := phase)])
  }

  function LockStep(s: State, t: nat): State
    requires InHand(s, t)
  {
    var p := Current(s, t).shelf;
    if p !in s.quantities || (p in s.locks && s.locks[p] != t) then s
    else s.(locks := s.locks[p := t],
            txns := s.txns[t := s.txns[t].(seen := Some(Visible(s.quantities, s.txns[t].overlay, p)))])
  }

  function WriteStep(s: State, t: nat): State
    requires InHand(s, t)
  {
    var x, c := s.txns[t], Current(s, t);
    if c.delta == 0 || c.shelf !in s.quantities then End(s, t, Refused)
    else if x.seen.None? then s
    else
      var quantity := x.seen.value + c.delta;
      if quantity < 0 then End(s, t, Refused)
      else s.(nextId := s.nextId + 1,
              txns := s.txns[t := x.(done := x.done + 1, seen := None,
                                     overlay := x.overlay[c.shelf := quantity],
                                     entries := x.entries + [Entry(s.nextId, t, c.shelf, c.delta, quantity)])])
  }

  function CommitStep(s: State, t: nat): State
    requires Active(s, t)
  {
    End(s, t, Committed).(quantities := s.quantities + s.txns[t].overlay,
                          log := s.log + s.txns[t].entries, order := s.order + [t])
  }

  /** One step; an action that is not enabled changes nothing. */
  function Next(s: State, a: Action): State {
    match a
    case Begin(program) => s.(txns := s.txns + [Txn(program, 0, None, map[], [], Running)])
    case Lock(t) => if InHand(s, t) then LockStep(s, t) else s
    case Write(t) => if InHand(s, t) then WriteStep(s, t) else s
    case Commit(t) => if Active(s, t) && s.txns[t].done == |s.txns[t].program| then CommitStep(s, t) else s
    case Abort(t) => if Active(s, t) then End(s, t, Aborted) else s
  }

  function Run(quantities: map<int, int>, actions: seq<Action>): State {
    if actions == [] then Start(quantities)
    else Next(Run(quantities, actions[..|actions| - 1]), actions[|actions| - 1])
  }

  // ----- the reference: one transaction at a time -----

  /** A movement without its id. */
  datatype Row = Row(txn: nat, shelf: int, delta: int, resulting: int)

  datatype Books = Books(quantities: map<int, int>, rows: seq<Row>)

  /** A program run alone; none when it is refused. */
  function Serial(q: map<int, int>, t: nat, program: seq<Change>): Option<Books> {
    if program == [] then Some(Books(q, []))
    else
      var c := program[|program| - 1];
      match Serial(q, t, program[..|program| - 1])
      case None => None
      case Some(b) =>
        if c.delta == 0 || c.shelf !in b.quantities || b.quantities[c.shelf] + c.delta < 0 then None
        else
          var quantity := b.quantities[c.shelf] + c.delta;
          Some(Books(b.quantities[c.shelf := quantity], b.rows + [Row(t, c.shelf, c.delta, quantity)]))
  }

  predicate Listed(txns: seq<Txn>, order: seq<nat>) {
    forall i | 0 <= i < |order| :: order[i] < |txns|
  }

  /** The listed transactions, one after the other. */
  function SerialReplay(q: map<int, int>, txns: seq<Txn>, order: seq<nat>): Option<Books>
    requires Listed(txns, order)
  {
    if order == [] then Some(Books(q, []))
    else
      var t := order[|order| - 1];
      match SerialReplay(q, txns, order[..|order| - 1])
      case None => None
      case Some(b) =>
        match Serial(b.quantities, t, txns[t].program)
        case None => None
        case Some(more) => Some(Books(more.quantities, b.rows + more.rows))
  }

  function Plain(entries: seq<Entry>): seq<Row> {
    seq(|entries|, i requires 0 <= i < |entries| =>
      Row(entries[i].txn, entries[i].shelf, entries[i].delta, entries[i].resulting))
  }

  lemma PlainConcat(a: seq<Entry>, b: seq<Entry>)
    ensures Plain(a + b) == Plain(a) + Plain(b)
  {}

  // ----- what every reachable state satisfies -----

  /** The quantities two tables give a program's rows are the same. */
  predicate AgreeOn(q: map<int, int>, r: map<int, int>, program: seq<Change>) {
    forall c | c in program :: c.shelf in q && c.shelf in r && q[c.shelf] == r[c.shelf]
  }

  /** Running a program over agreeing tables: same rows, same values on its rows, others untouched. */
  lemma {:induction false} SerialLocal(q: map<int, int>, r: map<int, int>, t: nat, program: seq<Change>)
    requires AgreeOn(q, r, program)
    ensures var a, b := Serial(q, t, program), Serial(r, t, program);
            && (a.Some? <==> b.Some?)
            && (a.Some? ==>
                  && a.value.rows == b.value.rows
                  && a.value.quantities.Keys == q.Keys && b.value.quantities.Keys == r.Keys
                  && (forall p | p in q && !Touched(program, p) :: a.value.quantities[p] == q[p])
                  && (forall p | p in r && !Touched(program, p) :: b.value.quantities[p] == r[p])
                  && (forall p | p in q && p in r && q[p] == r[p] :: a.value.quantities[p] == b.value.quantities[p]))
  {
    if program != [] {
      SerialLocal(q, r, t, program[..|program| - 1]);
      assert program[|program| - 1] in program;
    }
  }

  predicate Touched(program: seq<Change>, p: int) {
    exists c | c in program :: c.shelf == p
  }

  /** What a program makes of its own rows does not depend on other rows. */
  lemma SerialFrame(q: map<int, int>, r: map<int, int>, t: nat, program: seq<Change>,
                    overlay: map<int, int>, rows: seq<Row>)
    requires AgreeOn(q, r, program) && Serial(q, t, program) == Some(Books(q + overlay, rows))
    requires forall p | p in overlay :: Touched(program, p)
    ensures Serial(r, t, program) == Some(Books(r + overlay, rows))
  {
    SerialLocal(q, r, t, program);
    var b := Serial(r, t, program).value;
    assert forall p | Touched(program, p) :: p in q && p in r && q[p] == r[p];
    forall p | p in r ensures b.quantities[p] == (r + overlay)[p] {
      if Touched(program, p) {
        assert b.quantities[p] == (q + overlay)[p];
      }
    }
    assert b.quantities.Keys == (r + overlay).Keys by {
      assert forall p | p in overlay :: p in r;
    }
    assert b.quantities == r + overlay;
  }

  predicate Holds(locks: map<int, nat>, t: nat, p: int) {
    p in locks && locks[p] == t
  }

  /** A running transaction holds every row it wrote, and has done to them exactly what it would
      have done running alone on the committed tables. */
  ghost predicate Isolated(q: map<int, int>, locks: map<int, nat>, t: nat, x: Txn) {
    && x.done <= |x.program|
    && (forall c | c in x.program[..x.done] :: Holds(locks, t, c.shelf) && c.shelf in q)
    && (forall p | p in x.overlay :: Touched(x.program[..x.done], p))
    && Serial(q, t, x.program[..x.done]) == Some(Books(q + x.overlay, Plain(x.entries)))
    && (x.seen.Some? ==>
          && x.done < |x.program|
          && var p := x.program[x.done].shelf;
             Holds(locks, t, p) && p in q && x.seen.value == Visible(q, x.overlay, p))
  }

  ghost predicate AllIsolated(s: State) {
    forall t: nat | Active(s, t) :: Isolated(s.quantities, s.locks, t, s.txns[t])
  }

  ghost predicate Serializable(quantities: map<int, int>, s: State) {
    && Listed(s.txns, s.order)
    && SerialReplay(quantities, s.txns, s.order) == Some(Books(s.quantities, Plain(s.log)))
  }

  lemma {:induction false} ReplayFrame(q: map<int, int>, a: seq<Txn>, b: seq<Txn>, order: seq<nat>)
    requires Listed(a, order) && |a| <= |b| && forall t | 0 <= t < |a| :: a[t].program == b[t].program
    ensures SerialReplay(q, a, order) == SerialReplay(q, b, order)
  {
    if order != [] {
      ReplayFrame(q, a, b, order[..|order| - 1]);
    }
  }

  /** Another transaction's lock or release changes nothing for this one. */
  lemma LocksFrame(q: map<int, int>, locks: map<int, nat>, next: map<int, nat>, t: nat, x: Txn)
    requires Isolated(q, locks, t, x)
    requires forall p | Holds(locks, t, p) :: Holds(next, t, p)
    ensures Isolated(q, next, t, x)
  {}

  /** Another transaction's commit changes no row this one holds. */
  lemma CommitFrame(q: map<int, int>, locks: map<int, nat>, t: nat, x: Txn, u: nat, y: Txn)
    requires t != u && Isolated(q, locks, t, x) && Isolated(q, locks, u, y)
    ensures Isolated(q + y.overlay, Release(locks, u), t, x)
  {
    var r, program := q + y.overlay, x.program[..x.done];
    forall p | p in y.overlay ensures Holds(locks, u, p) {
      var c :| c in y.program[..y.done] && c.shelf == p;
    }
    assert forall p | Holds(locks, t, p) && p in q :: p in r && q[p] == r[p];
    assert AgreeOn(q, r, program);
    SerialFrame(q, r, t, program, x.overlay, Plain(x.entries));
  }

  lemma SerialExtends(q: map<int, int>, t: nat, program: seq<Change>, c: Change, overlay: map<int, int>, rows: seq<Row>)
    requires Serial(q, t, program) == Some(Books(q + overlay, rows))
    requires c.delta != 0 && c.shelf in q
    ensures Serial(q, t, program + [c])
         == (var v := Visible(q, overlay, c.shelf) + c.delta;
             if v < 0 then None
             else Some(Books(q + overlay[c.shelf := v], rows + [Row(t, c.shelf, c.delta, v)])))
  {
    assert (program + [c])[..|program|] == program;
    var v := Visible(q, overlay, c.shelf) + c.delta;
    assert (q + overlay)[c.shelf := v] == q + overlay[c.shelf := v];
  }

  lemma WriteIsolated(s: State, t: nat)
    requires InHand(s, t) && Isolated(s.quantities, s.locks, t, s.txns[t])
    ensures Active(WriteStep(s, t), t) ==>
              Isolated(s.quantities, s.locks, t, WriteStep(s, t).txns[t])
  {
    var x, c, y := s.txns[t], Current(s, t), WriteStep(s, t).txns[t];
    if y.done == x.done + 1 && y.phase == Running {
      assert x.program[..y.done] == x.program[..x.done] + [c];
      forall p | p in y.overlay ensures Touched(x.program[..y.done], p) {
        if p in x.overlay {
          var d :| d in x.program[..x.done] && d.shelf == p;
          assert d in x.program[..y.done];
        } else {
          assert c in x.program[..y.done];
        }
      }
      SerialExtends(s.quantities, t, x.program[..x.done], c, x.overlay, Plain(x.entries));
      hide Serial, Visible;
      assert Plain(y.entries) == Plain(x.entries) + [Row(t, c.shelf, c.delta, y.overlay[c.shelf])];
    }
  }

  lemma StepKeepsIsolation(s: State, a: Action)
    requires AllIsolated(s)
    ensures AllIsolated(Next(s, a))
  {
    var next := Next(s, a);
    hide Isolated, Serial, WriteStep, LockStep, CommitStep, End;
    match a
    case Begin(program) => {
      BeginIsolated(s, program);
    }
    case Lock(t) => {
      if InHand(s, t) {
        LockKeepsIsolation(s, t);
      }
    }
    case Write(t) => {
      if InHand(s, t) {
        WriteKeepsIsolation(s, t);
      }
    }
    case Commit(t) => {
      if Active(s, t) {
        CommitKeepsIsolation(s, t);
      }
    }
    case Abort(t) => {
      if Active(s, t) {
        EndKeepsIsolation(s, t, Aborted);
      }
    }
  }

  lemma BeginIsolated(s: State, program: seq<Change>)
    requires AllIsolated(s)
    ensures AllIsolated(Next(s, Begin(program)))
  {
    var next := Next(s, Begin(program));
    forall u: nat | Active(next, u) ensures Isolated(next.quantities, next.locks, u, next.txns[u]) {
      if u == |s.txns| {
        assert program[..0] == [] && Plain([]) == [];
        assert next.quantities + map[] == next.quantities;
      } else {
        assert Active(s, u);
      }
    }
  }

  lemma EndKeepsIsolation(s: State, t: nat, phase: Phase)
    requires AllIsolated(s) && Active(s, t) && phase != Running
    ensures AllIsolated(End(s, t, phase))
  {
    hide Isolated;
    var next := End(s, t, phase);
    forall u: nat | Active(next, u) ensures Isolated(next.quantities, next.locks, u, next.txns[u]) {
      assert Active(s, u);
      LocksFrame(s.quantities, s.locks, next.locks, u, s.txns[u]);
    }
  }

  lemma LockKeepsIsolation(s: State, t: nat)
    requires AllIsolated(s) && InHand(s, t)
    ensures AllIsolated(LockStep(s, t))
  {
    hide Serial;
    var next := LockStep(s, t);
    assert Isolated(s.quantities, s.locks, t, s.txns[t]);
    forall u: nat | Active(next, u) ensures Isolated(next.quantities, next.locks, u, next.txns[u]) {
      assert Active(s, u);
      if u != t {
        LocksFrame(s.quantities, s.locks, next.locks, u, s.txns[u]);
      }
    }
  }

  lemma WriteKeepsIsolation(s: State, t: nat)
    requires AllIsolated(s) && InHand(s, t)
    ensures AllIsolated(WriteStep(s, t))
  {
    hide Isolated, Serial;
    var next := WriteStep(s, t);
    if !Active(next, t) {
      EndKeepsIsolation(s, t, Refused);
    } else {
      WriteIsolated(s, t);
      forall u: nat | Active(next, u) ensures Isolated(next.quantities, next.locks, u, next.txns[u]) {
        assert Active(s, u);
      }
    }
  }

  lemma CommitKeepsIsolation(s: State, t: nat)
    requires AllIsolated(s) && Active(s, t)
    ensures AllIsolated(CommitStep(s, t))
  {
    hide Isolated, Serial;
    var next := CommitStep(s, t);
    forall u: nat | Active(next, u) ensures Isolated(next.quantities, next.locks, u, next.txns[u]) {
      assert Active(s, u);
      CommitFrame(s.quantities, s.locks, u, s.txns[u], t, s.txns[t]);
    }
  }

  // ----- serializability -----

  lemma StepKeepsSerializable(quantities: map<int, int>, s: State, a: Action)
    requires AllIsolated(s) && Serializable(quantities, s)
    ensures Serializable(quantities, Next(s, a))
  {
    hide Serial, SerialReplay, Isolated;
    var next := Next(s, a);
    ReplayFrame(quantities, s.txns, next.txns, s.order);
    if Commits(s, a) {
      CommitSerializable(quantities, s, a.txn);
    }
  }

  lemma CommitSerializable(quantities: map<int, int>, s: State, t: nat)
    requires Active(s, t) && s.txns[t].done == |s.txns[t].program|
    requires Isolated(s.quantities, s.locks, t, s.txns[t]) && Serializable(quantities, s)
    ensures Serializable(quantities, CommitStep(s, t))
  {
    var x, next := s.txns[t], CommitStep(s, t);
    assert x.program[..x.done] == x.program;
    ReplayFrame(quantities, s.txns, next.txns, s.order);
    assert next.order[..|next.order| - 1] == s.order;
    PlainConcat(s.log, x.entries);
    hide Serial;
  }

  /** Under every interleaving of locks, writes, commits and aborts, the committed quantities and
      movements are those of the committed transactions run one at a time in commit order. */
  lemma {:induction false} EveryRunSerializable(quantities: map<int, int>, actions: seq<Action>)
    ensures AllIsolated(Run(quantities, actions)) && Serializable(quantities, Run(quantities, actions))
  {
    if actions != [] {
      hide Next, AllIsolated, Serializable;
      EveryRunSerializable(quantities, actions[..|actions| - 1]);
      StepKeepsIsolation(Run(quantities, actions[..|actions| - 1]), actions[|actions| - 1]);
      StepKeepsSerializable(quantities, Run(quantities, actions[..|actions| - 1]), actions[|actions| - 1]);
    } else {
      assert Plain([]) == [];
    }
  }

  /** The commit order lists every committed transaction, once. */
  ghost predicate OrderComplete(s: State) {
    && (forall t: nat | t < |s.txns| :: s.txns[t].phase == Committed <==> t in s.order)
    && (forall t | t in s.order :: t < |s.txns|)
    && (forall i, j | 0 <= i < j < |s.order| :: s.order[i] != s.order[j])
  }

  predicate Commits(s: State, a: Action) {
    a.Commit? && Active(s, a.txn) && s.txns[a.txn].done == |s.txns[a.txn].program|
  }

  lemma OthersDoNotCommit(s: State, a: Action)
    requires !Commits(s, a)
    ensures var next := Next(s, a);
            && next.order == s.order && |s.txns| <= |next.txns|
            && forall t: nat | t < |next.txns| ::
                 next.txns[t].phase == Committed <==> t < |s.txns| && s.txns[t].phase == Committed
  {}

  lemma StepKeepsListed(s: State, a: Action)
    requires OrderComplete(s)
    ensures OrderComplete(Next(s, a))
  {
    if Commits(s, a) {
      var next := Next(s, a);
      assert forall t: nat :: t in next.order <==> t in s.order || t == a.txn;
    } else {
      OthersDoNotCommit(s, a);
      hide Next;
    }
  }

  lemma {:induction false} EveryCommitListed(quantities: map<int, int>, actions: seq<Action>)
    ensures OrderComplete(Run(quantities, actions))
  {
    if actions != [] {
      hide Next, OrderComplete;
      EveryCommitListed(quantities, actions[..|actions| - 1]);
      StepKeepsListed(Run(quantities, actions[..|actions| - 1]), actions[|actions| - 1]);
    }
  }

  // ----- a transaction nobody gets in the way of -----

  function Continue(s: State, actions: seq<Action>): State {
    if actions == [] then s else Next(Continue(s, actions[..|actions| - 1]), actions[|actions| - 1])
  }

  function Attempts(t: nat, n: nat): seq<Action> {
    if n == 0 then [] else Attempts(t, n - 1) + [Lock(t), Write(t)]
  }

  lemma ContinueTwo(s: State, actions: seq<Action>, a: Action, b: Action)
    ensures Continue(s, actions + [a, b]) == Next(Next(Continue(s, actions), a), b)
  {
    assert (actions + [a, b])[..|actions| + 1] == actions + [a];
    assert (actions + [a])[..|actions|] == actions;
    hide Next;
  }

  predicate RowsFree(locks: map<int, nat>, t: nat, program: seq<Change>) {
    forall c | c in program :: c.shelf in locks ==> locks[c.shelf] == t
  }

  /** Where a transaction stands after some of its changes, when no one else acted. */
  ghost predicate Solo(s: State, u: State, t: nat, n: nat)
    requires t < |s.txns|
  {
    && u.quantities == s.quantities && u.log == s.log && u.order == s.order && |u.txns| == |s.txns|
    && var x := u.txns[t];
    && x.program == s.txns[t].program && n <= |x.program|
    && match Serial(s.quantities, t, x.program[..n])
       case None => x.phase == Refused
       case Some(b) =>
         && x.phase == Running && x.done == n && x.seen == None && RowsFree(u.locks, t, x.program)
         && b == Books(s.quantities + x.overlay, Plain(x.entries))
  }

  /** One change of a transaction whose row is free. */
  lemma LockThenWrite(u: State, t: nat)
    requires InHand(u, t) && u.txns[t].seen == None && RowsFree(u.locks, t, u.txns[t].program)
    ensures var w := Next(Next(u, Lock(t)), Write(t));
            var x, c := u.txns[t], Current(u, t);
            && w.quantities == u.quantities && w.log == u.log && w.order == u.order && |w.txns| == |u.txns|
            && if c.delta == 0 || c.shelf !in u.quantities || Visible(u.quantities, x.overlay, c.shelf) + c.delta < 0
               then w.txns[t] == x.(phase := Refused, seen := w.txns[t].seen)
               else
                 var v := Visible(u.quantities, x.overlay, c.shelf) + c.delta;
                 && w.txns[t] == x.(done := x.done + 1, overlay := x.overlay[c.shelf := v],
                                    entries := x.entries + [Entry(u.nextId, t, c.shelf, c.delta, v)])
                 && RowsFree(w.locks, t, x.program)
  {
    assert Current(u, t) in u.txns[t].program;
  }

  lemma SoloWrites(s: State, u: State, t: nat, n: nat)
    requires t < |s.txns| && Solo(s, u, t, n) && n < |u.txns[t].program| && u.txns[t].phase == Running
    ensures Solo(s, Next(Next(u, Lock(t)), Write(t)), t, n + 1)
  {
    var x := u.txns[t];
    var c, before := x.program[n], x.program[..n];
    LockThenWrite(u, t);
    hide Next, RowsFree;
    assert x.program[..n + 1] == before + [c];
    if c.delta == 0 || c.shelf !in s.quantities {
      ImpossibleChange(s.quantities, t, before, c);
    } else {
      SerialExtends(s.quantities, t, before, c, x.overlay, Plain(x.entries));
      hide Serial;
      var v := Visible(s.quantities, x.overlay, c.shelf) + c.delta;
      PlainConcat(x.entries, [Entry(u.nextId, t, c.shelf, c.delta, v)]);
    }
  }

  lemma SoloChange(s: State, u: State, t: nat, n: nat)
    requires t < |s.txns| && Solo(s, u, t, n) && n < |u.txns[t].program|
    ensures Solo(s, Next(Next(u, Lock(t)), Write(t)), t, n + 1)
  {
    if u.txns[t].phase == Running {
      hide Solo, Next;
      SoloWrites(s, u, t, n);
    } else {
      var program := u.txns[t].program;
      assert program[..n + 1][..n] == program[..n];
      LongerStillRefused(s.quantities, t, program[..n + 1], n);
    }
  }

  lemma {:induction false} SoloChanges(s: State, t: nat, n: nat)
    requires t < |s.txns| && Solo(s, s, t, 0) && n <= |s.txns[t].program|
    ensures Solo(s, Continue(s, Attempts(t, n)), t, n)
  {
    if n > 0 {
      hide Solo, Next;
      SoloChanges(s, t, n - 1);
      SoloProgram(s, Continue(s, Attempts(t, n - 1)), t, n - 1);
      SoloChange(s, Continue(s, Attempts(t, n - 1)), t, n - 1);
      ContinueTwo(s, Attempts(t, n - 1), Lock(t), Write(t));
    }
  }

  lemma SoloProgram(s: State, u: State, t: nat, n: nat)
    requires t < |s.txns| && Solo(s, u, t, n)
    ensures t < |u.txns| && u.txns[t].program == s.txns[t].program
  {}

  /** A transaction whose rows are free commits exactly when running alone accepts it, and then leaves
      exactly what running alone leaves; otherwise it leaves nothing. */
  lemma UndisturbedRunsAsAlone(s: State, program: seq<Change>)
    requires RowsFree(s.locks, |s.txns|, program)
    ensures var t := |s.txns|;
            var end := Next(Continue(Next(s, Begin(program)), Attempts(t, |program|)), Commit(t));
            && t < |end.txns|
            && match Serial(s.quantities, t, program)
               case None => end.txns[t].phase == Refused && end.quantities == s.quantities && end.log == s.log
               case Some(b) =>
                 && end.txns[t].phase == Committed && end.quantities == b.quantities
                 && Plain(end.log) == Plain(s.log) + b.rows && end.order == s.order + [t]
  {
    var t, begun := |s.txns|, Next(s, Begin(program));
    assert program[..0] == [] && Plain([]) == [] && s.quantities + map[] == s.quantities;
    SoloChanges(begun, t, |program|);
    assert program[..|program|] == program;
    var u := Continue(begun, Attempts(t, |program|));
    PlainConcat(s.log, u.txns[t].entries);
    hide Serial, Continue, Attempts, Plain;
  }

  // ----- what follows for quantities -----

  predicate NonNegative(q: map<int, int>) {
    forall p | p in q :: q[p] >= 0
  }

  lemma {:induction false} SerialNonNegative(q: map<int, int>, t: nat, program: seq<Change>)
    requires NonNegative(q)
    ensures var r := Serial(q, t, program);
            r.Some? ==> NonNegative(r.value.quantities) && r.value.quantities.Keys == q.Keys
                        && forall x | x in r.value.rows :: x.resulting >= 0 && x.delta != 0
  {
    if program != [] {
      SerialNonNegative(q, t, program[..|program| - 1]);
    }
  }

  lemma {:induction false} ReplayNonNegative(q: map<int, int>, txns: seq<Txn>, order: seq<nat>)
    requires Listed(txns, order) && NonNegative(q)
    ensures var r := SerialReplay(q, txns, order);
            r.Some? ==> NonNegative(r.value.quantities) && r.value.quantities.Keys == q.Keys
                        && forall x | x in r.value.rows :: x.resulting >= 0 && x.delta != 0
  {
    if order != [] {
      ReplayNonNegative(q, txns, order[..|order| - 1]);
      var b := SerialReplay(q, txns, order[..|order| - 1]);
      if b.Some? {
        var t := order[|order| - 1];
        SerialNonNegative(b.value.quantities, t, txns[t].program);
      }
    }
  }

  /** No committed quantity and no recorded movement is ever negative, however the steps interleave. */
  lemma StockNeverNegative(quantities: map<int, int>, actions: seq<Action>)
    requires NonNegative(quantities)
    ensures var s := Run(quantities, actions);
            && NonNegative(s.quantities) && s.quantities.Keys == quantities.Keys
            && forall e | e in s.log :: e.resulting >= 0 && e.delta != 0
  {
    var s := Run(quantities, actions);
    EveryRunSerializable(quantities, actions);
    ReplayNonNegative(quantities, s.txns, s.order);
    forall e | e in s.log ensures e.resulting >= 0 && e.delta != 0 {
      var i :| 0 <= i < |s.log| && s.log[i] == e;
      assert Plain(s.log)[i] in Plain(s.log);
    }
  }

  lemma {:induction false} LongerStillRefused(q: map<int, int>, t: nat, program: seq<Change>, n: nat)
    requires n <= |program| && Serial(q, t, program[..n]).None?
    ensures Serial(q, t, program).None?
    decreases |program|
  {
    if n < |program| {
      assert program[..|program| - 1][..n] == program[..n];
      LongerStillRefused(q, t, program[..|program| - 1], n);
    } else {
      assert program[..n] == program;
    }
  }

  lemma {:induction false} SerialKeys(q: map<int, int>, t: nat, program: seq<Change>)
    ensures var r := Serial(q, t, program); r.Some? ==> r.value.quantities.Keys == q.Keys
  {
    if program != [] {
      SerialKeys(q, t, program[..|program| - 1]);
    }
  }

  lemma ImpossibleChange(q: map<int, int>, t: nat, program: seq<Change>, c: Change)
    requires c.delta == 0 || c.shelf !in q
    ensures Serial(q, t, program + [c]).None?
  {
    assert (program + [c])[..|program|] == program;
    SerialKeys(q, t, program);
  }

  lemma WriteRefused(s: State, t: nat)
    requires InHand(s, t) && Isolated(s.quantities, s.locks, t, s.txns[t])
    requires WriteStep(s, t).txns[t].phase == Refused
    ensures Serial(s.quantities, t, s.txns[t].program[..s.txns[t].done + 1]).None?
  {
    var x, c := s.txns[t], Current(s, t);
    assert x.program[..x.done + 1] == x.program[..x.done] + [c];
    if c.delta == 0 || c.shelf !in s.quantities {
      ImpossibleChange(s.quantities, t, x.program[..x.done], c);
    } else {
      SerialExtends(s.quantities, t, x.program[..x.done], c, x.overlay, Plain(x.entries));
    }
  }

  /** A transaction is refused only when, run alone on the committed tables of that moment, it would be
      refused too: no uncommitted write of another transaction ever causes a refusal. */
  lemma RefusalsJustified(quantities: map<int, int>, actions: seq<Action>, t: nat)
    requires InHand(Run(quantities, actions), t)
    requires Next(Run(quantities, actions), Write(t)).txns[t].phase == Refused
    ensures var s := Run(quantities, actions); Serial(s.quantities, t, s.txns[t].program).None?
  {
    var s := Run(quantities, actions);
    EveryRunSerializable(quantities, actions);
    hide Run, Serial, Isolated, Serializable, WriteStep;
    WriteRefused(s, t);
    LongerStillRefused(s.quantities, t, s.txns[t].program, s.txns[t].done + 1);
  }

  // ----- histories -----

  /** `list_for_inventory`: one row's movements, here in commit order. */
  function OfShelf(log: seq<Entry>, p: int): seq<Entry> {
    if log == [] then []
    else OfShelf(log[..|log| - 1], p) + (if log[|log| - 1].shelf == p then [log[|log| - 1]] else [])
  }

  predicate ById(rows: seq<Entry>) {
    forall i, j | 0 <= i < j < |rows| :: rows[i].id < rows[j].id
  }

  /** Each quantity is the one before it, or the initial one, plus its delta; the last is `end`. */
  predicate Chain(start: int, rows: seq<Entry>, end: int) {
    if rows == [] then start == end
    else rows[|rows| - 1].resulting == end && Chain(start, rows[..|rows| - 1], end - rows[|rows| - 1].delta)
  }

  lemma {:induction false} OfShelfConcat(a: seq<Entry>, b: seq<Entry>, p: int)
    ensures OfShelf(a + b, p) == OfShelf(a, p) + OfShelf(b, p)
  {
    if b == [] {
      assert a + b == a;
    } else {
      OfShelfConcat(a, b[..|b| - 1], p);
      assert (a + b)[..|a + b| - 1] == a + b[..|b| - 1];
    }
  }

  lemma {:induction false} OfShelfMembers(log: seq<Entry>, p: int)
    ensures forall e :: e in OfShelf(log, p) <==> e in log && e.shelf == p
  {
    if log != [] {
      OfShelfMembers(log[..|log| - 1], p);
      assert forall e :: e in log <==> e in log[..|log| - 1] || e == log[|log| - 1];
    }
  }

  lemma {:induction false} OfShelfKeepsOrder(log: seq<Entry>, p: int)
    requires ById(log)
    ensures ById(OfShelf(log, p))
  {
    if log != [] {
      OfShelfKeepsOrder(log[..|log| - 1], p);
      OfShelfMembers(log[..|log| - 1], p);
      forall e | e in log[..|log| - 1] ensures e.id < log[|log| - 1].id {
        var i :| 0 <= i < |log| - 1 && log[i] == e;
      }
    }
  }

  ghost predicate DrawnBefore(rows: seq<Entry>, n: nat) {
    forall e | e in rows :: e.id < n
  }

  /** Ids come from the sequence, and a running transaction's ids on a row follow all committed ones. */
  ghost predicate IdsInOrder(s: State) {
    && DrawnBefore(s.log, s.nextId)
    && (forall p :: ById(OfShelf(s.log, p)))
    && (forall t: nat | Active(s, t) :: DrawnBefore(s.txns[t].entries, s.nextId) && ById(s.txns[t].entries))
    && (forall t: nat | Active(s, t) :: OnHeldRows(s, t))
  }

  ghost predicate OnHeldRows(s: State, t: nat)
    requires t < |s.txns|
  {
    forall e | e in s.txns[t].entries ::
      Holds(s.locks, t, e.shelf) && forall d | d in s.log && d.shelf == e.shelf :: d.id < e.id
  }

  lemma CommitKeepsOrder(s: State, t: nat)
    requires IdsInOrder(s) && Active(s, t)
    ensures IdsInOrder(CommitStep(s, t))
  {
    var next, entries := CommitStep(s, t), s.txns[t].entries;
    assert OnHeldRows(s, t);
    forall p ensures ById(OfShelf(next.log, p)) {
      OfShelfConcat(s.log, entries, p);
      OfShelfMembers(s.log, p);
      OfShelfMembers(entries, p);
      OfShelfKeepsOrder(entries, p);
      var a, b := OfShelf(s.log, p), OfShelf(entries, p);
      forall i, j | 0 <= i < |a| && 0 <= j < |b| ensures a[i].id < b[j].id {
        assert a[i] in a && b[j] in b;
      }
    }
    forall u: nat | Active(next, u)
      ensures DrawnBefore(next.txns[u].entries, next.nextId) && ById(next.txns[u].entries) && OnHeldRows(next, u)
    {
      assert Active(s, u) && OnHeldRows(s, u);
    }
  }

  lemma WriteKeepsOrder(s: State, t: nat)
    requires IdsInOrder(s) && InHand(s, t) && Isolated(s.quantities, s.locks, t, s.txns[t])
    ensures IdsInOrder(WriteStep(s, t))
  {
    hide Serial, OfShelf;
    var next := WriteStep(s, t);
    forall u: nat | Active(next, u)
      ensures DrawnBefore(next.txns[u].entries, next.nextId) && ById(next.txns[u].entries) && OnHeldRows(next, u)
    {
      assert Active(s, u) && OnHeldRows(s, u);
    }
  }

  lemma StepKeepsOrder(s: State, a: Action)
    requires IdsInOrder(s) && AllIsolated(s)
    ensures IdsInOrder(Next(s, a))
  {
    hide Isolated, OfShelf, WriteStep, CommitStep;
    var next := Next(s, a);
    if Commits(s, a) {
      CommitKeepsOrder(s, a.txn);
    } else if a.Write? && InHand(s, a.txn) {
      WriteKeepsOrder(s, a.txn);
    } else {
      forall u: nat | Active(next, u)
        ensures DrawnBefore(next.txns[u].entries, next.nextId) && ById(next.txns[u].entries) && OnHeldRows(next, u)
      {
        assert u < |s.txns| ==> Active(s, u) && OnHeldRows(s, u);
      }
    }
  }

  lemma {:induction false} ChainConcat(start: int, a: seq<Entry>, mid: int, b: seq<Entry>, end: int)
    requires Chain(start, a, mid) && Chain(mid, b, end)
    ensures Chain(start, a + b, end)
  {
    if b == [] {
      assert a + b == a;
    } else {
      ChainConcat(start, a, mid, b[..|b| - 1], end - b[|b| - 1].delta);
      assert (a + b)[..|a + b| - 1] == a + b[..|b| - 1];
    }
  }

  lemma OfShelfLonger(log: seq<Entry>, e: Entry, p: int)
    ensures OfShelf(log + [e], p) == if e.shelf == p then OfShelf(log, p) + [e] else OfShelf(log, p)
  {
    assert (log + [e])[..|log|] == log;
  }

  lemma ChainLonger(start: int, rows: seq<Entry>, mid: int, e: Entry)
    requires Chain(start, rows, mid) && e.resulting == mid + e.delta
    ensures Chain(start, rows + [e], e.resulting)
  {
    assert (rows + [e])[..|rows|] == rows;
  }

  lemma {:induction false} NoneOfShelf(log: seq<Entry>, p: int)
    requires forall e | e in log :: e.shelf != p
    ensures OfShelf(log, p) == []
  {
    if log != [] {
      NoneOfShelf(log[..|log| - 1], p);
    }
  }

  /** Each row's committed history, and each running transaction's continuation of it, is a chain. */
  ghost predicate Chained(quantities: map<int, int>, s: State) {
    && s.quantities.Keys == quantities.Keys
    && (forall p | p in quantities :: Chain(quantities[p], OfShelf(s.log, p), s.quantities[p]))
    && (forall t: nat | Active(s, t) :: Continues(s.quantities, s.txns[t]))
  }

  ghost predicate Continues(q: map<int, int>, x: Txn) {
    forall p | p in q :: Chain(q[p], OfShelf(x.entries, p), Visible(q, x.overlay, p))
  }

  lemma WriteContinues(s: State, t: nat)
    requires InHand(s, t) && Continues(s.quantities, s.txns[t])
    requires Isolated(s.quantities, s.locks, t, s.txns[t])
    ensures Continues(s.quantities, WriteStep(s, t).txns[t])
  {
    hide Serial;
    var x, y := s.txns[t], WriteStep(s, t).txns[t];
    if y.done == x.done + 1 {
      var e := y.entries[|x.entries|];
      forall p | p in s.quantities
        ensures Chain(s.quantities[p], OfShelf(y.entries, p), Visible(s.quantities, y.overlay, p))
      {
        assert Chain(s.quantities[p], OfShelf(x.entries, p), Visible(s.quantities, x.overlay, p));
        assert y.entries == x.entries + [e];
        OfShelfLonger(x.entries, e, p);
        if p == e.shelf {
          ChainLonger(s.quantities[p], OfShelf(x.entries, p), Visible(s.quantities, x.overlay, p), e);
        }
      }
    }
  }

  /** After another transaction's commit a running one continues the new quantities. */
  lemma OthersContinue(s: State, t: nat, u: nat)
    requires Active(s, t) && Active(s, u) && t != u
    requires Isolated(s.quantities, s.locks, t, s.txns[t]) && Isolated(s.quantities, s.locks, u, s.txns[u])
    requires OnHeldRows(s, u) && Continues(s.quantities, s.txns[u])
    ensures Continues(s.quantities + s.txns[t].overlay, s.txns[u])
  {
    hide Serial;
    var x, y := s.txns[t], s.txns[u];
    var q := s.quantities + x.overlay;
    forall p | p in q ensures Chain(q[p], OfShelf(y.entries, p), Visible(q, y.overlay, p)) {
      if p in x.overlay {
        assert Holds(s.locks, t, p) by {
          var c :| c in x.program[..x.done] && c.shelf == p;
        }
        NoneOfShelf(y.entries, p);
        assert p !in y.overlay;
      } else {
        assert p in s.quantities;
      }
    }
  }

  lemma OverlayWithin(q: map<int, int>, locks: map<int, nat>, t: nat, x: Txn)
    requires Isolated(q, locks, t, x)
    ensures (q + x.overlay).Keys == q.Keys
  {
    hide Serial;
    forall p | p in x.overlay ensures p in q {
      var c :| c in x.program[..x.done] && c.shelf == p;
    }
  }

  lemma CommitKeepsChained(quantities: map<int, int>, s: State, t: nat)
    requires Chained(quantities, s) && AllIsolated(s) && IdsInOrder(s) && Active(s, t)
    ensures Chained(quantities, CommitStep(s, t))
  {
    var x, next := s.txns[t], CommitStep(s, t);
    OverlayWithin(s.quantities, s.locks, t, x);
    hide Isolated, OfShelf, Chain, OnHeldRows;
    assert Continues(s.quantities, x);
    forall p | p in quantities ensures Chain(quantities[p], OfShelf(next.log, p), next.quantities[p]) {
      OfShelfConcat(s.log, x.entries, p);
      ChainConcat(quantities[p], OfShelf(s.log, p), s.quantities[p], OfShelf(x.entries, p), next.quantities[p]);
    }
    hide Continues;
    forall u: nat | Active(next, u) ensures Continues(next.quantities, next.txns[u]) {
      assert Active(s, u);
      OthersContinue(s, t, u);
    }
  }

  lemma StepKeepsChained(quantities: map<int, int>, s: State, a: Action)
    requires Chained(quantities, s) && AllIsolated(s) && IdsInOrder(s)
    ensures Chained(quantities, Next(s, a))
  {
    hide Isolated, CommitStep, IdsInOrder;
    var next := Next(s, a);
    if Commits(s, a) {
      CommitKeepsChained(quantities, s, a.txn);
    } else {
      forall u: nat | Active(next, u) ensures Continues(next.quantities, next.txns[u]) {
        if u < |s.txns| {
          assert Active(s, u) && Continues(s.quantities, s.txns[u]);
          if a == Write(u) && InHand(s, u) {
            WriteContinues(s, u);
          }
        }
      }
    }
  }

  lemma {:induction false} EveryRunChained(quantities: map<int, int>, actions: seq<Action>)
    ensures IdsInOrder(Run(quantities, actions)) && Chained(quantities, Run(quantities, actions))
  {
    if actions != [] {
      hide Next, AllIsolated, Serializable, IdsInOrder, Chained;
      var earlier := actions[..|actions| - 1];
      EveryRunChained(quantities, earlier);
      EveryRunSerializable(quantities, earlier);
      StepKeepsOrder(Run(quantities, earlier), actions[|actions| - 1]);
      StepKeepsChained(quantities, Run(quantities, earlier), actions[|actions| - 1]);
    }
  }

  /** Rows ordered by id, as the query orders them. */
  predicate OrderedById(rows: seq<Entry>) {
    forall i, j | 0 <= i < j < |rows| :: rows[i].id <= rows[j].id
  }

  lemma {:induction false} OneOrdering(a: seq<Entry>, b: seq<Entry>)
    requires ById(a) && OrderedById(b) && multiset(a) == multiset(b)
    ensures a == b
  {
    assert |multiset(a)| == |a| && |multiset(b)| == |b|;
    if a != [] {
      var x, y := a[|a| - 1], b[|b| - 1];
      assert x in multiset(a) && y in multiset(b);
      assert x in b && y in a;
      var i :| 0 <= i < |a| && a[i] == y;
      var j :| 0 <= j < |b| && b[j] == x;
      assert i == |a| - 1;
      SameWithout(a, |a| - 1, b, |b| - 1);
      assert Without(a, |a| - 1) == a[..|a| - 1] && Without(b, |b| - 1) == b[..|b| - 1];
      OneOrdering(a[..|a| - 1], b[..|b| - 1]);
    }
  }

  /** A stock row's history ordered by movement id is a chain from its initial quantity to its current
      one, although ids come from a shared sequence and aborted transactions leave gaps. */
  lemma HistoryIsChain(quantities: map<int, int>, actions: seq<Action>, p: int, rows: seq<Entry>)
    requires p in quantities && OrderedById(rows)
    requires multiset(rows) == multiset(OfShelf(Run(quantities, actions).log, p))
    ensures p in Run(quantities, actions).quantities
    ensures Chain(quantities[p], rows, Run(quantities, actions).quantities[p])
  {
    EveryRunChained(quantities, actions);
    OneOrdering(OfShelf(Run(quantities, actions).log, p), rows);
  }
}
