/** Exactly which runs with unlocked first reads are serializable: those in which no transaction that was given a
    wrong quantity with its lock gets to commit. */
module Misreads {
  import opened Options
  import opened StockRace
  import opened StaleReads

  /** A lock is granted, and the row object kept with it shows another quantity than the committed one. */
  predicate MisreadsRow(s: StaleState, a: StaleAction) {
    && a.Act? && a.action.Lock? && KeepsPeek(s, a.action.txn)
    && var p := Current(s.base, a.action.txn).shelf;
       s.peeks[(a.action.txn, p)].value != s.base.quantities[p]
  }

  /** The transactions that misread a row in a run. */
  function Misled(quantities: map<int, int>, actions: seq<StaleAction>): set<nat> {
    if actions == [] then {}
    else
      var earlier, last := actions[..|actions| - 1], actions[|actions| - 1];
      Misled(quantities, earlier)
        + (if MisreadsRow(RunStale(quantities, earlier), last) then {last.action.txn} else {})
  }

  predicate NoneOf(order: seq<nat>, misled: set<nat>) {
    forall t | t in order :: t !in misled
  }

  // ----- what a step is, apart from a misread -----

  /** The step as it would be without unlocked reads. */
  function PlainStep(s: State, a: StaleAction): State {
    if a.Act? then Next(s, a.action) else s
  }

  lemma StepIsPlain(s: StaleState, a: StaleAction)
    requires !MisreadsRow(s, a)
    ensures NextStale(s, a).base == PlainStep(s.base, a)
  {
    if a.Act? && a.action.Lock? {
      LockUnaffected(s, a.action.txn);
    }
    hide Next, WithSeen;
  }

  /** A row object once loaded is kept with its quantity. */
  predicate PeeksKept(peeks: map<(nat, int), Peeked>, next: map<(nat, int), Peeked>) {
    forall k | k in peeks :: k in next && next[k].value == peeks[k].value
  }

  lemma StepKeepsPeeks(s: StaleState, a: StaleAction)
    ensures PeeksKept(s.peeks, NextStale(s, a).peeks)
  {
    hide Next, WithSeen, KeepsPeek;
  }

  // ----- every transaction's shape -----

  /** One entry per change done, and exactly the rows of those changes written. */
  ghost predicate Shaped(x: Txn) {
    && x.done <= |x.program| && |x.entries| == x.done
    && forall p :: p in x.overlay <==> Touched(x.program[..x.done], p)
  }

  lemma TouchedLonger(program: seq<Change>, n: nat, p: int)
    requires n < |program|
    ensures Touched(program[..n + 1], p) <==> Touched(program[..n], p) || program[n].shelf == p
  {
    assert program[..n + 1] == program[..n] + [program[n]];
    if Touched(program[..n], p) {
      var c :| c in program[..n] && c.shelf == p;
      assert c in program[..n + 1];
    }
    assert program[n] in program[..n + 1];
  }

  lemma WriteKeepsShape(s: State, t: nat)
    requires InHand(s, t) && Shaped(s.txns[t])
    ensures Shaped(WriteStep(s, t).txns[t])
  {
    hide Touched;
    var x, y := s.txns[t], WriteStep(s, t).txns[t];
    if y.done == x.done + 1 {
      forall p ensures p in y.overlay <==> Touched(y.program[..y.done], p) {
        TouchedLonger(x.program, x.done, p);
      }
    }
  }

  ghost predicate AllShaped(s: State) {
    && (forall t: nat | t < |s.txns| :: Shaped(s.txns[t]))
    && (forall i | 0 <= i < |s.order| :: s.order[i] < |s.txns| && s.txns[s.order[i]].phase == Committed
                                         && s.txns[s.order[i]].done == |s.txns[s.order[i]].program|)
  }

  lemma PlainStepKeepsShapes(s: State, a: Action)
    requires AllShaped(s)
    ensures AllShaped(Next(s, a))
  {
    var next := Next(s, a);
    if a.Write? && InHand(s, a.txn) {
      WriteKeepsShape(s, a.txn);
    }
    forall t: nat | t < |next.txns| ensures Shaped(next.txns[t]) {
      assert t < |s.txns| ==> Shaped(s.txns[t]);
      if t == |s.txns| {
        assert next.txns[t].program[..0] == [];
      }
    }
  }

  lemma StepKeepsShapes(s: StaleState, a: StaleAction)
    requires AllShaped(s.base)
    ensures AllShaped(NextStale(s, a).base)
  {
    if a.Act? {
      PlainStepKeepsShapes(s.base, a.action);
    }
    if MisreadsRow(s, a) {
      var t := a.action.txn;
      SeenKeepsShapes(Next(s.base, a.action), t, s.peeks[(t, Current(s.base, t).shelf)].value);
    } else {
      StepIsPlain(s, a);
    }
    hide AllShaped, Next, WithSeen;
  }

  lemma SeenKeepsShapes(s: State, t: nat, value: int)
    requires AllShaped(s) && t < |s.txns|
    ensures AllShaped(WithSeen(s, t, value))
  {
    hide Touched;
    forall u: nat | u < |s.txns| ensures Shaped(WithSeen(s, t, value).txns[u]) {
      assert Shaped(s.txns[u]);
    }
  }

  // ----- what a misled transaction has done -----

  /** Running alone would have been refused, or would have recorded other movements. */
  ghost predicate Strays(q: map<int, int>, t: nat, x: Txn)
    requires x.done <= |x.program|
  {
    match Serial(q, t, x.program[..x.done])
    case None => true
    case Some(b) => b.rows != Plain(x.entries)
  }

  /** The quantity in hand is the kept one, and it is wrong. */
  ghost predicate WrongInHand(q: map<int, int>, locks: map<int, nat>, peeks: map<(nat, int), Peeked>, t: nat, x: Txn) {
    && x.seen.Some? && x.done < |x.program|
    && var p := x.program[x.done].shelf;
       && Holds(locks, t, p) && p in q && p !in x.overlay
       && (t, p) in peeks && peeks[(t, p)].value == x.seen.value != q[p]
  }

  ghost predicate Astray(q: map<int, int>, locks: map<int, nat>, peeks: map<(nat, int), Peeked>, t: nat, x: Txn) {
    && x.done <= |x.program|
    && (forall c | c in x.program[..x.done] :: Holds(locks, t, c.shelf) && c.shelf in q)
    && (x.seen.Some? ==>
          && x.done < |x.program|
          && Holds(locks, t, x.program[x.done].shelf) && x.program[x.done].shelf in q)
    && (WrongInHand(q, locks, peeks, t, x) || Strays(q, t, x))
  }

  lemma {:induction false} SerialRowCount(q: map<int, int>, t: nat, program: seq<Change>)
    ensures var r := Serial(q, t, program); r.Some? ==> |r.value.rows| == |program|
  {
    if program != [] {
      SerialRowCount(q, t, program[..|program| - 1]);
    }
  }

  /** Other transactions' locks and releases change nothing for it. */
  lemma AstrayFrame(q: map<int, int>, locks: map<int, nat>, peeks: map<(nat, int), Peeked>, next: map<int, nat>,
                    nextPeeks: map<(nat, int), Peeked>, t: nat, x: Txn)
    requires Astray(q, locks, peeks, t, x) && PeeksKept(peeks, nextPeeks)
    requires forall p | Holds(locks, t, p) :: Holds(next, t, p)
    ensures Astray(q, next, nextPeeks, t, x)
  {
    hide Serial;
  }

  /** Nor does another transaction's commit, which touches no row it holds. */
  lemma AstrayThroughCommit(q: map<int, int>, locks: map<int, nat>, peeks: map<(nat, int), Peeked>, t: nat, x: Txn,
                            overlay: map<int, int>)
    requires Astray(q, locks, peeks, t, x)
    requires forall p | p in overlay :: !Holds(locks, t, p)
    ensures Astray(q + overlay, locks, peeks, t, x)
  {
    var program := x.program[..x.done];
    assert AgreeOn(q, q + overlay, program);
    SerialLocal(q, q + overlay, t, program);
    hide Serial;
  }

  /** One more change after straying, or the change that writes a wrong quantity down. */
  lemma StraysLonger(q: map<int, int>, t: nat, before: seq<Change>, c: Change, rows: seq<Row>, resulting: int)
    requires forall d | d in before + [c] :: d.shelf in q
    requires |rows| == |before|
    requires || (Serial(q, t, before).Some? && Serial(q, t, before).value.rows != rows)
             || Serial(q, t, before).None?
             || (!Touched(before, c.shelf) && resulting != q[c.shelf] + c.delta)
    ensures var b := Serial(q, t, before + [c]);
            b.Some? ==> b.value.rows != rows + [Row(t, c.shelf, c.delta, resulting)]
  {
    assert (before + [c])[..|before|] == before;
    assert c in before + [c] && forall d | d in before :: d in before + [c];
    var b, longer := Serial(q, t, before), Serial(q, t, before + [c]);
    SerialRowCount(q, t, before);
    if longer.Some? {
      if b.value.rows != rows {
        DifferentLonger(b.value.rows, rows);
      } else {
        UntouchedInSerial(q, t, before, c.shelf);
        assert longer.value.rows[|before|].resulting == q[c.shelf] + c.delta;
      }
    }
  }

  lemma DifferentLonger(a: seq<Row>, b: seq<Row>)
    requires |a| == |b| && a != b
    ensures forall x, y :: a + [x] != b + [y]
  {
    forall x, y ensures a + [x] != b + [y] {
      assert (a + [x])[..|a|] == a && (b + [y])[..|b|] == b;
    }
  }

  /** Writing down a wrong quantity, or writing on after it, leaves movements no serial run would. */
  lemma WriteGoesAstray(s: State, peeks: map<(nat, int), Peeked>, t: nat)
    requires InHand(s, t) && Shaped(s.txns[t]) && Astray(s.quantities, s.locks, peeks, t, s.txns[t])
    ensures Active(WriteStep(s, t), t) ==>
              Astray(s.quantities, WriteStep(s, t).locks, peeks, t, WriteStep(s, t).txns[t])
  {
    var x, c, y := s.txns[t], Current(s, t), WriteStep(s, t).txns[t];
    if y.done == x.done + 1 && y.phase == Running {
      var before := x.program[..x.done];
      assert x.program[..y.done] == before + [c];
      hide Serial;
      StraysLonger(s.quantities, t, before, c, Plain(x.entries), x.seen.value + c.delta);
      assert Plain(y.entries) == Plain(x.entries) + [Row(t, c.shelf, c.delta, x.seen.value + c.delta)];
    }
  }

  lemma UntouchedInSerial(q: map<int, int>, t: nat, program: seq<Change>, p: int)
    requires forall c | c in program :: c.shelf in q
    requires p in q && !Touched(program, p) && Serial(q, t, program).Some?
    ensures p in Serial(q, t, program).value.quantities && Serial(q, t, program).value.quantities[p] == q[p]
  {
    assert AgreeOn(q, q, program);
    SerialLocal(q, q, t, program);
  }

  // ----- one step, for one transaction -----

  /** What holds of a running transaction, misled or not, while every commit so far was of one that was not. */
  ghost predicate Told(s: StaleState, t: nat, misled: bool)
    requires t < |s.base.txns|
  {
    if misled then Astray(s.base.quantities, s.base.locks, s.peeks, t, s.base.txns[t])
    else Isolated(s.base.quantities, s.base.locks, t, s.base.txns[t])
  }

  predicate ActsOn(a: StaleAction, t: nat) {
    if a.Peek? then a.txn == t else !a.action.Begin? && a.action.txn == t
  }

  predicate CommitsNow(s: StaleState, a: StaleAction) {
    a.Act? && Commits(s.base, a.action)
  }

  /** Another transaction's step takes no lock away and leaves this one as it is. */
  ghost predicate Bystander(s: State, next: State, t: nat) {
    && t < |s.txns| && t < |next.txns| && next.txns[t] == s.txns[t]
    && forall p | Holds(s.locks, t, p) :: Holds(next.locks, t, p)
  }

  lemma WriteOthersKept(s: State, u: nat, t: nat)
    requires InHand(s, u) && t < |s.txns| && t != u
    ensures Bystander(s, WriteStep(s, u), t) && WriteStep(s, u).quantities == s.quantities
  {}

  lemma PlainOthersKept(s: State, a: Action, t: nat)
    requires t < |s.txns| && !ActsOn(Act(a), t)
    ensures Bystander(s, Next(s, a), t)
    ensures if Commits(s, a) then
              && Next(s, a).quantities == s.quantities + s.txns[a.txn].overlay
              && Next(s, a).locks == Release(s.locks, a.txn)
            else Next(s, a).quantities == s.quantities
  {
    if a.Write? && InHand(s, a.txn) {
      WriteOthersKept(s, a.txn, t);
    }
    hide WriteStep;
  }

  lemma OthersKept(s: StaleState, a: StaleAction, t: nat)
    requires t < |s.base.txns| && !ActsOn(a, t)
    ensures var next := NextStale(s, a);
            && Bystander(s.base, next.base, t)
            && if CommitsNow(s, a) then
                 && next.base.quantities == s.base.quantities + s.base.txns[a.action.txn].overlay
                 && next.base.locks == Release(s.base.locks, a.action.txn)
               else next.base.quantities == s.base.quantities
  {
    if a.Act? {
      PlainOthersKept(s.base, a.action, t);
    }
    if !MisreadsRow(s, a) {
      StepIsPlain(s, a);
      hide NextStale;
    }
    hide Next;
  }

  lemma OverlayHeld(q: map<int, int>, locks: map<int, nat>, u: nat, y: Txn, p: int)
    requires Isolated(q, locks, u, y) && p in y.overlay
    ensures Holds(locks, u, p)
  {
    hide Serial;
    var c :| c in y.program[..y.done] && c.shelf == p;
  }

  lemma OthersTold(s: StaleState, a: StaleAction, t: nat, misled: bool)
    requires t < |s.base.txns| && Told(s, t, misled) && !ActsOn(a, t)
    requires CommitsNow(s, a) ==> Told(s, a.action.txn, false)
    ensures t < |NextStale(s, a).base.txns| && Told(NextStale(s, a), t, misled)
  {
    OthersKept(s, a, t);
    StepKeepsPeeks(s, a);
    hide NextStale, Isolated, Astray, PeeksKept;
    var next, x := NextStale(s, a), s.base.txns[t];
    var q, locks := s.base.quantities, s.base.locks;
    if CommitsNow(s, a) {
      var u := a.action.txn;
      var y := s.base.txns[u];
      if misled {
        forall p | p in y.overlay ensures !Holds(locks, t, p) {
          OverlayHeld(q, locks, u, y, p);
        }
        AstrayThroughCommit(q, locks, s.peeks, t, x, y.overlay);
        AstrayFrame(q + y.overlay, locks, s.peeks, next.base.locks, next.peeks, t, x);
      } else {
        CommitFrame(q, locks, t, x, u, y);
      }
    } else if misled {
      AstrayFrame(q, locks, s.peeks, next.base.locks, next.peeks, t, x);
    } else {
      LocksFrame(q, locks, next.base.locks, t, x);
    }
  }

  /** Its own lock: what it is shown decides whether it goes on as it would alone. */
  lemma OwnLockTold(s: StaleState, t: nat, misled: bool)
    requires InHand(s.base, t) && Told(s, t, misled)
    ensures Told(NextStale(s, Act(Lock(t))), t, misled || MisreadsRow(s, Act(Lock(t))))
  {
    hide Serial;
    if !MisreadsRow(s, Act(Lock(t))) {
      StepIsPlain(s, Act(Lock(t)));
    }
  }

  lemma OwnWriteTold(s: StaleState, t: nat, misled: bool)
    requires InHand(s.base, t) && Shaped(s.base.txns[t]) && Told(s, t, misled)
    requires Active(WriteStep(s.base, t), t)
    ensures Told(NextStale(s, Act(Write(t))), t, misled)
  {
    hide Isolated, Astray;
    if misled {
      WriteGoesAstray(s.base, s.peeks, t);
    } else {
      WriteIsolated(s.base, t);
    }
    WriteKeepsTables(s.base, t);
    hide WriteStep;
  }

  lemma WriteKeepsTables(s: State, t: nat)
    requires InHand(s, t) && Active(WriteStep(s, t), t)
    ensures WriteStep(s, t).quantities == s.quantities && WriteStep(s, t).locks == s.locks
  {}

  lemma OwnTold(s: StaleState, a: StaleAction, t: nat, misled: bool)
    requires Active(s.base, t) && Shaped(s.base.txns[t]) && Told(s, t, misled) && ActsOn(a, t)
    requires Active(NextStale(s, a).base, t)
    ensures Told(NextStale(s, a), t, misled || MisreadsRow(s, a))
  {
    if a.Peek? {
      StepKeepsPeeks(s, a);
      hide Isolated, Astray;
      if misled {
        AstrayFrame(s.base.quantities, s.base.locks, s.peeks, s.base.locks, NextStale(s, a).peeks, t, s.base.txns[t]);
      }
    } else if a.action.Lock? && InHand(s.base, t) {
      OwnLockTold(s, t, misled);
    } else if a.action.Write? && InHand(s.base, t) {
      OwnWriteTold(s, t, misled);
    } else {
      assert NextStale(s, a) == s;
    }
  }

  // ----- one step, for the whole state -----

  /** Serial replay in commit order is refused, or records other movements than the log. */
  ghost predicate Broken(quantities: map<int, int>, s: State) {
    && Listed(s.txns, s.order)
    && match SerialReplay(quantities, s.txns, s.order)
       case None => true
       case Some(b) => |b.rows| == |s.log| && b.rows != Plain(s.log)
  }

  ghost predicate Tracked(quantities: map<int, int>, s: StaleState, misled: set<nat>) {
    && AllShaped(s.base)
    && (forall t | t in misled :: t < |s.base.txns|)
    && if NoneOf(s.base.order, misled) then
         && Serializable(quantities, s.base)
         && forall t: nat | Active(s.base, t) :: Told(s, t, t in misled)
       else Broken(quantities, s.base)
  }

  lemma BrokenIsNotSerializable(quantities: map<int, int>, s: State)
    requires Broken(quantities, s)
    ensures !Serializable(quantities, s)
  {
    hide SerialReplay;
  }

  function After(s: StaleState, a: StaleAction, misled: set<nat>): set<nat> {
    misled + (if MisreadsRow(s, a) then {a.action.txn} else {})
  }

  predicate SameBooks(s: State, next: State) {
    && next.order == s.order && next.log == s.log && next.quantities == s.quantities
    && |s.txns| <= |next.txns| && forall t | 0 <= t < |s.txns| :: next.txns[t].program == s.txns[t].program
  }

  lemma PlainBooksKept(s: State, a: Action)
    requires !Commits(s, a)
    ensures SameBooks(s, Next(s, a))
  {}

  lemma SeenKeepsBooks(s: State, next: State, t: nat, value: int)
    requires SameBooks(s, next) && t < |next.txns|
    ensures SameBooks(s, WithSeen(next, t, value))
  {}

  /** Without a commit the books stay closed, and only a running transaction can be misled. */
  lemma BooksKept(s: StaleState, a: StaleAction)
    requires !CommitsNow(s, a)
    ensures SameBooks(s.base, NextStale(s, a).base)
    ensures MisreadsRow(s, a) ==> Active(s.base, a.action.txn)
  {
    if a.Act? {
      PlainBooksKept(s.base, a.action);
    }
    if MisreadsRow(s, a) {
      var t := a.action.txn;
      hide Next;
      SeenKeepsBooks(s.base, Next(s.base, a.action), t, s.peeks[(t, Current(s.base, t).shelf)].value);
      hide WithSeen, SameBooks;
    } else {
      StepIsPlain(s, a);
      hide Next, NextStale;
    }
  }

  lemma QuietStepKeepsBooks(quantities: map<int, int>, s: StaleState, a: StaleAction)
    requires !CommitsNow(s, a) && Listed(s.base.txns, s.base.order)
    ensures Serializable(quantities, s.base) ==> Serializable(quantities, NextStale(s, a).base)
    ensures Broken(quantities, s.base) ==> Broken(quantities, NextStale(s, a).base)
  {
    BooksKept(s, a);
    hide NextStale, SerialReplay;
    ReplayFrame(quantities, s.base.txns, NextStale(s, a).base.txns, s.base.order);
  }

  lemma MoreNone(s: StaleState, a: StaleAction, misled: set<nat>)
    requires AllShaped(s.base) && !CommitsNow(s, a)
    ensures NoneOf(NextStale(s, a).base.order, After(s, a, misled)) <==> NoneOf(s.base.order, misled)
  {
    BooksKept(s, a);
    hide NextStale, MisreadsRow;
    if MisreadsRow(s, a) {
      forall i | 0 <= i < |s.base.order| ensures s.base.order[i] != a.action.txn {
        assert s.base.txns[s.base.order[i]].phase == Committed;
      }
    }
  }

  /** A transaction just begun. */
  lemma NewIsTold(s: StaleState, a: StaleAction)
    requires a.Act? && a.action.Begin?
    ensures |NextStale(s, a).base.txns| == |s.base.txns| + 1 && Told(NextStale(s, a), |s.base.txns|, false)
  {
    var program, q := a.action.program, s.base.quantities;
    assert program[..0] == [] && Plain([]) == [] && q + map[] == q;
  }

  lemma StepTold(s: StaleState, a: StaleAction, misled: set<nat>, t: nat)
    requires AllShaped(s.base) && forall u: nat | Active(s.base, u) :: Told(s, u, u in misled)
    requires CommitsNow(s, a) ==> a.action.txn !in misled
    requires forall u | u in misled :: u < |s.base.txns|
    requires Active(NextStale(s, a).base, t)
    ensures Told(NextStale(s, a), t, t in After(s, a, misled))
  {
    hide Told, AllShaped;
    StepSame(s, a, t);
    if t < |s.base.txns| {
      assert Active(s.base, t);
      if ActsOn(a, t) {
        ShapeOf(s.base, t);
        OwnTold(s, a, t, t in misled);
      } else {
        if CommitsNow(s, a) {
          assert Active(s.base, a.action.txn);
        }
        OthersTold(s, a, t, t in misled);
      }
    } else {
      NewIsTold(s, a);
    }
    hide NextStale;
  }

  lemma ShapeOf(s: State, t: nat)
    requires AllShaped(s) && t < |s.txns|
    ensures Shaped(s.txns[t])
  {}

  /** Who runs after a step ran before it, or has just begun. */
  lemma StepSame(s: StaleState, a: StaleAction, t: nat)
    requires Active(NextStale(s, a).base, t)
    ensures t < |s.base.txns| ==> Active(s.base, t)
    ensures t >= |s.base.txns| ==> a.Act? && a.action.Begin? && t == |s.base.txns|
    ensures MisreadsRow(s, a) ==> ActsOn(a, a.action.txn)
  {}

  // ----- commits -----

  lemma CommitIsPlain(s: StaleState, t: nat)
    requires Commits(s.base, Commit(t))
    ensures NextStale(s, Act(Commit(t))).base == CommitStep(s.base, t)
    ensures !MisreadsRow(s, Act(Commit(t)))
  {
    CommitOf(s, t);
    hide CommitStep;
  }

  lemma PlainLength(entries: seq<Entry>)
    ensures |Plain(entries)| == |entries|
  {}

  lemma DifferentConcat(a: seq<Row>, b: seq<Row>, x: seq<Row>, y: seq<Row>)
    requires |a| == |b| && |x| == |y| && (a != b || x != y)
    ensures a + x != b + y
  {
    assert (a + x)[..|a|] == a && (b + y)[..|b|] == b && (a + x)[|a|..] == x && (b + y)[|b|..] == y;
  }

  /** The replay after one more commit. */
  lemma ReplayOneMore(quantities: map<int, int>, s: State, t: nat)
    requires Listed(s.txns, s.order) && Active(s, t)
    ensures var next := CommitStep(s, t);
            && Listed(next.txns, next.order)
            && SerialReplay(quantities, next.txns, next.order)
               == match SerialReplay(quantities, s.txns, s.order)
                  case None => None
                  case Some(b) =>
                    match Serial(b.quantities, t, s.txns[t].program)
                    case None => None
                    case Some(more) => Some(Books(more.quantities, b.rows + more.rows))
  {
    var next := CommitStep(s, t);
    assert next.order[..|next.order| - 1] == s.order;
    ReplayFrame(quantities, s.txns, next.txns, s.order);
    hide Serial;
  }

  /** A misled transaction's commit breaks the books: its movements are not those of running alone. */
  lemma MisledCommitBreaks(quantities: map<int, int>, s: StaleState, t: nat)
    requires Commits(s.base, Commit(t)) && Shaped(s.base.txns[t]) && Told(s, t, true)
    requires Serializable(quantities, s.base)
    ensures Broken(quantities, CommitStep(s.base, t))
  {
    var x := s.base.txns[t];
    assert x.program[..x.done] == x.program;
    ReplayOneMore(quantities, s.base, t);
    SerialRowCount(s.base.quantities, t, x.program);
    PlainConcat(s.base.log, x.entries);
    PlainLength(s.base.log);
    PlainLength(x.entries);
    hide Serial, SerialReplay, Touched, Plain;
    var b := Serial(s.base.quantities, t, x.program);
    if b.Some? {
      DifferentConcat(Plain(s.base.log), Plain(s.base.log), b.value.rows, Plain(x.entries));
    }
  }

  /** No later commit mends them. */
  lemma CommitKeepsBroken(quantities: map<int, int>, s: State, t: nat)
    requires Commits(s, Commit(t)) && Shaped(s.txns[t]) && Broken(quantities, s)
    ensures Broken(quantities, CommitStep(s, t))
  {
    var x := s.txns[t];
    ReplayOneMore(quantities, s, t);
    PlainConcat(s.log, x.entries);
    PlainLength(s.log);
    PlainLength(x.entries);
    hide SerialReplay, Touched, Plain;
    var b := SerialReplay(quantities, s.txns, s.order);
    if b.Some? {
      SerialRowCount(b.value.quantities, t, x.program);
      var more := Serial(b.value.quantities, t, x.program);
      if more.Some? {
        DifferentConcat(b.value.rows, Plain(s.log), more.value.rows, Plain(x.entries));
      }
    }
    hide Serial;
  }

  lemma CommitTracked(quantities: map<int, int>, s: StaleState, t: nat, misled: set<nat>)
    requires Tracked(quantities, s, misled) && Commits(s.base, Commit(t))
    ensures Tracked(quantities, NextStale(s, Act(Commit(t))), misled)
  {
    var a := Act(Commit(t));
    CommitIsPlain(s, t);
    StepKeepsShapes(s, a);
    ShapeOf(s.base, t);
    var next := NextStale(s, a);
    assert next.base.order == s.base.order + [t];
    assert |next.base.txns| == |s.base.txns|;
    hide AllShaped, Shaped, NextStale, Told, Serializable, Broken, CommitStep;
    assert NoneOf(next.base.order, misled) <==> NoneOf(s.base.order, misled) && t !in misled by {
      assert forall u :: u in next.base.order <==> u in s.base.order || u == t;
    }
    if !NoneOf(s.base.order, misled) {
      CommitKeepsBroken(quantities, s.base, t);
    } else if t in misled {
      assert Told(s, t, true);
      MisledCommitBreaks(quantities, s, t);
    } else {
      assert Told(s, t, false);
      GoodCommit(quantities, s, t);
      forall u: nat | Active(next.base, u) ensures Told(next, u, u in misled) {
        assert After(s, a, misled) == misled;
        StepTold(s, a, misled, u);
      }
    }
  }

  lemma GoodCommit(quantities: map<int, int>, s: StaleState, t: nat)
    requires Commits(s.base, Commit(t)) && Told(s, t, false) && Serializable(quantities, s.base)
    ensures Serializable(quantities, CommitStep(s.base, t))
  {
    CommitSerializable(quantities, s.base, t);
  }

  lemma StepTracked(quantities: map<int, int>, s: StaleState, a: StaleAction, misled: set<nat>)
    requires Tracked(quantities, s, misled)
    ensures Tracked(quantities, NextStale(s, a), After(s, a, misled))
  {
    if CommitsNow(s, a) {
      CommitIsPlain(s, a.action.txn);
      hide NextStale, Tracked;
      assert After(s, a, misled) == misled;
      CommitTracked(quantities, s, a.action.txn, misled);
    } else {
      StepKeepsShapes(s, a);
      BooksKept(s, a);
      QuietStepKeepsBooks(quantities, s, a);
      MoreNone(s, a, misled);
      hide AllShaped, NextStale, MisreadsRow, Told, Serializable, Broken, NoneOf;
      if NoneOf(s.base.order, misled) {
        forall t: nat | Active(NextStale(s, a).base, t) ensures Told(NextStale(s, a), t, t in After(s, a, misled)) {
          StepTold(s, a, misled, t);
        }
      }
    }
  }

  lemma {:induction false} EveryRunTracked(quantities: map<int, int>, actions: seq<StaleAction>)
    ensures Tracked(quantities, RunStale(quantities, actions), Misled(quantities, actions))
  {
    if actions == [] {
      assert Plain([]) == [];
    } else {
      hide NextStale, Tracked, MisreadsRow;
      var earlier, last := actions[..|actions| - 1], actions[|actions| - 1];
      EveryRunTracked(quantities, earlier);
      StepTracked(quantities, RunStale(quantities, earlier), last, Misled(quantities, earlier));
    }
  }

  // ----- the result -----

  /** With first reads that take no lock, a run is serializable in commit order exactly when no transaction that
      was shown a wrong quantity with its lock has committed. */
  lemma SerializableExactly(quantities: map<int, int>, actions: seq<StaleAction>)
    ensures Serializable(quantities, RunStale(quantities, actions).base)
            <==> NoneOf(RunStale(quantities, actions).base.order, Misled(quantities, actions))
  {
    EveryRunTracked(quantities, actions);
    hide RunStale, Misled, Serializable, Broken, AllShaped;
    if !NoneOf(RunStale(quantities, actions).base.order, Misled(quantities, actions)) {
      BrokenIsNotSerializable(quantities, RunStale(quantities, actions).base);
    }
  }

  lemma {:induction false} NeverStaleMisleadsNone(quantities: map<int, int>, actions: seq<StaleAction>)
    requires NeverStale(quantities, actions)
    ensures Misled(quantities, actions) == {}
  {
    if actions != [] {
      var earlier, last := actions[..|actions| - 1], actions[|actions| - 1];
      NeverStaleMisleadsNone(quantities, earlier);
      NeverStaleIsPlain(quantities, earlier);
      hide RunStale, Next;
    }
  }

  /** Where no lock follows a commit of the row that came after the transaction's first read of it, nobody is
      misled and the run is serializable. */
  lemma NeverStaleSerializable(quantities: map<int, int>, actions: seq<StaleAction>)
    requires NeverStale(quantities, actions)
    ensures Serializable(quantities, RunStale(quantities, actions).base)
  {
    NeverStaleMisleadsNone(quantities, actions);
    SerializableExactly(quantities, actions);
    hide RunStale, Serializable;
  }

  // ----- a stale lock alone does no harm -----

  lemma {:induction false} OnlyPeekersMisled(quantities: map<int, int>, actions: seq<StaleAction>)
    ensures forall k | k in RunStale(quantities, actions).peeks :: Peek(k.0) in actions
    ensures forall t | t in Misled(quantities, actions) :: Peek(t) in actions
  {
    if actions != [] {
      var earlier, last := actions[..|actions| - 1], actions[|actions| - 1];
      OnlyPeekersMisled(quantities, earlier);
      assert forall a :: a in actions <==> a in earlier || a == last;
      hide RunStale, Next;
      var s := RunStale(quantities, earlier);
      assert forall k | k in NextStale(s, last).peeks :: k in s.peeks || last == Peek(k.0);
    }
  }

  lemma {:induction false} NeverStaleBefore(quantities: map<int, int>, actions: seq<StaleAction>, n: nat)
    requires NeverStale(quantities, actions) && n < |actions|
    ensures !LocksStale(RunStale(quantities, actions[..n]), actions[n])
    decreases |actions|
  {
    if n < |actions| - 1 {
      var earlier := actions[..|actions| - 1];
      assert earlier[..n] == actions[..n];
      NeverStaleBefore(quantities, earlier, n);
    }
  }

  const HARMLESS: seq<StaleAction> := LOST[..8] + [Act(Abort(0))]

  lemma FirstAborts()
    ensures RunStale(TEN, HARMLESS).base.order == [1]
  {
    hide NextStale;
    RunUntilTaken();
    ThreeLonger(LOST[..6], LOST[6], LOST[7], Act(Abort(0)));
    assert LOST[..6] + [LOST[6], LOST[7], Act(Abort(0))] == HARMLESS;
    FirstWrites();
    hide RunStale;
    AbortKeepsOrder(OVERWRITTEN, 0);
  }

  lemma AbortKeepsOrder(s: StaleState, t: nat)
    ensures NextStale(s, Act(Abort(t))).base.order == s.base.order
  {}

  lemma TakenIsStale()
    ensures LocksStale(TAKEN, LOST[6])
  {}

  /** In the run of the lost update, had the first transaction aborted instead of committing, the lock would have
      been as stale and the books would balance. */
  lemma StaleLockAloneIsHarmless()
    ensures !NeverStale(TEN, HARMLESS) && Serializable(TEN, RunStale(TEN, HARMLESS).base)
  {
    hide Serializable, Misled, RunStale, NeverStale, LocksStale;
    FirstAborts();
    OnlyPeekersMisled(TEN, HARMLESS);
    SerializableExactly(TEN, HARMLESS);
    RunUntilTaken();
    TakenIsStale();
    assert HARMLESS[..6] == LOST[..6] && HARMLESS[6] == LOST[6];
    if NeverStale(TEN, HARMLESS) {
      NeverStaleBefore(TEN, HARMLESS, 6);
    }
  }
}
