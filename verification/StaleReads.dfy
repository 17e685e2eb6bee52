/** Adjusting stock by product: the row is read once without a lock, and the locked read that follows keeps
    the object already loaded (app/inventory/service.py). */
module StaleReads {
  import opened Options
  import opened StockRace

  /** What a transaction's session holds of a row read without a lock; `dirty` once another transaction has
      committed a change of the row since. */
  datatype Peeked = Peeked(value: int, dirty: bool)

  datatype StaleState = StaleState(base: State, peeks: map<(nat, int), Peeked>)

  datatype StaleAction =
    | Peek(txn: nat)
    | Act(action: Action)

  /** The lock of the change in hand would be granted now. */
  predicate Grants(s: State, t: nat) {
    && InHand(s, t)
    && var p := Current(s, t).shelf;
       p in s.quantities && (p in s.locks ==> s.locks[p] == t)
  }

  /** The locked read returns the row object loaded before, as it was. */
  predicate KeepsPeek(s: StaleState, t: nat) {
    && Grants(s.base, t)
    && var p := Current(s.base, t).shelf;
       (t, p) in s.peeks && p !in s.base.txns[t].overlay
  }

  function WithSeen(s: State, t: nat, value: int): State
    requires t < |s.txns|
  {
    s.(txns := s.txns[t := s.txns[t].(seen := Some(value))])
  }

  function NextStale(s: StaleState, a: StaleAction): StaleState {
    match a
    case Peek(t) =>
      if !InHand(s.base, t) then s
      else
        var p := Current(s.base, t).shelf;
        if p !in s.base.quantities || (t, p) in s.peeks then s
        else s.(peeks := s.peeks[(t, p) := Peeked(s.base.quantities[p], false)])
    case Act(Lock(t)) =>
      var locked := Next(s.base, Lock(t));
      s.(base := if KeepsPeek(s, t) then WithSeen(locked, t, s.peeks[(t, Current(s.base, t).shelf)].value) else locked)
    case Act(Commit(t)) =>
      var committed := Next(s.base, Commit(t));
      if !Commits(s.base, Commit(t)) then s.(base := committed)
      else StaleState(committed,
                      map k | k in s.peeks ::
                        if k.1 in s.base.txns[t].overlay then s.peeks[k].(dirty := true) else s.peeks[k])
    case Act(action) => s.(base := Next(s.base, action))
  }

  function RunStale(quantities: map<int, int>, actions: seq<StaleAction>): StaleState {
    if actions == [] then StaleState(Start(quantities), map[])
    else NextStale(RunStale(quantities, actions[..|actions| - 1]), actions[|actions| - 1])
  }

  /** A lock is granted to a transaction that read the row before another one's commit of it. */
  predicate LocksStale(s: StaleState, a: StaleAction) {
    && a.Act? && a.action.Lock? && KeepsPeek(s, a.action.txn)
    && s.peeks[(a.action.txn, Current(s.base, a.action.txn).shelf)].dirty
  }

  predicate NeverStale(quantities: map<int, int>, actions: seq<StaleAction>) {
    actions == []
    || (var earlier := actions[..|actions| - 1];
        NeverStale(quantities, earlier) && !LocksStale(RunStale(quantities, earlier), actions[|actions| - 1]))
  }

  function PlainOnes(actions: seq<StaleAction>): seq<Action> {
    if actions == [] then []
    else
      var last := actions[|actions| - 1];
      PlainOnes(actions[..|actions| - 1]) + (if last.Act? then [last.action] else [])
  }

  predicate PeeksCurrent(s: StaleState) {
    forall k | k in s.peeks && !s.peeks[k].dirty ::
      k.1 in s.base.quantities && s.base.quantities[k.1] == s.peeks[k].value
  }

  lemma LockUnaffected(s: StaleState, t: nat)
    ensures var locked := Next(s.base, Lock(t));
            KeepsPeek(s, t) ==>
              var peeked := s.peeks[(t, Current(s.base, t).shelf)];
              (WithSeen(locked, t, peeked.value) == locked)
              == (s.base.quantities[Current(s.base, t).shelf] == peeked.value)
  {
    if KeepsPeek(s, t) {
      var locked, peeked := Next(s.base, Lock(t)), s.peeks[(t, Current(s.base, t).shelf)];
      assert locked.txns[t].seen == Some(s.base.quantities[Current(s.base, t).shelf]);
      assert WithSeen(locked, t, peeked.value).txns[t].seen == Some(peeked.value);
      if peeked.value == s.base.quantities[Current(s.base, t).shelf] {
        assert WithSeen(locked, t, peeked.value).txns == locked.txns;
      }
    }
  }

  /** Only a commit changes committed quantities, and only of rows it wrote. */
  lemma QuantitiesKept(s: State, a: Action, p: int)
    requires p in s.quantities
    ensures p in Next(s, a).quantities
    ensures (Commits(s, a) && p in s.txns[a.txn].overlay) || Next(s, a).quantities[p] == s.quantities[p]
  {}

  lemma StepNotStale(s: StaleState, a: StaleAction)
    requires PeeksCurrent(s) && !LocksStale(s, a)
    ensures PeeksCurrent(NextStale(s, a))
    ensures NextStale(s, a).base == if a.Act? then Next(s.base, a.action) else s.base
  {
    if a.Act? && a.action.Lock? {
      LockUnaffected(s, a.action.txn);
    }
    if a.Act? {
      forall k | k in s.peeks && !s.peeks[k].dirty ensures k.1 in Next(s.base, a.action).quantities {
        QuantitiesKept(s.base, a.action, k.1);
      }
    }
    hide Next, LocksStale;
    var next := NextStale(s, a);
    forall k | k in next.peeks && !next.peeks[k].dirty
      ensures k.1 in next.base.quantities && next.base.quantities[k.1] == next.peeks[k].value
    {
      if a.Act? {
        QuantitiesKept(s.base, a.action, k.1);
      }
    }
  }

  /** Where no lock follows a commit of the row that came after the transaction's first read of it, reading first
      without a lock changes nothing. */
  lemma {:induction false} NeverStaleIsPlain(quantities: map<int, int>, actions: seq<StaleAction>)
    requires NeverStale(quantities, actions)
    ensures RunStale(quantities, actions).base == Run(quantities, PlainOnes(actions))
    ensures PeeksCurrent(RunStale(quantities, actions))
  {
    hide Next, NextStale, LocksStale, PeeksCurrent;
    if actions == [] {
      NoPeeks(quantities);
    } else {
      var earlier, last := actions[..|actions| - 1], actions[|actions| - 1];
      NeverStaleIsPlain(quantities, earlier);
      StepNotStale(RunStale(quantities, earlier), last);
      if last.Act? {
        assert PlainOnes(actions)[..|PlainOnes(actions)| - 1] == PlainOnes(earlier);
      } else {
        assert PlainOnes(actions) == PlainOnes(earlier);
      }
    }
  }

  lemma NoPeeks(quantities: map<int, int>)
    ensures PeeksCurrent(RunStale(quantities, []))
  {}

  // ----- a lost update -----

  const TEN: map<int, int> := map[1 := 10]

  const ONE_OUT: seq<Change> := [Change(1, -1)]
  const THREE_OUT: seq<Change> := [Change(1, -3)]

  /** Both begin, the first reads the row, the second takes three out and commits; then the first locks, writes
      what it read less one, and commits. */
  const LOST: seq<StaleAction> := [
    Act(Begin(ONE_OUT)), Act(Begin(THREE_OUT)), Peek(0),
    Act(Lock(1)), Act(Write(1)), Act(Commit(1)),
    Act(Lock(0)), Act(Write(0)), Act(Commit(0))]

  const FIRST: Txn := Txn(ONE_OUT, 0, None, map[], [], Running)
  const SECOND: Txn := Txn(THREE_OUT, 0, None, map[], [], Running)
  const THREE_GONE: Entry := Entry(0, 1, 1, -3, 7)
  const ONE_GONE: Entry := Entry(1, 0, 1, -1, 9)
  const SECOND_DONE: Txn := Txn(THREE_OUT, 1, None, map[1 := 7], [THREE_GONE], Committed)
  const FIRST_DONE: Txn := Txn(ONE_OUT, 1, None, map[1 := 9], [ONE_GONE], Committed)

  const READ: StaleState := StaleState(State(TEN, [], map[], 0, [FIRST, SECOND], []), map[(0, 1) := Peeked(10, false)])
  const TAKEN: StaleState :=
    StaleState(State(map[1 := 7], [THREE_GONE], map[], 1, [FIRST, SECOND_DONE], [1]), map[(0, 1) := Peeked(10, true)])

  lemma FirstReads()
    ensures NextStale(NextStale(NextStale(StaleState(Start(TEN), map[]), LOST[0]), LOST[1]), LOST[2]) == READ
  {}

  lemma SecondTakes()
    ensures NextStale(NextStale(NextStale(READ, LOST[3]), LOST[4]), LOST[5]) == TAKEN
  {
    var locked := READ.base.(locks := map[1 := 1], txns := [FIRST, SECOND.(seen := Some(10))]);
    assert NextStale(READ, LOST[3]).base == locked;
    var written := Txn(THREE_OUT, 1, None, map[1 := 7], [THREE_GONE], Running);
    OneWrite(7, THREE_GONE);
    assert [FIRST, SECOND.(seen := Some(10))][1 := written] == [FIRST, written];
    assert NextStale(READ.(base := locked), LOST[4]).base == locked.(nextId := 1, txns := [FIRST, written]);
    CommitOf(READ.(base := locked.(nextId := 1, txns := [FIRST, written])), 1);
    assert TEN + map[1 := 7] == map[1 := 7];
  }

  const OVERWRITTEN: StaleState :=
    TAKEN.(base := TAKEN.base.(locks := map[1 := 0], nextId := 2,
                               txns := [FIRST_DONE.(phase := Running), SECOND_DONE]))

  lemma FirstWrites()
    ensures NextStale(NextStale(TAKEN, LOST[6]), LOST[7]) == OVERWRITTEN
  {
    var locked := TAKEN.base.(locks := map[1 := 0], txns := [FIRST.(seen := Some(10)), SECOND_DONE]);
    assert NextStale(TAKEN, LOST[6]).base == locked;
    var written := FIRST_DONE.(phase := Running);
    OneWrite(9, ONE_GONE);
    assert [FIRST.(seen := Some(10)), SECOND_DONE][0 := written] == [written, SECOND_DONE];
    assert NextStale(TAKEN.(base := locked), LOST[7]).base == OVERWRITTEN.base;
  }

  lemma FirstOverwrites()
    ensures var end := NextStale(NextStale(NextStale(TAKEN, LOST[6]), LOST[7]), LOST[8]).base;
            end.quantities == map[1 := 9] && end.order == [1, 0] && end.txns == [FIRST_DONE, SECOND_DONE]
  {
    FirstWrites();
    CommitOf(OVERWRITTEN, 0);
    assert map[1 := 7] + map[1 := 9] == map[1 := 9];
  }

  lemma OneWrite(quantity: int, e: Entry)
    ensures var none: map<int, int> := map[]; none[1 := quantity] == map[1 := quantity]
    ensures var none: seq<Entry> := []; none + [e] == [e]
  {}

  lemma CommitOf(s: StaleState, t: nat)
    requires Commits(s.base, Commit(t))
    ensures NextStale(s, Act(Commit(t))).base == CommitStep(s.base, t)
  {
    hide CommitStep;
  }

  lemma InOrder()
    ensures SerialReplay(TEN, [FIRST_DONE, SECOND_DONE], [1, 0]).Some?
    ensures SerialReplay(TEN, [FIRST_DONE, SECOND_DONE], [1, 0]).value.quantities == map[1 := 6]
  {
    var txns: seq<Txn> := [FIRST_DONE, SECOND_DONE];
    assert ONE_OUT[..0] == [] && THREE_OUT[..0] == [];
    assert TEN[1 := 7] == map[1 := 7] && map[1 := 7][1 := 6] == map[1 := 6];
    var none: seq<Row> := [];
    assert none + [Row(1, 1, -3, 7)] == [Row(1, 1, -3, 7)] && none + [Row(0, 1, -1, 6)] == [Row(0, 1, -1, 6)];
    assert Serial(TEN, 1, THREE_OUT) == Some(Books(map[1 := 7], [Row(1, 1, -3, 7)]));
    assert Serial(map[1 := 7], 0, ONE_OUT) == Some(Books(map[1 := 6], [Row(0, 1, -1, 6)]));
    hide Serial;
    var order: seq<nat> := [1, 0];
    assert order[..1] == [1] && order[..1][..0] == [];
    assert SerialReplay(TEN, txns, []) == Some(Books(TEN, []));
    assert SerialReplay(TEN, txns, order[..1]).value.quantities == map[1 := 7];
  }

  lemma StaleLonger(actions: seq<StaleAction>, a: StaleAction)
    ensures RunStale(TEN, actions + [a]) == NextStale(RunStale(TEN, actions), a)
  {
    assert (actions + [a])[..|actions|] == actions;
    hide NextStale;
  }

  lemma ThreeLonger(actions: seq<StaleAction>, a: StaleAction, b: StaleAction, c: StaleAction)
    ensures RunStale(TEN, actions + [a, b, c]) == NextStale(NextStale(NextStale(RunStale(TEN, actions), a), b), c)
  {
    hide NextStale;
    StaleLonger(actions, a);
    StaleLonger(actions + [a], b);
    StaleLonger(actions + [a] + [b], c);
    assert actions + [a] + [b] + [c] == actions + [a, b, c];
  }

  lemma RunUntilTaken()
    ensures RunStale(TEN, LOST[..6]) == TAKEN
  {
    hide NextStale;
    ThreeLonger([], LOST[0], LOST[1], LOST[2]);
    ThreeLonger(LOST[..3], LOST[3], LOST[4], LOST[5]);
    assert [] + [LOST[0], LOST[1], LOST[2]] == LOST[..3] && LOST[..3] + [LOST[3], LOST[4], LOST[5]] == LOST[..6];
    FirstReads();
    SecondTakes();
    NothingRun();
    hide RunStale;
  }

  /** Both transactions commit, four units are gone, and the row shows one less: no serial replay explains it. */
  lemma LostUpdate()
    ensures var s := RunStale(TEN, LOST).base;
            && s.order == [1, 0] && s.quantities == map[1 := 9]
            && s.txns == [FIRST_DONE, SECOND_DONE]
            && SerialReplay(TEN, [FIRST_DONE, SECOND_DONE], [1, 0]).Some?
            && SerialReplay(TEN, [FIRST_DONE, SECOND_DONE], [1, 0]).value.quantities == map[1 := 6]
            && !Serializable(TEN, s)
  {
    hide NextStale, SerialReplay, RunStale;
    RunUntilTaken();
    ThreeLonger(LOST[..6], LOST[6], LOST[7], LOST[8]);
    assert LOST[..6] + [LOST[6], LOST[7], LOST[8]] == LOST;
    FirstOverwrites();
    InOrder();
    assert map[1 := 6][1] != map[1 := 9][1];
    var s := RunStale(TEN, LOST).base;
    assert s.txns == [FIRST_DONE, SECOND_DONE] && s.order == [1, 0];
  }

  lemma NothingRun()
    ensures RunStale(TEN, []) == StaleState(Start(TEN), map[])
  {}
}
