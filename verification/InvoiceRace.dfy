/** Invoice generations interleaved step by step: the locked counter upsert, the unique order index,
    commits, aborts and the return-the-winner path (app/invoice/service.py, app/invoice/repository.py). */
module InvoiceRace {
  import opened Options
  import opened InvoiceNumbers

  datatype Issued = Issued(id: nat, biz: int, order: int, year: nat, sequence: nat)

  datatype Stage =
    | Begun
    | Missing                                 // no invoice found yet
    | Counted(year: nat, sequence: nat)       // holds the counter row
    | Inserted(invoice: Issued)               // holds the counter row and the order's index entry
    | Lost                                    // IntegrityError, rolled back
    | Returned(invoice: Issued)
    | Refused                                 // no such order, or not paid
    | Conflicted                              // the winner was not there after all
    | Aborted

  datatype Txn = Txn(biz: int, order: int, stage: Stage)

  /** `counters` and `invoices` are committed, invoices in commit order; `locks` are the counter rows
      and `claims` the order index entries held by transactions in flight. */
  datatype State = State(counters: map<(int, nat), nat>, invoices: seq<Issued>, locks: map<(int, nat), nat>,
                         claims: map<int, nat>, nextId: nat, txns: seq<Txn>)

  datatype Action =
    | Begin(biz: int, order: int)
    | Lookup(txn: nat)             // `get_by_order`, before or after the attempt
    | Count(txn: nat, year: nat)   // the upsert; blocked while another transaction holds the row
    | Insert(txn: nat)             // blocked while another insert of the order is undecided
    | Commit(txn: nat)
    | Abort(txn: nat)

  const START: State := State(map[], [], map[], map[], 0, [])

  predicate At(s: State, t: nat) {
    t < |s.txns|
  }

  function CounterOf(counters: map<(int, nat), nat>, biz: int, year: nat): nat {
    if (biz, year) in counters then counters[(biz, year)] else 0
  }

  predicate IsFor(v: Issued, biz: int, order: int) {
    v.biz == biz && v.order == order
  }

  ghost function FindIssued(invoices: seq<Issued>, biz: int, order: int): (r: Option<Issued>)
    ensures r.Some? ==> r.value in invoices && IsFor(r.value, biz, order)
    ensures r.None? ==> forall v | v in invoices :: !IsFor(v, biz, order)
  {
    if exists v :: v in invoices && IsFor(v, biz, order) then
      var v :| v in invoices && IsFor(v, biz, order);
      Some(v)
    else None
  }

  /** A unique index refuses the row: its order, or its number within the business. */
  predicate Clashes(invoices: seq<Issued>, v: Issued) {
    exists w | w in invoices ::
      w.order == v.order || (w.biz == v.biz && InvoiceNumber(w.year, w.sequence) == InvoiceNumber(v.year, v.sequence))
  }

  function SetStage(s: State, t: nat, stage: Stage): State
    requires At(s, t)
  {
    s.(txns := s.txns[t := s.txns[t].(stage := stage)])
  }

  /** Commit or rollback: whatever the transaction held is free again. */
  function End(s: State, t: nat, stage: Stage): State
    requires At(s, t)
  {
    SetStage(s, t, stage).(locks := map k | k in s.locks && s.locks[k] != t :: s.locks[k],
                           claims := map o | o in s.claims && s.claims[o] != t :: s.claims[o])
  }

  predicate InFlight(stage: Stage) {
    stage.Begun? || stage.Missing? || stage.Counted? || stage.Inserted?
  }

  /** One step; an action that is not enabled changes nothing. `owners` gives the business of every
      order that may be invoiced. */
  ghost function Next(owners: map<int, int>, s: State, a: Action): State {
    match a
    case Begin(biz, order) =>
      var known := order in owners && owners[order] == biz;
      s.(txns := s.txns + [Txn(biz, order, if known then Begun else Refused)])
    case Lookup(t) =>
      if !At(s, t) || !(s.txns[t].stage.Begun? || s.txns[t].stage.Lost?) then s
      else
        var found := FindIssued(s.invoices, s.txns[t].biz, s.txns[t].order);
        SetStage(s, t, if found.Some? then Returned(found.value)
                       else if s.txns[t].stage.Begun? then Missing else Conflicted)
    case Count(t, year) =>
      if !At(s, t) || !s.txns[t].stage.Missing? then s
      else
        var key := (s.txns[t].biz, year);
        if key in s.locks && s.locks[key] != t then s
        else SetStage(s, t, Counted(year, CounterOf(s.counters, s.txns[t].biz, year) + 1)).(locks := s.locks[key := t])
    case Insert(t) =>
      if !At(s, t) || !s.txns[t].stage.Counted? then s
      else
        var x := s.txns[t];
        var v := Issued(s.nextId, x.biz, x.order, x.stage.year, x.stage.sequence);
        if Clashes(s.invoices, v) then End(s, t, Lost).(nextId := s.nextId + 1)
        else if x.order in s.claims && s.claims[x.order] != t then s
        else SetStage(s, t, Inserted(v)).(claims := s.claims[x.order := t], nextId := s.nextId + 1)
    case Commit(t) =>
      if !At(s, t) || !s.txns[t].stage.Inserted? then s
      else
        var v := s.txns[t].stage.invoice;
        End(s, t, Returned(v)).(invoices := s.invoices + [v], counters := s.counters[(v.biz, v.year) := v.sequence])
    case Abort(t) => if !At(s, t) || !InFlight(s.txns[t].stage) then s else End(s, t, Aborted)
  }

  ghost function Run(owners: map<int, int>, actions: seq<Action>): State {
    if actions == [] then START
    else Next(owners, Run(owners, actions[..|actions| - 1]), actions[|actions| - 1])
  }

  // ----- what every reachable state satisfies -----

  /** The sequence numbers a business gave out in a year, in commit order. */
  function SequencesOf(invoices: seq<Issued>, biz: int, year: nat): seq<nat> {
    if invoices == [] then []
    else
      var v := invoices[|invoices| - 1];
      SequencesOf(invoices[..|invoices| - 1], biz, year) + (if v.biz == biz && v.year == year then [v.sequence] else [])
  }

  function OneTo(n: nat): seq<nat> {
    seq(n, i => i + 1)
  }

  ghost predicate OneInvoicePerOrder(invoices: seq<Issued>) {
    forall i, j | 0 <= i < j < |invoices| :: invoices[i].order != invoices[j].order
  }

  ghost predicate HasInvoice(invoices: seq<Issued>, biz: int, order: int) {
    exists v | v in invoices :: IsFor(v, biz, order)
  }

  predicate HoldsCounter(s: State, t: nat, biz: int, year: nat, sequence: nat) {
    (biz, year) in s.locks && s.locks[(biz, year)] == t && sequence == CounterOf(s.counters, biz, year) + 1
  }

  /** What each transaction may rely on at its stage. */
  ghost predicate Sound(owners: map<int, int>, s: State, t: nat)
    requires At(s, t)
  {
    var x := s.txns[t];
    && (x.stage.Refused? || (x.order in owners && owners[x.order] == x.biz))
    && match x.stage
       case Counted(year, sequence) => HoldsCounter(s, t, x.biz, year, sequence)
       case Inserted(v) =>
         && IsFor(v, x.biz, x.order) && HoldsCounter(s, t, v.biz, v.year, v.sequence)
         && x.order in s.claims && s.claims[x.order] == t
         && forall w | w in s.invoices :: w.order != x.order
       case Lost => HasInvoice(s.invoices, x.biz, x.order)
       case Returned(v) => v in s.invoices && IsFor(v, x.biz, x.order)
       case Conflicted => false
       case _ => true
  }

  ghost predicate Reachable(owners: map<int, int>, s: State) {
    && (forall biz: int, year: nat :: SequencesOf(s.invoices, biz, year) == OneTo(CounterOf(s.counters, biz, year)))
    && OneInvoicePerOrder(s.invoices)
    && (forall v | v in s.invoices :: v.order in owners && owners[v.order] == v.biz)
    && (forall t: nat | At(s, t) :: Sound(owners, s, t))
  }

  lemma SequencesLonger(invoices: seq<Issued>, v: Issued, biz: int, year: nat)
    ensures SequencesOf(invoices + [v], biz, year)
         == SequencesOf(invoices, biz, year) + (if v.biz == biz && v.year == year then [v.sequence] else [])
  {
    assert (invoices + [v])[..|invoices|] == invoices;
  }

  lemma {:induction false} SequenceListed(invoices: seq<Issued>, v: Issued)
    requires v in invoices
    ensures v.sequence in SequencesOf(invoices, v.biz, v.year)
  {
    var n := |invoices| - 1;
    assert invoices == invoices[..n] + [invoices[n]];
    if v != invoices[n] {
      SequenceListed(invoices[..n], v);
    }
  }

  lemma {:induction false} IssuedTwice(invoices: seq<Issued>, i: nat, j: nat)
    requires i < j < |invoices| && invoices[i].biz == invoices[j].biz && invoices[i].year == invoices[j].year
    requires SequencesOf(invoices, invoices[i].biz, invoices[i].year)
          == OneTo(|SequencesOf(invoices, invoices[i].biz, invoices[i].year)|)
    ensures invoices[i].sequence != invoices[j].sequence
    decreases |invoices|
  {
    var n := |invoices| - 1;
    var biz, year := invoices[i].biz, invoices[i].year;
    var all, earlier := SequencesOf(invoices, biz, year), SequencesOf(invoices[..n], biz, year);
    if j == n {
      SequenceListed(invoices[..n], invoices[..n][i]);
      var k :| 0 <= k < |earlier| && earlier[k] == invoices[i].sequence;
      assert all == earlier + [invoices[j].sequence];
      assert OneTo(|all|)[k] == k + 1 && OneTo(|all|)[|earlier|] == |earlier| + 1;
    } else {
      assert earlier == OneTo(|earlier|) by {
        assert forall k | 0 <= k < |earlier| :: earlier[k] == all[k];
      }
      IssuedTwice(invoices[..n], i, j);
    }
  }

  /** A number just drawn from its counter was never used: only the order can make an insert fail. */
  lemma FreshNumber(owners: map<int, int>, s: State, v: Issued)
    requires Reachable(owners, s) && v.sequence == CounterOf(s.counters, v.biz, v.year) + 1
    requires v.order in owners && owners[v.order] == v.biz
    ensures Clashes(s.invoices, v) <==> HasInvoice(s.invoices, v.biz, v.order)
  {
    if Clashes(s.invoices, v) {
      var w :| w in s.invoices
        && (|| w.order == v.order
            || (w.biz == v.biz && InvoiceNumber(w.year, w.sequence) == InvoiceNumber(v.year, v.sequence)));
      NumberInjective(w.year, w.sequence, v.year, v.sequence);
      SequenceListed(s.invoices, w);
      assert SequencesOf(s.invoices, w.biz, w.year) == OneTo(CounterOf(s.counters, w.biz, w.year));
      assert IsFor(w, v.biz, v.order);
    }
    if HasInvoice(s.invoices, v.biz, v.order) {
      var w :| w in s.invoices && IsFor(w, v.biz, v.order);
    }
  }

  /** A transaction keeps what it relies on while the others only release, lock or claim what is not its. */
  lemma SoundStays(owners: map<int, int>, s: State, next: State, t: nat)
    requires At(s, t) && Sound(owners, s, t)
    requires At(next, t) && next.txns[t] == s.txns[t]
    requires next.invoices == s.invoices && next.counters == s.counters
    requires forall k | k in s.locks && s.locks[k] == t :: k in next.locks && next.locks[k] == t
    requires forall o | o in s.claims && s.claims[o] == t :: o in next.claims && next.claims[o] == t
    ensures Sound(owners, next, t)
  {}

  /** What a commit leaves the others. */
  lemma SoundAfterCommit(owners: map<int, int>, s: State, t: nat, u: nat)
    requires At(s, t) && At(s, u) && t != u && s.txns[t].stage.Inserted?
    requires Sound(owners, s, t) && Sound(owners, s, u)
    ensures Sound(owners, Next(owners, s, Commit(t)), u)
  {
    var next, v := Next(owners, s, Commit(t)), s.txns[t].stage.invoice;
    assert next.invoices == s.invoices + [v];
    var x := s.txns[u];
    if x.stage.Lost? {
      var w :| w in s.invoices && IsFor(w, x.biz, x.order);
      assert w in next.invoices;
    }
  }

  lemma CommitKeepsNumbers(s: State, v: Issued, biz: int, year: nat)
    requires SequencesOf(s.invoices, biz, year) == OneTo(CounterOf(s.counters, biz, year))
    requires v.sequence == CounterOf(s.counters, v.biz, v.year) + 1
    ensures SequencesOf(s.invoices + [v], biz, year)
         == OneTo(CounterOf(s.counters[(v.biz, v.year) := v.sequence], biz, year))
  {
    SequencesLonger(s.invoices, v, biz, year);
  }

  lemma CommitKeepsReachable(owners: map<int, int>, s: State, t: nat)
    requires Reachable(owners, s) && At(s, t) && s.txns[t].stage.Inserted?
    ensures Reachable(owners, Next(owners, s, Commit(t)))
  {
    var next, v := Next(owners, s, Commit(t)), s.txns[t].stage.invoice;
    assert Sound(owners, s, t);
    assert next.invoices == s.invoices + [v] && next.counters == s.counters[(v.biz, v.year) := v.sequence];
    hide SequencesOf, OneTo;
    forall biz: int, year: nat
      ensures SequencesOf(next.invoices, biz, year) == OneTo(CounterOf(next.counters, biz, year))
    {
      CommitKeepsNumbers(s, v, biz, year);
    }
    assert Sound(owners, next, t);
    hide Sound;
    forall u: nat | At(next, u) ensures Sound(owners, next, u) {
      assert At(s, u);
      if u != t {
        SoundAfterCommit(owners, s, t, u);
      }
    }
  }

  lemma CountKeepsReachable(owners: map<int, int>, s: State, t: nat, year: nat)
    requires Reachable(owners, s)
    ensures Reachable(owners, Next(owners, s, Count(t, year)))
  {
    var next := Next(owners, s, Count(t, year));
    hide SequencesOf, OneTo;
    forall u: nat | At(next, u) ensures Sound(owners, next, u) {
      assert Sound(owners, s, u);
      if u != t {
        SoundStays(owners, s, next, u);
      }
    }
  }

  lemma InsertKeepsReachable(owners: map<int, int>, s: State, t: nat)
    requires Reachable(owners, s)
    ensures Reachable(owners, Next(owners, s, Insert(t)))
  {
    var next := Next(owners, s, Insert(t));
    if At(s, t) && s.txns[t].stage.Counted? {
      assert Sound(owners, s, t);
      var x := s.txns[t];
      var v := Issued(s.nextId, x.biz, x.order, x.stage.year, x.stage.sequence);
      FreshNumber(owners, s, v);
      hide SequencesOf, OneTo;
      forall u: nat | At(next, u) ensures Sound(owners, next, u) {
        assert Sound(owners, s, u);
        if u != t {
          SoundStays(owners, s, next, u);
        } else if next.txns[t].stage.Inserted? {
          assert forall w | w in s.invoices :: !(w.order == x.order);
        }
      }
    }
  }

  lemma LookupKeepsReachable(owners: map<int, int>, s: State, t: nat)
    requires Reachable(owners, s)
    ensures Reachable(owners, Next(owners, s, Lookup(t)))
  {
    var next := Next(owners, s, Lookup(t));
    hide SequencesOf, OneTo;
    forall u: nat | At(next, u) ensures Sound(owners, next, u) {
      assert Sound(owners, s, u);
      if u != t {
        SoundStays(owners, s, next, u);
      }
    }
  }

  lemma RestKeepsReachable(owners: map<int, int>, s: State, a: Action)
    requires Reachable(owners, s) && (a.Begin? || a.Abort?)
    ensures Reachable(owners, Next(owners, s, a))
  {
    var next := Next(owners, s, a);
    hide SequencesOf, OneTo;
    forall u: nat | At(next, u) ensures Sound(owners, next, u) {
      if At(s, u) {
        assert Sound(owners, s, u);
        if !(a.Abort? && u == a.txn) {
          SoundStays(owners, s, next, u);
        }
      }
    }
  }

  lemma {:induction false} EveryRunReachable(owners: map<int, int>, actions: seq<Action>)
    ensures Reachable(owners, Run(owners, actions))
  {
    if actions != [] {
      var s, a := Run(owners, actions[..|actions| - 1]), actions[|actions| - 1];
      EveryRunReachable(owners, actions[..|actions| - 1]);
      hide Reachable;
      match a
      case Begin(_, _) => RestKeepsReachable(owners, s, a);
      case Lookup(t) => LookupKeepsReachable(owners, s, t);
      case Count(t, year) => CountKeepsReachable(owners, s, t, year);
      case Insert(t) => InsertKeepsReachable(owners, s, t);
      case Commit(t) =>
        if At(s, t) && s.txns[t].stage.Inserted? {
          CommitKeepsReachable(owners, s, t);
        }
      case Abort(_) => RestKeepsReachable(owners, s, a);
    }
  }

  // ----- the results -----

  /** However generations interleave and abort, each business's committed sequence numbers of a year are
      exactly 1, 2, ..., up to its counter, in commit order. */
  lemma NumbersWithoutGaps(owners: map<int, int>, actions: seq<Action>, biz: int, year: nat)
    ensures var s := Run(owners, actions); SequencesOf(s.invoices, biz, year) == OneTo(CounterOf(s.counters, biz, year))
  {
    EveryRunReachable(owners, actions);
  }

  /** No two committed invoices share an order, and none of one business share a number. */
  lemma InvoicesDistinct(owners: map<int, int>, actions: seq<Action>, i: nat, j: nat)
    requires i < j < |Run(owners, actions).invoices|
    ensures var v, w := Run(owners, actions).invoices[i], Run(owners, actions).invoices[j];
            && v.order != w.order
            && (v.biz == w.biz ==> InvoiceNumber(v.year, v.sequence) != InvoiceNumber(w.year, w.sequence))
  {
    var s := Run(owners, actions);
    var v, w := s.invoices[i], s.invoices[j];
    EveryRunReachable(owners, actions);
    NumberInjective(v.year, v.sequence, w.year, w.sequence);
    if v.biz == w.biz && v.year == w.year {
      assert SequencesOf(s.invoices, v.biz, v.year) == OneTo(CounterOf(s.counters, v.biz, v.year));
      IssuedTwice(s.invoices, i, j);
    }
  }

  /** Every generation that returns an invoice returns the order's one committed invoice, whether it
      made it, found it, or lost to it. */
  lemma GenerationsAgree(owners: map<int, int>, actions: seq<Action>, t: nat, u: nat)
    requires var s := Run(owners, actions);
             && At(s, t) && At(s, u) && s.txns[t].order == s.txns[u].order
             && s.txns[t].stage.Returned? && s.txns[u].stage.Returned?
    ensures var s := Run(owners, actions);
            && s.txns[t].stage.invoice == s.txns[u].stage.invoice
            && s.txns[t].stage.invoice in s.invoices
            && IsFor(s.txns[t].stage.invoice, s.txns[t].biz, s.txns[t].order)
  {
    var s := Run(owners, actions);
    EveryRunReachable(owners, actions);
    assert Sound(owners, s, t) && Sound(owners, s, u);
    var v, w := s.txns[t].stage.invoice, s.txns[u].stage.invoice;
    var i :| 0 <= i < |s.invoices| && s.invoices[i] == v;
    var j :| 0 <= j < |s.invoices| && s.invoices[j] == w;
  }

  /** A generation that lost always finds the winner: the final Conflict cannot happen. */
  lemma WinnerAlwaysFound(owners: map<int, int>, actions: seq<Action>, t: nat)
    requires At(Run(owners, actions), t)
    ensures !Run(owners, actions).txns[t].stage.Conflicted?
    ensures Run(owners, actions).txns[t].stage.Lost? ==>
              Next(owners, Run(owners, actions), Lookup(t)).txns[t].stage.Returned?
  {
    var s := Run(owners, actions);
    EveryRunReachable(owners, actions);
    assert Sound(owners, s, t);
    hide Run, SequencesOf, OneTo;
  }

  /** Once an order's invoice is committed, every later generation that looks returns it. */
  lemma LaterGenerationsReturnIt(owners: map<int, int>, actions: seq<Action>, v: Issued, t: nat)
    requires var s := Run(owners, actions);
             v in s.invoices && At(s, t) && IsFor(v, s.txns[t].biz, s.txns[t].order)
             && (s.txns[t].stage.Begun? || s.txns[t].stage.Lost?)
    ensures Next(owners, Run(owners, actions), Lookup(t)).txns[t].stage == Returned(v)
  {
    var s := Run(owners, actions);
    EveryRunReachable(owners, actions);
    hide Run, SequencesOf, OneTo, Sound;
    var found := FindIssued(s.invoices, s.txns[t].biz, s.txns[t].order);
    assert found.Some?;
    var i :| 0 <= i < |s.invoices| && s.invoices[i] == v;
    var j :| 0 <= j < |s.invoices| && s.invoices[j] == found.value;
  }

  /** A generation from its start to its end with no other step in between. */
  ghost function Alone(owners: map<int, int>, s: State, biz: int, order: int, year: nat): State {
    var t := |s.txns|;
    var counted := Next(owners, Next(owners, Next(owners, s, Begin(biz, order)), Lookup(t)), Count(t, year));
    Next(owners, Next(owners, counted, Insert(t)), Commit(t))
  }

  /** A generation nobody gets in the way of: refused for an order of nobody's or another business's, answered
      with the invoice there is, and otherwise issuing the next number of its business and year. */
  lemma UndisturbedGeneration(owners: map<int, int>, s: State, biz: int, order: int, year: nat)
    requires Reachable(owners, s) && (biz, year) !in s.locks && order !in s.claims
    ensures var t, end := |s.txns|, Alone(owners, s, biz, order, year);
            var v := Issued(s.nextId, biz, order, year, CounterOf(s.counters, biz, year) + 1);
            && (order !in owners || owners[order] != biz ==> end == s.(txns := s.txns + [Txn(biz, order, Refused)]))
            && (forall w | w in s.invoices && w.biz == biz && w.order == order ::
                  end == s.(txns := s.txns + [Txn(biz, order, Returned(w))]))
            && (order in owners && owners[order] == biz
                && (forall w | w in s.invoices && w.biz == biz :: w.order != order) ==>
                  && end.invoices == s.invoices + [v] && end.txns == s.txns + [Txn(biz, order, Returned(v))]
                  && end.counters == s.counters[(biz, year) := v.sequence])
  {
    FreshNumberIfOwned(owners, s, Issued(s.nextId, biz, order, year, CounterOf(s.counters, biz, year) + 1));
    OneWinner(owners, s, biz, order);
    hide Reachable, Clashes;
    var t := |s.txns|;
    var looked := Next(owners, Next(owners, s, Begin(biz, order)), Lookup(t));
    if !(order in owners && owners[order] == biz) {
      assert looked == s.(txns := s.txns + [Txn(biz, order, Refused)]);
      SettledStays(owners, looked, t, year);
    } else if FindIssued(s.invoices, biz, order).Some? {
      assert looked == s.(txns := s.txns + [Txn(biz, order, Returned(FindIssued(s.invoices, biz, order).value))]);
      SettledStays(owners, looked, t, year);
    } else {
      assert looked == s.(txns := s.txns + [Txn(biz, order, Missing)]);
      UndisturbedAfterLookup(owners, s, looked, biz, order, year);
    }
  }

  lemma FreshNumberIfOwned(owners: map<int, int>, s: State, v: Issued)
    requires Reachable(owners, s) && v.sequence == CounterOf(s.counters, v.biz, v.year) + 1
    ensures v.order in owners && owners[v.order] == v.biz && FindIssued(s.invoices, v.biz, v.order).None? ==>
              !Clashes(s.invoices, v)
  {
    if v.order in owners && owners[v.order] == v.biz {
      FreshNumber(owners, s, v);
    }
  }

  /** The lookup has no choice, and finds nothing for an order that is not the business's. */
  lemma OneWinner(owners: map<int, int>, s: State, biz: int, order: int)
    requires Reachable(owners, s)
    ensures forall w | w in s.invoices && IsFor(w, biz, order) ::
              FindIssued(s.invoices, biz, order) == Some(w) && order in owners && owners[order] == biz
  {
    forall w | w in s.invoices && IsFor(w, biz, order) ensures FindIssued(s.invoices, biz, order) == Some(w) {
      var found := FindIssued(s.invoices, biz, order);
      var i :| 0 <= i < |s.invoices| && s.invoices[i] == w;
      var j :| 0 <= j < |s.invoices| && s.invoices[j] == found.value;
    }
  }

  lemma SettledStays(owners: map<int, int>, s: State, t: nat, year: nat)
    requires At(s, t) && (s.txns[t].stage.Refused? || s.txns[t].stage.Returned?)
    ensures Next(owners, s, Count(t, year)) == s && Next(owners, s, Insert(t)) == s && Next(owners, s, Commit(t)) == s
  {}

  lemma UndisturbedAfterLookup(owners: map<int, int>, s: State, looked: State, biz: int, order: int, year: nat)
    requires looked == s.(txns := s.txns + [Txn(biz, order, Missing)])
    requires (biz, year) !in s.locks && order !in s.claims
    requires !Clashes(s.invoices, Issued(s.nextId, biz, order, year, CounterOf(s.counters, biz, year) + 1))
    ensures var t := |s.txns|;
            var end := Next(owners, Next(owners, Next(owners, looked, Count(t, year)), Insert(t)), Commit(t));
            var v := Issued(s.nextId, biz, order, year, CounterOf(s.counters, biz, year) + 1);
            && end.invoices == s.invoices + [v] && end.txns == s.txns + [Txn(biz, order, Returned(v))]
            && end.counters == s.counters[(biz, year) := v.sequence]
  {
    hide Clashes;
  }
}
