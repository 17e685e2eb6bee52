/** Competing verifications of the attempts of one order, interleaved step by step: payment row locks,
    unlocked order reads, the unique indexes, one commit for payment and order, publication after it
    (app/payment/service.py, app/payment/models.py). */
module PaymentRace {
  import opened Options
  import opened Schema
  import opened Payments

  /** What the checks make of the gateway's answer; a cash payment is a success without a reference. */
  datatype Verdict = StillPending | Rejected(code: string) | Accepted(reference: Option<string>)

  /** A committed payment row of the order; `writer` is the verification that last changed it. */
  datatype Attempt = Attempt(status: PaymentStatus, reference: Option<string>, writer: Option<nat>)

  datatype Reply = Refused | AlreadyPaid | Answered | RolledBack | Unreported

  datatype Stage =
    | Begun
    | Locked                                   // holds the payment row, found verifiable
    | Checked                                  // has read the order as CONFIRMED
    | Judged(verdict: Verdict)
    | Flushed(reference: Option<string>)       // SUCCESS sent; holds the index entries
    | Applied(reference: Option<string>)       // the order's PAY transition accepted, not yet committed
    | Saved(verdict: Verdict)                  // committed, events still to be published
    | Done(reply: Reply)

  datatype Verifier = Verifier(payment: int, stage: Stage)

  datatype Published = SucceededEvent(payment: int) | FailedEvent(payment: int)

  /** `paidBy` is the verification that made the order PAID; without one it is CONFIRMED. `claim` and
      `references` are the uncommitted entries of the two unique indexes. */
  datatype State = State(attempts: map<int, Attempt>, paidBy: Option<nat>, locks: map<int, nat>,
                         claim: Option<nat>, references: map<string, nat>, verifiers: seq<Verifier>,
                         published: seq<Published>)

  datatype Action =
    | Initiate(payment: int)
    | Begin(payment: int)
    | Lock(v: nat)                      // blocked while another verification holds the row
    | ReadOrder(v: nat)
    | Ask(v: nat, verdict: Option<Verdict>)
    | Flush(v: nat)                     // blocked while another one holds the index entry
    | Pay(v: nat, stale: bool)          // the order row may be the one read earlier
    | Commit(v: nat)
    | Publish(v: nat)
    | Abort(v: nat)

  const START: State := State(map[], None, map[], None, map[], [], [])

  predicate At(s: State, v: nat) {
    v < |s.verifiers|
  }

  function StageOf(s: State, v: nat): Stage
    requires At(s, v)
  {
    s.verifiers[v].stage
  }

  function SetStage(s: State, v: nat, stage: Stage): State
    requires At(s, v)
  {
    s.(verifiers := s.verifiers[v := s.verifiers[v].(stage := stage)])
  }

  /** Commit or rollback: locks and uncommitted index entries go. */
  function End(s: State, v: nat, stage: Stage): State
    requires At(s, v)
  {
    SetStage(s, v, stage).(locks := map p | p in s.locks && s.locks[p] != v :: s.locks[p],
                           claim := if s.claim == Some(v) then None else s.claim,
                           references := map r | r in s.references && s.references[r] != v :: s.references[r])
  }

  predicate SomeSuccess(attempts: map<int, Attempt>) {
    exists p | p in attempts :: attempts[p].status == Success
  }

  predicate ReferenceTaken(attempts: map<int, Attempt>, foreign: set<string>, reference: Option<string>) {
    reference.Some? && (reference.value in foreign || exists p | p in attempts :: attempts[p].reference == reference)
  }

  /** Another verification's undecided index entry makes this one wait. */
  predicate MustWait(s: State, v: nat, reference: Option<string>) {
    || (s.claim.Some? && s.claim != Some(v))
    || (reference.Some? && reference.value in s.references && s.references[reference.value] != v)
  }

  predicate HoldsRow(stage: Stage) {
    stage.Locked? || stage.Checked? || stage.Judged? || stage.Flushed? || stage.Applied?
  }

  function LockStep(s: State, v: nat): State
    requires At(s, v)
  {
    var p := s.verifiers[v].payment;
    if p !in s.attempts then SetStage(s, v, Done(Refused))
    else if p in s.locks then s
    else if s.attempts[p].status == Success then SetStage(s, v, Done(AlreadyPaid))
    else if !Verifiable(s.attempts[p].status) then SetStage(s, v, Done(Refused))
    else SetStage(s, v, Locked).(locks := s.locks[p := v])
  }

  function FlushStep(foreign: set<string>, s: State, v: nat, reference: Option<string>): State
    requires At(s, v)
  {
    if SomeSuccess(s.attempts) || ReferenceTaken(s.attempts, foreign, reference) then End(s, v, Done(Refused))
    else if MustWait(s, v, reference) then s
    else SetStage(s, v, Flushed(reference)).(
           claim := Some(v),
           references := if reference.Some? then s.references[reference.value := v] else s.references)
  }

  /** What a commit makes durable: the row alone, or the row as SUCCESS and the order as PAID together. */
  function CommitStep(s: State, v: nat): State
    requires At(s, v)
  {
    var p := s.verifiers[v].payment;
    if p !in s.attempts then s
    else match StageOf(s, v)
         case Judged(StillPending) =>
           End(s, v, Saved(StillPending)).(
             attempts := s.attempts[p := s.attempts[p].(status := Pending, writer := Some(v))])
         case Judged(Rejected(code)) =>
           End(s, v, Saved(Rejected(code))).(
             attempts := s.attempts[p := s.attempts[p].(status := PaymentStatus.Failed, writer := Some(v))])
         case Applied(reference) =>
           End(s, v, Saved(Accepted(reference))).(
             attempts := s.attempts[p := Attempt(Success, reference, Some(v))], paidBy := Some(v))
         case _ => s
  }

  function PublishStep(s: State, v: nat, verdict: Verdict): State
    requires At(s, v)
  {
    var p := s.verifiers[v].payment;
    SetStage(s, v, Done(Answered)).(
      published := s.published + match verdict
                                 case StillPending => []
                                 case Rejected(_) => [FailedEvent(p)]
                                 case Accepted(_) => [SucceededEvent(p)])
  }

  /** One step; an action that is not enabled changes nothing. `foreign` holds the gateway references
      already backing other orders' payments. */
  function Next(foreign: set<string>, s: State, a: Action): State {
    match a
    case Initiate(p) => if p in s.attempts then s else s.(attempts := s.attempts[p := Attempt(Initiated, None, None)])
    case Begin(p) => s.(verifiers := s.verifiers + [Verifier(p, Begun)])
    case Lock(v) => if At(s, v) && StageOf(s, v) == Begun then LockStep(s, v) else s
    case ReadOrder(v) =>
      if !At(s, v) || StageOf(s, v) != Locked then s
      else if s.paidBy.Some? then End(s, v, Done(Refused)) else SetStage(s, v, Checked)
    case Ask(v, verdict) =>
      if !At(s, v) || StageOf(s, v) != Checked then s
      else if verdict.None? then End(s, v, Done(Refused)) else SetStage(s, v, Judged(verdict.value))
    case Flush(v) =>
      if At(s, v) && StageOf(s, v).Judged? && StageOf(s, v).verdict.Accepted?
      then FlushStep(foreign, s, v, StageOf(s, v).verdict.reference) else s
    case Pay(v, stale) =>
      if !At(s, v) || !StageOf(s, v).Flushed? then s
      else if !stale && s.paidBy.Some? then End(s, v, Done(Refused))
      else SetStage(s, v, Applied(StageOf(s, v).reference))
    case Commit(v) => if At(s, v) then CommitStep(s, v) else s
    case Publish(v) => if At(s, v) && StageOf(s, v).Saved? then PublishStep(s, v, StageOf(s, v).verdict) else s
    case Abort(v) =>
      if !At(s, v) || StageOf(s, v).Done? then s
      else if StageOf(s, v).Saved? then SetStage(s, v, Done(Unreported))
      else End(s, v, Done(RolledBack))
  }

  function Run(foreign: set<string>, actions: seq<Action>): State {
    if actions == [] then START
    else Next(foreign, Run(foreign, actions[..|actions| - 1]), actions[|actions| - 1])
  }

  // ----- what every reachable state satisfies -----

  /** The verification's commit went through. */
  predicate HasCommitted(stage: Stage) {
    stage.Saved? || stage in {Done(Answered), Done(Unreported)}
  }

  /** What a verification may rely on at its stage. */
  predicate Sound(s: State, v: nat)
    requires At(s, v)
  {
    var x := s.verifiers[v];
    && (HoldsRow(x.stage) ==>
          && x.payment in s.locks && s.locks[x.payment] == v
          && x.payment in s.attempts && Verifiable(s.attempts[x.payment].status))
    && (x.stage.Flushed? || x.stage.Applied? ==>
          && s.claim == Some(v) && !SomeSuccess(s.attempts)
          && (x.stage.reference.Some? ==>
                x.stage.reference.value in s.references && s.references[x.stage.reference.value] == v))
    && (x.stage.Saved? ==> (x.stage.verdict.Accepted? <==> s.paidBy == Some(v)))
  }

  /** A row names the verification that wrote it, and PAID is written with its SUCCESS row. */
  predicate Written(s: State, p: int)
    requires p in s.attempts
  {
    var row := s.attempts[p];
    && (row.writer.Some? ==>
          && At(s, row.writer.value) && s.verifiers[row.writer.value].payment == p
          && HasCommitted(StageOf(s, row.writer.value)))
    && (row.status == Success ==> row.writer.Some? && s.paidBy == row.writer)
  }

  predicate PaidWithSuccess(s: State) {
    s.paidBy.Some? ==>
      && At(s, s.paidBy.value)
      && var p := s.verifiers[s.paidBy.value].payment;
         p in s.attempts && s.attempts[p].status == Success
  }

  function CountSucceeded(published: seq<Published>): nat {
    if published == [] then 0
    else CountSucceeded(published[..|published| - 1]) + (if published[|published| - 1].SucceededEvent? then 1 else 0)
  }

  /** PaymentSucceeded has been published once if the paying verification got to answer, else never. */
  predicate EventCounted(s: State) {
    CountSucceeded(s.published)
    == (if s.paidBy.Some? && At(s, s.paidBy.value) && StageOf(s, s.paidBy.value) == Done(Answered) then 1 else 0)
  }

  ghost predicate Reachable(s: State) {
    && (forall v: nat | At(s, v) :: Sound(s, v))
    && (forall p | p in s.attempts :: Written(s, p))
    && PaidWithSuccess(s)
    && EventCounted(s)
  }

  lemma CountLonger(published: seq<Published>, e: Published)
    ensures CountSucceeded(published + [e]) == CountSucceeded(published) + (if e.SucceededEvent? then 1 else 0)
  {
    assert (published + [e])[..|published|] == published;
  }

  /** Steps that move one verification along, or end it without a commit. */
  ghost predicate Uncommitted(s: State, next: State, v: nat) {
    && At(s, v) && At(next, v) && |next.verifiers| == |s.verifiers|
    && next.attempts == s.attempts && next.paidBy == s.paidBy && next.published == s.published
    && next.verifiers[v].payment == s.verifiers[v].payment
    && !HasCommitted(StageOf(s, v)) && !HasCommitted(StageOf(next, v))
    && (forall u: nat | At(s, u) && u != v :: next.verifiers[u] == s.verifiers[u])
    && (forall p | p in s.locks && s.locks[p] != v :: p in next.locks && next.locks[p] == s.locks[p])
    && (s.claim.Some? && s.claim != Some(v) ==> next.claim == s.claim)
    && (forall r | r in s.references && s.references[r] != v ::
          r in next.references && next.references[r] == s.references[r])
  }

  lemma UncommittedKeepsReachable(s: State, next: State, v: nat)
    requires Reachable(s) && Uncommitted(s, next, v) && Sound(next, v)
    ensures Reachable(next)
  {
    forall u: nat | At(next, u) ensures Sound(next, u) {
      assert Sound(s, u);
    }
    forall p | p in next.attempts ensures Written(next, p) {
      assert Written(s, p);
    }
    if s.paidBy.Some? {
      var p := s.verifiers[s.paidBy.value].payment;
      assert Written(s, p);
    }
  }

  /** The paying verification has committed. */
  lemma PayerCommitted(s: State)
    requires Reachable(s) && s.paidBy.Some?
    ensures At(s, s.paidBy.value) && HasCommitted(StageOf(s, s.paidBy.value))
  {
    assert Written(s, s.verifiers[s.paidBy.value].payment);
  }

  lemma CommitSound(s: State, v: nat, u: nat)
    requires Reachable(s) && At(s, v) && At(s, u) && !HasCommitted(StageOf(s, v))
    ensures Sound(CommitStep(s, v), u)
  {
    SoundAt(s, v);
    SoundAt(s, u);
    if s.paidBy.Some? {
      PayerCommitted(s);
    }
    hide Reachable;
  }

  lemma CommitWritten(s: State, v: nat, p: int)
    requires Reachable(s) && At(s, v) && p in CommitStep(s, v).attempts
    ensures Written(CommitStep(s, v), p)
  {
    SoundAt(s, v);
    assert Written(s, p);
    hide Reachable;
  }

  lemma CommitKeepsReachable(s: State, v: nat)
    requires Reachable(s) && At(s, v) && HoldsRow(StageOf(s, v))
    ensures Reachable(CommitStep(s, v))
  {
    var next := CommitStep(s, v);
    assert Sound(s, v);
    if s.paidBy.Some? {
      PayerCommitted(s);
    }
    forall u: nat | At(next, u) ensures Sound(next, u) {
      CommitSound(s, v, u);
    }
    forall p | p in next.attempts ensures Written(next, p) {
      CommitWritten(s, v, p);
    }
    hide Sound, Written;
  }

  /** After its commit a verification answers or is lost; the tables do not change. */
  lemma SettlingKeepsReachable(s: State, v: nat, reply: Reply, published: seq<Published>)
    requires Reachable(s) && At(s, v) && StageOf(s, v).Saved? && reply in {Answered, Unreported}
    requires EventCounted(SetStage(s, v, Done(reply)).(published := published))
    ensures Reachable(SetStage(s, v, Done(reply)).(published := published))
  {
    var next := SetStage(s, v, Done(reply)).(published := published);
    forall u: nat | At(next, u) ensures Sound(next, u) {
      assert Sound(s, u);
    }
    forall q | q in next.attempts ensures Written(next, q) {
      assert Written(s, q);
    }
  }

  lemma PublishKeepsReachable(s: State, v: nat)
    requires Reachable(s) && At(s, v) && StageOf(s, v).Saved?
    ensures Reachable(PublishStep(s, v, StageOf(s, v).verdict))
  {
    var verdict := StageOf(s, v).verdict;
    var next, p := PublishStep(s, v, verdict), s.verifiers[v].payment;
    assert Sound(s, v);
    if verdict.Accepted? {
      CountLonger(s.published, SucceededEvent(p));
    } else if verdict.Rejected? {
      CountLonger(s.published, FailedEvent(p));
    } else {
      assert next.published == s.published;
    }
    hide CountSucceeded;
    assert EventCounted(next);
    hide Reachable, EventCounted;
    SettlingKeepsReachable(s, v, Answered, next.published);
  }

  lemma AbortKeepsReachable(s: State, v: nat)
    requires Reachable(s) && At(s, v) && !StageOf(s, v).Done?
    ensures Reachable(Next({}, s, Abort(v)))
  {
    if StageOf(s, v).Saved? {
      SettlingKeepsReachable(s, v, Unreported, s.published);
    } else {
      UncommittedKeepsReachable(s, End(s, v, Done(RolledBack)), v);
    }
  }

  lemma FlushKeepsReachable(foreign: set<string>, s: State, v: nat)
    requires Reachable(s) && At(s, v) && StageOf(s, v).Judged? && StageOf(s, v).verdict.Accepted?
    ensures Reachable(FlushStep(foreign, s, v, StageOf(s, v).verdict.reference))
  {
    assert Sound(s, v);
    UncommittedKeepsReachable(s, FlushStep(foreign, s, v, StageOf(s, v).verdict.reference), v);
  }

  /** Opening an attempt or a verification. */
  lemma OpeningKeepsReachable(foreign: set<string>, s: State, a: Action)
    requires Reachable(s) && (a.Initiate? || a.Begin?)
    ensures Reachable(Next(foreign, s, a))
  {
    var next := Next(foreign, s, a);
    forall u: nat | At(next, u) ensures Sound(next, u) {
      assert At(s, u) ==> Sound(s, u);
    }
    forall p | p in next.attempts ensures Written(next, p) {
      assert p in s.attempts ==> Written(s, p);
    }
  }

  lemma LockKeepsReachable(s: State, v: nat)
    requires Reachable(s) && At(s, v) && StageOf(s, v) == Begun
    ensures Reachable(LockStep(s, v))
  {
    var next := LockStep(s, v);
    if next != s {
      assert Sound(s, v);
      UncommittedKeepsReachable(s, next, v);
    }
  }

  lemma AdvancingKeepsReachable(foreign: set<string>, s: State, a: Action)
    requires Reachable(s) && (a.ReadOrder? || a.Ask? || a.Pay?)
    ensures Reachable(Next(foreign, s, a))
  {
    var next := Next(foreign, s, a);
    if next != s {
      SoundAt(s, a.v);
      hide Reachable, SomeSuccess;
      UncommittedKeepsReachable(s, next, a.v);
    }
  }

  lemma StepKeepsReachable(foreign: set<string>, s: State, a: Action)
    requires Reachable(s)
    ensures Reachable(Next(foreign, s, a))
  {
    hide Reachable, FlushStep, PublishStep, LockStep;
    match a
    case Initiate(_) => OpeningKeepsReachable(foreign, s, a);
    case Begin(_) => OpeningKeepsReachable(foreign, s, a);
    case Flush(v) =>
      if At(s, v) && StageOf(s, v).Judged? && StageOf(s, v).verdict.Accepted? {
        FlushKeepsReachable(foreign, s, v);
      }
    case Commit(v) =>
      if At(s, v) && HoldsRow(StageOf(s, v)) {
        CommitKeepsReachable(s, v);
      }
    case Publish(v) =>
      if At(s, v) && StageOf(s, v).Saved? {
        PublishKeepsReachable(s, v);
      }
    case Abort(v) =>
      if At(s, v) && !StageOf(s, v).Done? {
        AbortKeepsReachable(s, v);
      }
    case Lock(v) =>
      if At(s, v) && StageOf(s, v) == Begun {
        LockKeepsReachable(s, v);
      }
    case _ => AdvancingKeepsReachable(foreign, s, a);
  }

  lemma {:induction false} EveryRunReachable(foreign: set<string>, actions: seq<Action>)
    ensures Reachable(Run(foreign, actions))
  {
    hide Next;
    if actions != [] {
      EveryRunReachable(foreign, actions[..|actions| - 1]);
      StepKeepsReachable(foreign, Run(foreign, actions[..|actions| - 1]), actions[|actions| - 1]);
    }
  }

  // ----- nothing is held by a verification that is over -----

  predicate HoldsEntries(stage: Stage) {
    stage.Flushed? || stage.Applied?
  }

  /** Every lock belongs to a verification at work on that row, every index entry to one past its flush. */
  predicate HeldByHolders(s: State) {
    && (forall p | p in s.locks ::
          At(s, s.locks[p]) && s.verifiers[s.locks[p]].payment == p && HoldsRow(StageOf(s, s.locks[p])))
    && (s.claim.Some? ==> At(s, s.claim.value) && HoldsEntries(StageOf(s, s.claim.value)))
    && (forall r | r in s.references ::
          && At(s, s.references[r]) && HoldsEntries(StageOf(s, s.references[r]))
          && StageOf(s, s.references[r]).reference == Some(r))
  }

  lemma EndReleases(s: State, v: nat, stage: Stage)
    requires HeldByHolders(s) && At(s, v)
    ensures HeldByHolders(End(s, v, stage))
  {}

  /** Moving on with everything still needed keeps it. */
  lemma MovingOnHolds(s: State, v: nat, stage: Stage)
    requires HeldByHolders(s) && At(s, v)
    requires HoldsRow(StageOf(s, v)) ==> HoldsRow(stage)
    requires HoldsEntries(StageOf(s, v)) ==> HoldsEntries(stage) && stage.reference == StageOf(s, v).reference
    ensures HeldByHolders(SetStage(s, v, stage))
  {}

  lemma TablesDoNotMatter(s: State, next: State)
    requires HeldByHolders(s)
    requires next == s.(attempts := next.attempts, paidBy := next.paidBy, published := next.published)
    ensures HeldByHolders(next)
  {}

  lemma CommitReleases(s: State, v: nat)
    requires HeldByHolders(s) && At(s, v)
    ensures HeldByHolders(CommitStep(s, v))
  {
    hide HeldByHolders, End;
    var next := CommitStep(s, v);
    if next != s {
      var was := StageOf(s, v);
      var stage := Saved(if was.Judged? then was.verdict else Accepted(was.reference));
      EndReleases(s, v, stage);
      TablesDoNotMatter(End(s, v, stage), next);
    }
  }

  lemma NewVerifierHolds(s: State, x: Verifier)
    requires HeldByHolders(s)
    ensures HeldByHolders(s.(verifiers := s.verifiers + [x]))
  {}

  lemma FlushHolds(foreign: set<string>, s: State, v: nat)
    requires HeldByHolders(s) && At(s, v) && StageOf(s, v).Judged? && StageOf(s, v).verdict.Accepted?
    ensures HeldByHolders(FlushStep(foreign, s, v, StageOf(s, v).verdict.reference))
  {
    EndReleases(s, v, Done(Refused));
  }

  lemma LockHolds(s: State, v: nat)
    requires HeldByHolders(s) && At(s, v) && StageOf(s, v) == Begun
    ensures HeldByHolders(LockStep(s, v))
  {}

  lemma StepKeepsHolders(foreign: set<string>, s: State, a: Action)
    requires HeldByHolders(s)
    ensures HeldByHolders(Next(foreign, s, a))
  {
    hide HeldByHolders, FlushStep, LockStep, CommitStep, End;
    match a
    case Initiate(_) => TablesDoNotMatter(s, Next(foreign, s, a));
    case Begin(p) => NewVerifierHolds(s, Verifier(p, Begun));
    case Lock(v) =>
      if At(s, v) && StageOf(s, v) == Begun {
        LockHolds(s, v);
      }
    case ReadOrder(v) =>
      if At(s, v) && StageOf(s, v) == Locked {
        EndReleases(s, v, Done(Refused));
        MovingOnHolds(s, v, Checked);
      }
    case Ask(v, verdict) =>
      if At(s, v) && StageOf(s, v) == Checked {
        EndReleases(s, v, Done(Refused));
        if verdict.Some? {
          MovingOnHolds(s, v, Judged(verdict.value));
        }
      }
    case Flush(v) =>
      if At(s, v) && StageOf(s, v).Judged? && StageOf(s, v).verdict.Accepted? {
        FlushHolds(foreign, s, v);
      }
    case Pay(v, _) =>
      if At(s, v) && StageOf(s, v).Flushed? {
        EndReleases(s, v, Done(Refused));
        MovingOnHolds(s, v, Applied(StageOf(s, v).reference));
      }
    case Commit(v) =>
      if At(s, v) {
        CommitReleases(s, v);
      }
    case Publish(v) =>
      if At(s, v) && StageOf(s, v).Saved? {
        MovingOnHolds(s, v, Done(Answered));
        TablesDoNotMatter(SetStage(s, v, Done(Answered)), Next(foreign, s, a));
      }
    case Abort(v) =>
      if At(s, v) {
        EndReleases(s, v, Done(RolledBack));
        if StageOf(s, v).Saved? {
          MovingOnHolds(s, v, Done(Unreported));
        }
      }
  }

  lemma {:induction false} EveryRunHeldByHolders(foreign: set<string>, actions: seq<Action>)
    ensures HeldByHolders(Run(foreign, actions))
  {
    if actions != [] {
      hide Next, HeldByHolders;
      EveryRunHeldByHolders(foreign, actions[..|actions| - 1]);
      StepKeepsHolders(foreign, Run(foreign, actions[..|actions| - 1]), actions[|actions| - 1]);
    }
  }

  // ----- the results -----

  /** At most one attempt of the order is ever SUCCESS, and the order is PAID exactly when one is. */
  lemma OnePaymentPerOrder(foreign: set<string>, actions: seq<Action>)
    ensures var s := Run(foreign, actions);
            && (forall p, q | p in s.attempts && q in s.attempts && s.attempts[p].status == Success
                              && s.attempts[q].status == Success :: p == q)
            && (s.paidBy.Some? <==> SomeSuccess(s.attempts))
  {
    var s := Run(foreign, actions);
    EveryRunReachable(foreign, actions);
    hide Run;
    forall p | p in s.attempts && s.attempts[p].status == Success
      ensures s.paidBy.Some? && At(s, s.paidBy.value) && s.verifiers[s.paidBy.value].payment == p
    {
      assert Written(s, p);
    }
  }

  /** PaymentSucceeded is published at most once, and only after the commit that paid the order. */
  lemma SuccessPublishedOnce(foreign: set<string>, actions: seq<Action>)
    ensures var s := Run(foreign, actions);
            && CountSucceeded(s.published) <= 1
            && (CountSucceeded(s.published) == 1 ==> s.paidBy.Some? && SomeSuccess(s.attempts))
  {
    EveryRunReachable(foreign, actions);
  }

  /** The verification holds no row lock and no uncommitted index entry. */
  predicate HoldsNothing(s: State, v: nat) {
    && (forall p | p in s.locks :: s.locks[p] != v)
    && s.claim != Some(v)
    && (forall r | r in s.references :: s.references[r] != v)
  }

  /** A verification that is refused, rolled back, or still running has written no row of the order: not
      its own attempt's, not another's, and not PAID. Once over, and as soon as it has committed, it holds
      no lock and no index entry either. */
  lemma LosersLeaveNothing(foreign: set<string>, actions: seq<Action>, v: nat)
    requires At(Run(foreign, actions), v)
    ensures var s := Run(foreign, actions);
            && (!HasCommitted(StageOf(s, v)) ==>
                  s.paidBy != Some(v) && forall p | p in s.attempts :: s.attempts[p].writer != Some(v))
            && (!HoldsRow(StageOf(s, v)) ==> HoldsNothing(s, v))
  {
    var s := Run(foreign, actions);
    EveryRunReachable(foreign, actions);
    EveryRunHeldByHolders(foreign, actions);
    hide Run;
    if s.paidBy.Some? {
      PayerCommitted(s);
    }
    forall p | p in s.attempts && s.attempts[p].writer == Some(v) ensures HasCommitted(StageOf(s, v)) {
      assert Written(s, p);
    }
  }

  /** The commit that makes an attempt SUCCESS makes the order PAID, and no other step does either. */
  lemma PaidInTheSameCommit(foreign: set<string>, actions: seq<Action>, a: Action)
    ensures var s := Run(foreign, actions);
            var next := Next(foreign, s, a);
            && ((SomeSuccess(next.attempts) && !SomeSuccess(s.attempts)) <==> (next.paidBy.Some? && s.paidBy.None?))
            && (s.paidBy.Some? ==> next.paidBy == s.paidBy)
            && (next.paidBy != s.paidBy ==> a.Commit? && next.paidBy == Some(a.v))
  {
    var s := Run(foreign, actions);
    EveryRunReachable(foreign, actions);
    assert (actions + [a])[..|actions|] == actions;
    OnePaymentPerOrder(foreign, actions);
    OnePaymentPerOrder(foreign, actions + [a]);
    hide Run, Reachable;
    if a.Commit? && At(s, a.v) {
      SoundAt(s, a.v);
    }
  }

  lemma SoundAt(s: State, v: nat)
    requires Reachable(s) && At(s, v)
    ensures Sound(s, v)
  {}

  /** Once the SUCCESS row is flushed, the order still awaits payment: whether or not the order row is
      read again, the PAY transition cannot conflict. */
  lemma PayNeverConflictsAfterFlush(foreign: set<string>, actions: seq<Action>, v: nat, stale: bool)
    requires At(Run(foreign, actions), v) && StageOf(Run(foreign, actions), v).Flushed?
    ensures var s := Run(foreign, actions);
            && s.paidBy.None?
            && StageOf(Next(foreign, s, Pay(v, stale)), v) == Applied(StageOf(s, v).reference)
  {
    var s := Run(foreign, actions);
    EveryRunReachable(foreign, actions);
    OnePaymentPerOrder(foreign, actions);
    SoundAt(s, v);
    hide Run, Reachable;
  }

  lemma SuccessNotLocked(foreign: set<string>, actions: seq<Action>, p: int)
    requires p in Run(foreign, actions).attempts && Run(foreign, actions).attempts[p].status == Success
    ensures p !in Run(foreign, actions).locks
  {
    var s := Run(foreign, actions);
    EveryRunReachable(foreign, actions);
    EveryRunHeldByHolders(foreign, actions);
    hide Run;
    if p in s.locks {
      SoundAt(s, s.locks[p]);
    }
  }

  /** A step leaves a SUCCESS row as it is. */
  lemma SuccessStays(foreign: set<string>, s: State, a: Action, p: int)
    requires Reachable(s) && p in s.attempts && s.attempts[p].status == Success
    ensures p in Next(foreign, s, a).attempts && Next(foreign, s, a).attempts[p] == s.attempts[p]
  {
    if a.Commit? && At(s, a.v) {
      SoundAt(s, a.v);
    }
    hide Reachable, FlushStep;
  }

  /** Once an attempt is SUCCESS nothing that follows ever changes its row. */
  lemma {:induction false} SuccessIsFinal(foreign: set<string>, actions: seq<Action>, more: seq<Action>, p: int)
    requires p in Run(foreign, actions).attempts && Run(foreign, actions).attempts[p].status == Success
    ensures p in Run(foreign, actions + more).attempts
    ensures Run(foreign, actions + more).attempts[p] == Run(foreign, actions).attempts[p]
  {
    hide Next;
    if more == [] {
      assert actions + more == actions;
    } else {
      var fewer := more[..|more| - 1];
      assert (actions + more)[..|actions + more| - 1] == actions + fewer;
      SuccessIsFinal(foreign, actions, fewer, p);
      EveryRunReachable(foreign, actions + fewer);
      SuccessStays(foreign, Run(foreign, actions + fewer), more[|more| - 1], p);
    }
  }

  /** A verification of a SUCCESS row that has not got past its start, or is over. */
  predicate Idle(s: State, v: nat, p: int) {
    At(s, v) && s.verifiers[v].payment == p ==> StageOf(s, v) in {Begun, Done(AlreadyPaid), Done(RolledBack)}
  }

  lemma StaysIdle(foreign: set<string>, s: State, a: Action, v: nat, p: int)
    requires p in s.attempts && s.attempts[p].status == Success && Idle(s, v, p)
    ensures Idle(Next(foreign, s, a), v, p)
  {
    hide SomeSuccess, ReferenceTaken, MustWait;
  }

  lemma {:induction false} LaterOnesIdle(foreign: set<string>, actions: seq<Action>, more: seq<Action>, v: nat, p: int)
    requires p in Run(foreign, actions).attempts && Run(foreign, actions).attempts[p].status == Success
    requires |Run(foreign, actions).verifiers| <= v
    ensures Idle(Run(foreign, actions + more), v, p)
  {
    hide Next;
    if more == [] {
      assert actions + more == actions;
    } else {
      var fewer := more[..|more| - 1];
      assert (actions + more)[..|actions + more| - 1] == actions + fewer;
      LaterOnesIdle(foreign, actions, fewer, v, p);
      SuccessIsFinal(foreign, actions, fewer, p);
      StaysIdle(foreign, Run(foreign, actions + fewer), more[|more| - 1], v, p);
    }
  }

  /** If the attempt was SUCCESS before, this verification of it is still at its start, and not kept waiting,
      or has ended as already paid or rolled back; the row is as it was. */
  predicate EndsAlreadyPaid(foreign: set<string>, s: State, later: State, v: nat)
    requires At(later, v)
  {
    var p := later.verifiers[v].payment;
    p in s.attempts && s.attempts[p].status == Success ==>
      && StageOf(later, v) in {Begun, Done(AlreadyPaid), Done(RolledBack)}
      && (StageOf(later, v) == Begun ==> Next(foreign, later, Lock(v)) == SetStage(later, v, Done(AlreadyPaid)))
      && p in later.attempts && later.attempts[p] == s.attempts[p]
  }

  /** Verifying the attempt that already succeeded: a verification begun after it became SUCCESS never gets
      further than its start except to end as already paid or rolled back, it never waits for the row, and
      the row is never changed again. */
  lemma DuplicateIsIdempotent(foreign: set<string>, actions: seq<Action>, more: seq<Action>)
    ensures var s, later := Run(foreign, actions), Run(foreign, actions + more);
            forall v: nat | |s.verifiers| <= v && At(later, v) :: EndsAlreadyPaid(foreign, s, later, v)
  {
    var s, later := Run(foreign, actions), Run(foreign, actions + more);
    hide Run;
    forall v: nat | |s.verifiers| <= v && At(later, v) ensures EndsAlreadyPaid(foreign, s, later, v) {
      var p := later.verifiers[v].payment;
      if p in s.attempts && s.attempts[p].status == Success {
        LaterOnesIdle(foreign, actions, more, v, p);
        SuccessIsFinal(foreign, actions, more, p);
        SuccessNotLocked(foreign, actions + more, p);
      }
    }
  }

  /** A verification from its start to its end with no other step in between. */
  function Alone(foreign: set<string>, s: State, p: int, verdict: Option<Verdict>, stale: bool): State {
    var v := |s.verifiers|;
    var checked := Next(foreign, Next(foreign, Next(foreign, s, Begin(p)), Lock(v)), ReadOrder(v));
    var paid := Next(foreign, Next(foreign, Next(foreign, checked, Ask(v, verdict)), Flush(v)), Pay(v, stale));
    Next(foreign, Next(foreign, paid, Commit(v)), Publish(v))
  }

  /** It is over with this reply, and the order's rows, the indexes and the events are as they were. */
  predicate EndsQuietly(s: State, end: State, p: int, reply: Reply) {
    end == s.(verifiers := s.verifiers + [Verifier(p, Done(reply))])
  }

  /** It is over, its row and these events are new, and nothing is held. */
  predicate EndsWith(s: State, end: State, p: int, row: Attempt, events: seq<Published>) {
    end == s.(verifiers := s.verifiers + [Verifier(p, Done(Answered))], attempts := s.attempts[p := row],
              paidBy := if row.status == Success then row.writer else s.paidBy, published := s.published + events)
  }

  /** Nothing is in the way of a verification of the attempt. */
  predicate Unobstructed(s: State, p: int, verdict: Option<Verdict>) {
    && p !in s.locks && s.claim.None?
    && (verdict.Some? && verdict.value.Accepted? && verdict.value.reference.Some? ==>
          verdict.value.reference.value !in s.references)
  }

  /** Whoever holds a row or an entry has begun already. */
  predicate HeldByOlder(s: State) {
    && (forall q | q in s.locks :: s.locks[q] < |s.verifiers|)
    && (forall r | r in s.references :: s.references[r] < |s.verifiers|)
  }

  /** The state with the newest verification at work: it has the row, and the index entries it may have sent. */
  predicate AtWork(s: State, x: State, p: int, stage: Stage) {
    var v := |s.verifiers|;
    && x == s.(verifiers := s.verifiers + [Verifier(p, stage)], locks := s.locks[p := v], claim := x.claim,
               references := x.references)
    && x.claim in {None, Some(v)}
    && (forall r | r in s.references :: r in x.references && x.references[r] == s.references[r])
    && (forall r | r in x.references :: x.references[r] == v || r in s.references)
  }

  lemma EndingWork(s: State, x: State, p: int, stage: Stage, end: Stage)
    requires AtWork(s, x, p, stage) && p !in s.locks && s.claim.None? && HeldByOlder(s)
    ensures End(x, |s.verifiers|, end) == s.(verifiers := s.verifiers + [Verifier(p, end)])
  {
    var v := |s.verifiers|;
    assert x.locks == s.locks[p := v];
    var kept := map q | q in x.locks && x.locks[q] != v :: x.locks[q];
    assert forall q :: q in kept <==> q in s.locks;
    assert kept == s.locks;
    assert (map r | r in x.references && x.references[r] != v :: x.references[r]) == s.references;
  }

  lemma UpToTheOrder(foreign: set<string>, s: State, p: int, verdict: Option<Verdict>)
    requires Unobstructed(s, p, verdict) && HeldByOlder(s)
    ensures var v := |s.verifiers|;
            var checked := Next(foreign, Next(foreign, Next(foreign, s, Begin(p)), Lock(v)), ReadOrder(v));
            if p !in s.attempts then EndsQuietly(s, checked, p, Refused)
            else if s.attempts[p].status == Success then EndsQuietly(s, checked, p, AlreadyPaid)
            else if s.attempts[p].status == PaymentStatus.Failed || s.attempts[p].status == Abandoned || s.paidBy.Some?
            then EndsQuietly(s, checked, p, Refused)
            else AtWork(s, checked, p, Checked) && checked.references == s.references && checked.claim.None?
  {
    var v := |s.verifiers|;
    var locked := Next(foreign, Next(foreign, s, Begin(p)), Lock(v));
    if p in s.attempts && Verifiable(s.attempts[p].status) {
      assert AtWork(s, locked, p, Locked);
      EndingWork(s, locked, p, Locked, Done(Refused));
      hide End;
    }
  }

  lemma Asked(foreign: set<string>, s: State, checked: State, p: int, verdict: Option<Verdict>)
    requires AtWork(s, checked, p, Checked) && checked.references == s.references && checked.claim.None?
    requires p !in s.locks && s.claim.None? && HeldByOlder(s)
    ensures var judged := Next(foreign, checked, Ask(|s.verifiers|, verdict));
            match verdict
            case None => EndsQuietly(s, judged, p, Refused)
            case Some(v) => AtWork(s, judged, p, Judged(v)) && judged.references == s.references && judged.claim.None?
  {
    EndingWork(s, checked, p, Checked, Done(Refused));
    hide End;
  }

  lemma FlushedAndPaid(foreign: set<string>, s: State, judged: State, p: int, verdict: Verdict, stale: bool)
    requires Unobstructed(s, p, Some(verdict)) && HeldByOlder(s) && p in s.attempts && s.paidBy.None?
    requires AtWork(s, judged, p, Judged(verdict)) && judged.references == s.references && judged.claim.None?
    ensures var v := |s.verifiers|;
            var paid := Next(foreign, Next(foreign, judged, Flush(v)), Pay(v, stale));
            match verdict
            case Accepted(reference) =>
              if SomeSuccess(s.attempts) || ReferenceTaken(s.attempts, foreign, reference)
              then EndsQuietly(s, paid, p, Refused) else AtWork(s, paid, p, Applied(reference))
            case _ => paid == judged
  {
    EndingWork(s, judged, p, Judged(verdict), Done(Refused));
    hide End, SomeSuccess, ReferenceTaken;
  }

  lemma CommittedAndPublished(foreign: set<string>, s: State, paid: State, p: int, stage: Stage)
    requires AtWork(s, paid, p, stage) && p in s.attempts && p !in s.locks && s.claim.None? && HeldByOlder(s)
    requires stage.Applied? || (stage.Judged? && !stage.verdict.Accepted?)
    ensures var v, row := |s.verifiers|, s.attempts[p];
            var end := Next(foreign, Next(foreign, paid, Commit(v)), Publish(v));
            match stage
            case Applied(reference) => EndsWith(s, end, p, Attempt(Success, reference, Some(v)), [SucceededEvent(p)])
            case Judged(Rejected(_)) =>
              EndsWith(s, end, p, Attempt(PaymentStatus.Failed, row.reference, Some(v)), [FailedEvent(p)])
            case Judged(StillPending) => EndsWith(s, end, p, Attempt(Pending, row.reference, Some(v)), [])
            case _ => false
  {
    var v := |s.verifiers|;
    var verdict := if stage.Applied? then Accepted(stage.reference) else stage.verdict;
    EndingWork(s, paid, p, stage, Saved(verdict));
    hide End;
  }

  /** Once it is over no step of its own changes anything. */
  lemma OverIsOver(foreign: set<string>, s: State, v: nat, verdict: Option<Verdict>, stale: bool)
    requires At(s, v) && StageOf(s, v).Done?
    ensures Next(foreign, s, Ask(v, verdict)) == s && Next(foreign, s, Flush(v)) == s
    ensures Next(foreign, s, Pay(v, stale)) == s && Next(foreign, s, Commit(v)) == s
    ensures Next(foreign, s, Publish(v)) == s
  {}

  lemma UnpaidHasNoSuccess(s: State)
    requires Reachable(s) && s.paidBy.None?
    ensures !SomeSuccess(s.attempts)
  {
    forall q | q in s.attempts ensures s.attempts[q].status != Success {
      assert Written(s, q);
    }
  }

  /** A verification nobody gets in the way of, in every case: who is refused, who is told it is paid already,
      and what each answer of the gateway writes and publishes. */
  lemma UndisturbedVerification(foreign: set<string>, s: State, p: int, verdict: Option<Verdict>, stale: bool)
    requires Reachable(s) && HeldByHolders(s) && Unobstructed(s, p, verdict)
    ensures var v, end := |s.verifiers|, Alone(foreign, s, p, verdict, stale);
            if p !in s.attempts then EndsQuietly(s, end, p, Refused)
            else
              var row := s.attempts[p];
              if row.status == Success then EndsQuietly(s, end, p, AlreadyPaid)
              else if row.status == PaymentStatus.Failed || row.status == Abandoned || s.paidBy.Some?
              then EndsQuietly(s, end, p, Refused)
              else match verdict
                   case None => EndsQuietly(s, end, p, Refused)
                   case Some(StillPending) => EndsWith(s, end, p, Attempt(Pending, row.reference, Some(v)), [])
                   case Some(Rejected(_)) =>
                     EndsWith(s, end, p, Attempt(PaymentStatus.Failed, row.reference, Some(v)), [FailedEvent(p)])
                   case Some(Accepted(reference)) =>
                     if reference.Some? && (reference.value in foreign
                                            || exists q | q in s.attempts :: s.attempts[q].reference == reference)
                     then EndsQuietly(s, end, p, Refused)
                     else EndsWith(s, end, p, Attempt(Success, reference, Some(v)), [SucceededEvent(p)])
  {
    hide Reachable, HeldByHolders, Next, SomeSuccess, AtWork;
    var v := |s.verifiers|;
    HeldSinceBefore(s);
    UpToTheOrder(foreign, s, p, verdict);
    var checked := Next(foreign, Next(foreign, Next(foreign, s, Begin(p)), Lock(v)), ReadOrder(v));
    if p !in s.attempts || !Verifiable(s.attempts[p].status) || s.paidBy.Some? {
      OverIsOver(foreign, checked, v, verdict, stale);
    } else {
      Asked(foreign, s, checked, p, verdict);
      var judged := Next(foreign, checked, Ask(v, verdict));
      if verdict.None? {
        OverIsOver(foreign, judged, v, verdict, stale);
      } else {
        UnpaidHasNoSuccess(s);
        JudgedEnds(foreign, s, judged, p, verdict.value, stale);
      }
    }
  }

  lemma HeldSinceBefore(s: State)
    requires HeldByHolders(s)
    ensures HeldByOlder(s)
  {}

  lemma JudgedEnds(foreign: set<string>, s: State, judged: State, p: int, verdict: Verdict, stale: bool)
    requires Unobstructed(s, p, Some(verdict)) && HeldByOlder(s) && p in s.attempts && s.paidBy.None?
    requires AtWork(s, judged, p, Judged(verdict)) && judged.references == s.references && judged.claim.None?
    requires !SomeSuccess(s.attempts)
    ensures var v, row := |s.verifiers|, s.attempts[p];
            var end := Next(foreign, Next(foreign, Next(foreign, Next(foreign, judged, Flush(v)), Pay(v, stale)),
                                          Commit(v)), Publish(v));
            match verdict
            case StillPending => EndsWith(s, end, p, Attempt(Pending, row.reference, Some(v)), [])
            case Rejected(_) =>
              EndsWith(s, end, p, Attempt(PaymentStatus.Failed, row.reference, Some(v)), [FailedEvent(p)])
            case Accepted(reference) =>
              if reference.Some? && (reference.value in foreign
                                     || exists q | q in s.attempts :: s.attempts[q].reference == reference)
              then EndsQuietly(s, end, p, Refused)
              else EndsWith(s, end, p, Attempt(Success, reference, Some(v)), [SucceededEvent(p)])
  {
    hide Next, SomeSuccess, AtWork;
    var v := |s.verifiers|;
    FlushedAndPaid(foreign, s, judged, p, verdict, stale);
    var paid := Next(foreign, Next(foreign, judged, Flush(v)), Pay(v, stale));
    if verdict.Accepted? && ReferenceTaken(s.attempts, foreign, verdict.reference) {
      OverIsOver(foreign, paid, v, None, stale);
    } else {
      CommittedAndPublished(foreign, s, paid, p,
                            if verdict.Accepted? then Applied(verdict.reference) else Judged(verdict));
    }
  }
}
