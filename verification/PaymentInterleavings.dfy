/** What every interleaving of payment clients keeps, and what follows for whole runs. */
module PaymentInterleavings {
  import opened Wrappers
  import opened Store
  import opened StockLoop
  import opened SerialRuns
  import opened PaymentClient
  import opened PaymentSteps
  import opened PaymentMachine

  // ---- Clients stay coherent ------------------------------------------------------------------------

  lemma AcquireKeepsCoherent(l: Client)
    requires WellFormed(l) && Coherent(l) && Wanted(l).Some?
    ensures WellFormed(l.(phase := Acquired(l))) && Coherent(l.(phase := Acquired(l)))
  {
    var after := l.(phase := Acquired(l));
    forall db, paymentId | Agrees(db, after)
      ensures SameEffect(Finish(db, after, paymentId), Atomic(db, after.request, paymentId))
    {
      if l.phase.WaitOuter? {
        ViewNothing(db);
      } else {
        assert SameEffect(Finish(db, l, paymentId), Atomic(db, l.request, paymentId));
        if l.phase.WaitLine? && !Paying(l) {
          ReturnFirst(View(db, l.writes), l, l.phase.index, paymentId);
        }
      }
    }
  }

  lemma LeaveLineKeepsCoherent(l: Client)
    requires WellFormed(l) && Coherent(l) && l.phase.LeaveLine?
    ensures WellFormed(l.(phase := Left(l))) && Coherent(l.(phase := Left(l)))
  {
    var after := l.(phase := NextLine(l.lines, l.phase.index + 1));
    forall db, paymentId | Agrees(db, after)
      ensures SameEffect(Finish(db, after, paymentId), Atomic(db, after.request, paymentId))
    {
      assert Agrees(db, l);
      FromLine(View(db, l.writes), l, l.phase.index + 1, paymentId);
      assert SameEffect(Finish(db, l, paymentId), Atomic(db, l.request, paymentId));
    }
  }

  lemma LeaveBalanceKeepsCoherent(l: Client)
    requires WellFormed(l) && Coherent(l) && l.phase.LeaveBalance?
    ensures WellFormed(l.(phase := WritePayment)) && Coherent(l.(phase := WritePayment))
  {
    forall db, paymentId | Agrees(db, l.(phase := WritePayment))
      ensures SameEffect(Finish(db, l.(phase := WritePayment), paymentId), Atomic(db, l.request, paymentId))
    {
      assert Agrees(db, l);
      assert SameEffect(Finish(db, l, paymentId), Atomic(db, l.request, paymentId));
    }
  }

  lemma ThrowKeepsCoherent(l: Client)
    requires WellFormed(l) && (InTx(l.phase) || l.phase.WaitOuter?)
    ensures WellFormed(l.(phase := Thrown(l))) && Coherent(l.(phase := Thrown(l)))
  {
  }

  lemma ListedQuantities(db: Database, orderId: int)
    requires Consistent(db)
    ensures Quantities(LinesOf(db, orderId))
  {
    if orderId in db.items { assert orderId in db.orders; }
  }

  lemma OneMoreCoherent(s: State, after: State, c: int)
    requires ClientsCoherent(s) && c in after.clients && after.clients == s.clients[c := after.clients[c]]
    requires WellFormed(after.clients[c]) && Coherent(after.clients[c])
    ensures ClientsCoherent(after)
  {
  }

  lemma WorkKeepsCoherent(s: State, c: int, found: seq<Line>)
    requires ClientsCoherent(s) && Consistent(s.db) && Enabled(s, Work(c, found))
    ensures ClientsCoherent(DoWork(s, c, found))
  {
    var l := s.clients[c];
    if TxStep(s.db, l, found, s.nextPaymentId).Success? {
      if l.phase.FetchLines? {
        ListedQuantities(s.db, l.orderId);
        QuantitiesSameRows(found, LinesOf(s.db, l.orderId));
      }
      StepKeepsCoherent(s.db, l, found, s.nextPaymentId);
    } else {
      ThrowKeepsCoherent(l);
    }
    OneMoreCoherent(s, DoWork(s, c, found), c);
  }

  lemma AcquireKeepsClients(s: State, c: int)
    requires ClientsCoherent(s) && Enabled(s, Acquire(c))
    ensures ClientsCoherent(Do(s, Acquire(c)))
  {
    AcquireKeepsCoherent(s.clients[c]);
    OneMoreCoherent(s, Do(s, Acquire(c)), c);
  }

  lemma ThrowKeepsClients(s: State, c: int)
    requires ClientsCoherent(s) && Enabled(s, Throw(c))
    ensures ClientsCoherent(Do(s, Throw(c)))
  {
    ThrowKeepsCoherent(s.clients[c]);
    OneMoreCoherent(s, Do(s, Throw(c)), c);
  }

  lemma LeaveKeepsClients(s: State, c: int)
    requires ClientsCoherent(s) && Enabled(s, Leave(c))
    ensures ClientsCoherent(Do(s, Leave(c)))
  {
    if s.clients[c].phase.LeaveLine? { LeaveLineKeepsCoherent(s.clients[c]); }
    if s.clients[c].phase.LeaveBalance? { LeaveBalanceKeepsCoherent(s.clients[c]); }
    OneMoreCoherent(s, Do(s, Leave(c)), c);
  }

  lemma StepKeepsClientsCoherent(s: State, step: Step)
    requires ClientsCoherent(s) && Consistent(s.db) && Enabled(s, step)
    ensures ClientsCoherent(Do(s, step))
  {
    match step
    case Arrive(c, request) => OneMoreCoherent(s, Do(s, step), c);
    case Acquire(c) => AcquireKeepsClients(s, c);
    case Work(c, found) => WorkKeepsCoherent(s, c, found);
    case Throw(c) => ThrowKeepsClients(s, c);
    case Leave(c) => LeaveKeepsClients(s, c);
    case Conclude(c) => OneMoreCoherent(s, Do(s, step), c);
    case Close(c) => OneMoreCoherent(s, Do(s, step), c);
    case Outside(op) =>
  }

  // ---- A commit is the whole operation at once -----------------------------------------------------------

  /** When nothing read has changed, committing the writes does what the whole operation would do right now. */
  lemma CommitIsAtomic(s: State, c: int)
    requires Inv(s) && Enabled(s, Conclude(c)) && Unchanged(s.db, s.clients[c])
    ensures Apply(s.db, OpOf(s.clients[c])) == Success(View(s.db, s.clients[c].writes))
  {
    assert Agrees(s.db, s.clients[c]);
    AtTheEnd(s.db, s.clients[c]);
  }

  lemma AtTheEnd(db: Database, l: Client)
    requires WellFormed(l) && Coherent(l) && l.phase.Commit? && Agrees(db, l)
    ensures Apply(db, OpOf(l)) == Success(View(db, l.writes))
  {
    assert SameEffect(Finish(db, l, l.paymentId), Atomic(db, l.request, l.paymentId));
  }

  /** A committed operation touches no payment row but its own. */
  lemma OnlyOwnPayment(db: Database, op: Operation, p: int)
    requires Apply(db, op).Success?
    ensures op.Pay? && p != op.paymentId ==> Lookup(Exec(db, op).payments, p) == Lookup(db.payments, p)
    ensures op.Cancel? && p != op.paymentId ==> Lookup(Exec(db, op).payments, p) == Lookup(db.payments, p)
    ensures op.Pay? ==> op.paymentId !in db.payments && op.paymentId in Exec(db, op).payments
    ensures op.Cancel? ==> Exec(db, op).payments.Keys == db.payments.Keys
    ensures IsOutside(op) ==> Exec(db, op).payments == db.payments
  {
  }

  /** What other clients rely on survives a commit: only the holder of `payment:` changes that payment's row. */
  lemma CommitKeepsGuards(s: State, c: int, d: int)
    requires Inv(s) && Enabled(s, Conclude(c)) && Unchanged(s.db, s.clients[c])
    requires d in s.clients && d != c && InTx(s.clients[d].phase)
    ensures Guarded(View(s.db, s.clients[c].writes), s.clients[d])
  {
    var l, m := s.clients[c], s.clients[d];
    CommitIsAtomic(s, c);
    OuterExclusive(s, c, d);
    assert Guarded(s.db, m);
    if m.request.CancelRequest? {
      OnlyOwnPayment(s.db, OpOf(l), m.request.paymentId);
      if m.readPayment.Some? && l.request.PayRequest? {
        assert Guarded(s.db, l);
      }
    } else {
      OnlyOwnPayment(s.db, OpOf(l), m.paymentId);
    }
  }

  lemma ConcludeKeepsGuarded(s: State, c: int)
    requires Inv(s) && Enabled(s, Conclude(c))
    ensures ClientsGuarded(Do(s, Conclude(c)))
  {
    var after := Do(s, Conclude(c));
    if Unchanged(s.db, s.clients[c]) {
      CommitIsAtomic(s, c);
      forall d | d in after.clients && InTx(after.clients[d].phase) ensures Guarded(after.db, after.clients[d]) {
        CommitKeepsGuards(s, c, d);
      }
      forall p | p in after.db.payments ensures p < after.nextPaymentId {
        OnlyOwnPayment(s.db, OpOf(s.clients[c]), p);
      }
    }
  }

  /** A step of one client that leaves the tables and the counter alone. */
  lemma MoveKeepsGuarded(s: State, after: State, c: int)
    requires ClientsGuarded(s) && c in after.clients
    requires after.clients == s.clients[c := after.clients[c]]
    requires after.db == s.db && after.nextPaymentId == s.nextPaymentId
    requires InTx(after.clients[c].phase) ==> Guarded(s.db, after.clients[c])
    requires Allocated(after.clients[c]) ==>
               c in s.clients && Allocated(s.clients[c]) && s.clients[c].paymentId == after.clients[c].paymentId
    ensures ClientsGuarded(after)
  {
  }

  /** A client draws the next payment id. */
  lemma DrawKeepsGuarded(s: State, after: State, c: int)
    requires ClientsGuarded(s) && c in after.clients
    requires after.clients == s.clients[c := after.clients[c]]
    requires after.db == s.db && after.nextPaymentId == s.nextPaymentId + 1
    requires Guarded(s.db, after.clients[c]) && after.clients[c].paymentId == s.nextPaymentId
    ensures ClientsGuarded(after)
  {
  }

  lemma WorkKeepsGuarded(s: State, c: int, found: seq<Line>)
    requires ClientsGuarded(s) && ClientsCoherent(s) && Enabled(s, Work(c, found))
    ensures ClientsGuarded(DoWork(s, c, found))
  {
    var l, after := s.clients[c], DoWork(s, c, found);
    assert Guarded(s.db, l);
    if TxStep(s.db, l, found, s.nextPaymentId).Success? {
      StepShape(s.db, l, found, s.nextPaymentId);
      if Allocated(after.clients[c]) && !Allocated(l) {
        DrawKeepsGuarded(s, after, c);
      } else {
        MoveKeepsGuarded(s, after, c);
      }
    } else {
      MoveKeepsGuarded(s, after, c);
    }
  }

  lemma PhaseKeepsGuarded(s: State, after: State, c: int)
    requires ClientsGuarded(s) && c in s.clients && after.db == s.db && after.nextPaymentId == s.nextPaymentId
    requires c in after.clients && after.clients == s.clients[c := s.clients[c].(phase := after.clients[c].phase)]
    requires InTx(after.clients[c].phase) ==> InTx(s.clients[c].phase) || s.clients[c].readPayment.None?
    requires Allocated(after.clients[c]) ==> Allocated(s.clients[c])
    ensures ClientsGuarded(after)
  {
    MoveKeepsGuarded(s, after, c);
  }

  lemma StepKeepsGuarded(s: State, step: Step)
    requires Inv(s) && Enabled(s, step)
    ensures ClientsGuarded(Do(s, step))
  {
    match step
    case Arrive(c, request) => MoveKeepsGuarded(s, Do(s, step), c);
    case Acquire(c) => PhaseKeepsGuarded(s, Do(s, step), c);
    case Work(c, found) => WorkKeepsGuarded(s, c, found);
    case Throw(c) => PhaseKeepsGuarded(s, Do(s, step), c);
    case Leave(c) => PhaseKeepsGuarded(s, Do(s, step), c);
    case Conclude(c) => ConcludeKeepsGuarded(s, c);
    case Close(c) => PhaseKeepsGuarded(s, Do(s, step), c);
    case Outside(op) => OutsideKeepsGuarded(s, op);
  }

  lemma OutsideKeepsGuarded(s: State, op: Operation)
    requires ClientsGuarded(s) && Enabled(s, Outside(op))
    ensures ClientsGuarded(Do(s, Outside(op)))
  {
    OnlyOwnPayment(s.db, op, 0);
  }

  lemma StepKeepsConsistent(s: State, step: Step)
    requires Inv(s) && Enabled(s, step)
    ensures Consistent(Do(s, step).db)
  {
    match step
    case Conclude(c) =>
      if Unchanged(s.db, s.clients[c]) {
        CommitIsAtomic(s, c);
        ConsistentExec(s.db, OpOf(s.clients[c]));
      }
    case Outside(op) => ConsistentExec(s.db, op);
    case _ =>
  }

  lemma {:induction false} StepKeepsInv(s: State, step: Step)
    requires Inv(s)
    ensures Inv(Do(s, step))
  {
    if Enabled(s, step) {
      StepKeepsLocks(s, step);
      StepKeepsClientsCoherent(s, step);
      StepKeepsGuarded(s, step);
      StepKeepsConsistent(s, step);
    }
  }
}
