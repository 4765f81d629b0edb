/** Every handler call and every goroutine run keeps the books. */
module LedgerSteps {
  import opened Money
  import opened Fees
  import opened Ledger
  import opened LedgerInvariants

  // ----- books -----

  ghost predicate SameBooks(s: State, s': State) {
    && s'.balances == s.balances && s'.opening == s.opening && s'.byUser == s.byUser
    && s'.txs == s.txs && s'.moved == s.moved && s'.origins == s.origins
  }

  lemma BooksFrame(s: State, s': State)
    requires Books(s) && SameBooks(s, s')
    ensures Books(s')
  {
    forall u, c ensures AddsUp(s', u, c) { assert AddsUp(s, u, c); }
  }

  lemma BooksDeposit(s: State, op: Op)
    requires Books(s) && op.Deposit? && Enabled(s, op)
    ensures Books(DepositCall(s, op).0)
  {
    hide Books, DepositCall, DepositTx, Move, Record, OwnsSome;
    if DepositCall(s, op).0 != s {
      DepositOutcome(s, op);
      var a := op.amount.value;
      var s1 := WithWallet(s, op);
      var s2 := Record(s1, op.txID, DepositTx(s, op), Iframe(a));
      BooksFrame(s, s1);
      RecordBooks(s1, op.txID, DepositTx(s, op), Iframe(a));
      MoveBooks(s2, op.txID, a);
      BooksFrame(Move(s2, op.txID, a), DepositCall(s, op).0);
    }
  }

  lemma BooksCharge(s: State, id: string, a: real)
    requires Books(s) && id in s.txs && id in s.moved
    ensures Books(Charge(s, id, a))
  {
    hide Books;
    MoveBooks(s, id, -a);
    BooksFrame(Move(s, id, -a), Charge(s, id, a));
  }

  lemma BooksWithdraw(s: State, op: Op)
    requires Books(s) && op.Withdraw? && Enabled(s, op)
    ensures Books(WithdrawCall(s, op).0)
  {
    hide Books, FormatAmount, CalculateFee, Charge, SetStatus;
    var s' := WithdrawCall(s, op).0;
    if s' != s {
      var total := TotalOf(s, op.userID, op.amount.value);
      RecordBooks(s, op.txID, WithdrawalTx(s, op), Withdrawal(total, op.async));
      var s1 := Record(s, op.txID, WithdrawalTx(s, op), Withdrawal(total, op.async));
      BooksCharge(s1, op.txID, total);
      StatusBooks(s1, op.txID, FAILED);
    }
  }

  lemma BooksStarted(s: State, id: string)
    requires Books(s) && id in s.tasks && id in s.txs
    ensures Books(Started(s, id))
  {
    hide Books;
    var s0 := s.(tasks := s.tasks - {id});
    BooksFrame(s, s0);
    StatusBooks(s0, id, COMPLETED);
  }

  lemma BooksComplete(s: State, id: string)
    requires Books(s) && id in s.tasks && id in s.txs && id in s.moved
    ensures Books(CompleteTask(s, id))
  {
    hide Books, FormatAmount, Move, Started;
    var task := s.tasks[id];
    var s1 := Started(s, id);
    StartedShape(s, id);
    BooksStarted(s, id);
    var net := task.amount - task.fee;
    var s2 := Move(s1, id, if task.isDebit then -net else net);
    MoveBooks(s1, id, if task.isDebit then -net else net);
    if task.isDebit && !CanDeduct(s1.balances, s1.txs[id].userID, s1.txs[id].currency, net) {
      BooksFrame(s1, CompleteTask(s, id));
    }
    else { BooksFrame(s2, CompleteTask(s, id)); }
  }

  lemma BooksCreate(s: State, op: Op)
    requires Books(s) && op.Create? && Enabled(s, op)
    ensures Books(CreateCall(s, op).0)
  {
    hide Books, CreateCall, CompleteTask, CoreTx, TaskOf, OriginOf, DepositTypeOf, CompletesItself;
    var req := op.req;
    if CreateCall(s, op).0 != s {
      CreateOutcome(s, op);
      RecordBooks(s, op.txID, CoreTx(s, req), OriginOf(s, req, op.hasWebhook));
      var s1 := Record(s, op.txID, CoreTx(s, req), OriginOf(s, req, op.hasWebhook));
      var s2 := s1.(tasks := s1.tasks[op.txID := TaskOf(s, req, op.hasWebhook)]);
      BooksFrame(s1, s2);
      BooksComplete(s2, op.txID);
    }
  }

  lemma BooksSettle(s: State, id: string, event: string)
    requires Books(s)
    ensures Books(SettleCall(s, id, event).0)
  {
    hide Books, ParseAmount, Charge;
    var s' := SettleCall(s, id, event).0;
    if s' != s {
      if event == WITHDRAWAL_REJECTED {
        StatusBooks(s, id, FAILED);
        BooksFrame(SetStatus(s, id, FAILED), s');
      } else {
        var total := ParseAmount(s.txs[id].totalAmount).value;
        BooksCharge(s, id, total);
        var s1 := Charge(s, id, total);
        ChargeShape(s, id, total);
        StatusBooks(s1, id, COMPLETED);
        BooksFrame(SetStatus(s1, id, COMPLETED), s');
      }
    }
  }

  lemma BooksStep(s: State, op: Op)
    requires Books(s) && Enabled(s, op)
    ensures Books(Next(s, op))
  {
    hide Books;
    match op
    case ChangeFees(f) => BooksFrame(s, s.(fees := Apply(s.fees, f)));
    case Deposit(_, _, _, _, _) => BooksDeposit(s, op);
    case Withdraw(_, _, _, _, _, _) => BooksWithdraw(s, op);
    case Create(_, _, _) => BooksCreate(s, op);
    case Complete(id) => BooksComplete(s, id);
    case Settle(id, event) => BooksSettle(s, id, event);
  }
}
