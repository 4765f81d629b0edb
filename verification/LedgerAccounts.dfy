/** Every handler call and every goroutine run keeps each transaction's account,
    and the settlement webhooks in step with the statuses. */
module LedgerAccounts {
  import opened Wrappers
  import opened Money
  import opened Fees
  import opened Ledger
  import opened LedgerInvariants

  lemma ChargedOnce(s: State, s': State, id: string)
    requires Distinct(s.charges) && forall i :: 0 <= i < |s.charges| ==> s.charges[i] in s.txs
    requires s'.charges == s.charges || (s'.charges == s.charges + [id] && id !in s.charges)
    requires id in s'.txs && forall k :: k in s.txs ==> k in s'.txs
    ensures Distinct(s'.charges) && forall i :: 0 <= i < |s'.charges| ==> s'.charges[i] in s'.txs
    ensures forall k :: k != id ==> (k in s'.charges <==> k in s.charges)
  { }

  lemma MeantAt(s: State, s': State, id: string, tx: Tx, origin: Origin, m: real)
    requires AllMeant(s)
    requires s'.txs == s.txs[id := tx] && s'.moved == s.moved[id := m] && s'.origins == s.origins[id := origin]
    requires forall k :: k != id ==> (k in s'.tasks <==> k in s.tasks) && (k in s'.charges <==> k in s.charges)
    requires s'.unpaid == s.unpaid || s'.unpaid == s.unpaid + {id}
    requires Meant(origin, tx, m, id in s'.tasks, id in s'.charges, id in s'.unpaid)
    ensures AllMeant(s')
  {
    hide Meant;
    forall k | k in s'.txs
      ensures k in s'.origins && k in s'.moved
              && Meant(s'.origins[k], s'.txs[k], s'.moved[k], k in s'.tasks, k in s'.charges, k in s'.unpaid)
    {
      if k != id { StaysMeant(s, s', k); }
    }
  }

  lemma StaysMeant(s: State, s': State, k: string)
    requires k in s.txs && k in s.origins && k in s.moved && k in s'.txs && k in s'.origins && k in s'.moved
    requires Meant(s.origins[k], s.txs[k], s.moved[k], k in s.tasks, k in s.charges, k in s.unpaid)
    requires s'.origins[k] == s.origins[k] && s'.txs[k] == s.txs[k] && s'.moved[k] == s.moved[k]
    requires (k in s'.tasks <==> k in s.tasks) && (k in s'.charges <==> k in s.charges)
             && (k in s'.unpaid <==> k in s.unpaid)
    ensures Meant(s'.origins[k], s'.txs[k], s'.moved[k], k in s'.tasks, k in s'.charges, k in s'.unpaid)
  {
    hide Meant;
  }

  /** A step that files or changes transaction `id` only. */
  lemma AccountedAt(s: State, s': State, id: string, tx: Tx, origin: Origin, m: real)
    requires Accounted(s)
    requires s'.txs == s.txs[id := tx] && s'.moved == s.moved[id := m] && s'.origins == s.origins[id := origin]
    requires forall k :: k != id ==> (k in s'.tasks <==> k in s.tasks)
    requires forall k :: k in s.tasks && k != id ==> s'.tasks[k] == s.tasks[k]
    requires s'.charges == s.charges || (s'.charges == s.charges + [id] && id !in s.charges)
    requires s'.unpaid == s.unpaid || s'.unpaid == s.unpaid + {id}
    requires Meant(origin, tx, m, id in s'.tasks, id in s'.charges, id in s'.unpaid)
    requires id in s'.tasks ==> origin == Core(s'.tasks[id])
    ensures Accounted(s')
  {
    hide Meant, Distinct;
    ChargedOnce(s, s', id);
    MeantAt(s, s', id, tx, origin, m);
    hide AllMeant;
  }

  lemma FreshId(s: State, id: string)
    requires Accounted(s) && id !in s.txs
    ensures id !in s.tasks && id !in s.charges && id !in s.unpaid
  { }

  lemma WalletShape(s: State, op: Op)
    requires op.Deposit?
    ensures var s' := WithWallet(s, op);
            && s'.txs == s.txs && s'.moved == s.moved && s'.origins == s.origins && s'.balances == s.balances
            && s'.tasks == s.tasks && s'.charges == s.charges && s'.unpaid == s.unpaid && s'.opening == s.opening
            && s'.fees == s.fees
  { }

  /** A deposit that is not refused, field by field. */
  lemma DepositLeaves(s: State, op: Op)
    requires op.Deposit? && DepositCall(s, op).0 != s
    ensures op.amount.Some?
    ensures var s', a := DepositCall(s, op).0, op.amount.value;
            && op.txID in s'.txs && s'.txs == s.txs[op.txID := s'.txs[op.txID]]
            && s'.moved == s.moved[op.txID := a] && s'.origins == s.origins[op.txID := Iframe(a)]
            && s'.balances == Add(s.balances, op.userID, op.currency, a)
            && s'.outbox == s.outbox + [Webhook(DEPOSIT_COMPLETED, op.userID, op.txID, FormatAmount(a), "0")]
            && s'.tasks == s.tasks && s'.charges == s.charges && s'.unpaid == s.unpaid && s'.opening == s.opening
            && s'.fees == s.fees
            && var fee := CalculateFee(a, DepositFeeFor(s.fees, op.userID));
               s'.txs[op.txID] == Tx(op.userID, FormatAmount(a), FormatAmount(a), FormatAmount(fee), op.currency,
                                     TYPE_DEPOSIT, EXTERNAL, PENDING, "", op.wallet)
  {
    hide FormatAmount, CalculateFee, Add, Move, Record, WithWallet, DepositCall;
    DepositOutcome(s, op);
    WalletShape(s, op);
    RecordThenMove(WithWallet(s, op), op.txID, DepositTx(s, op), Iframe(op.amount.value), op.amount.value);
  }

  lemma DepositEffect(s: State, op: Op)
    requires op.Deposit? && DepositCall(s, op).0 != s
    ensures op.amount.Some?
    ensures var s' := DepositCall(s, op).0;
            op.txID in s'.txs
            && s'.txs == s.txs[op.txID := s'.txs[op.txID]] && s'.moved == s.moved[op.txID := op.amount.value]
            && s'.origins == s.origins[op.txID := Iframe(op.amount.value)]
            && s'.tasks == s.tasks && s'.charges == s.charges && s'.unpaid == s.unpaid
            && Meant(Iframe(op.amount.value), s'.txs[op.txID], op.amount.value, false, false, false)
  {
    hide FormatAmount, CalculateFee, Add, DepositCall;
    DepositLeaves(s, op);
  }

  lemma AccountedDeposit(s: State, op: Op)
    requires Accounted(s) && op.Deposit? && Enabled(s, op)
    ensures Accounted(DepositCall(s, op).0)
  {
    hide FormatAmount, CalculateFee, Add, Accounted, DepositCall;
    var s' := DepositCall(s, op).0;
    if s' != s {
      FreshId(s, op.txID);
      DepositEffect(s, op);
      AccountedAt(s, s', op.txID, s'.txs[op.txID], Iframe(op.amount.value), op.amount.value);
    }
  }

  /** An accepted withdrawal is filed as pending, charged, or failed. */
  function FiledStatus(s: State, op: Op): int
    requires op.Withdraw? && op.amount.Some?
  {
    if op.async then PENDING
    else if CanDeduct(s.balances, op.userID, op.currency, TotalOf(s, op.userID, op.amount.value)) then COMPLETED
    else FAILED
  }

  function FiledMove(s: State, op: Op): real
    requires op.Withdraw? && op.amount.Some?
  {
    if FiledStatus(s, op) == COMPLETED then -TotalOf(s, op.userID, op.amount.value) else 0.0
  }

  lemma WithdrawFiles(s: State, op: Op)
    requires op.Withdraw? && op.amount.Some? && WithdrawCall(s, op).0 != s
    ensures WithdrawCall(s, op).0.txs == s.txs[op.txID := WithdrawalTx(s, op).(status := FiledStatus(s, op))]
    ensures WithdrawCall(s, op).0.origins
            == s.origins[op.txID := Withdrawal(TotalOf(s, op.userID, op.amount.value), op.async)]
  {
    hide WithdrawCall, WithdrawalTx, TotalOf, Charge;
    WithdrawOutcome(s, op);
    var tx := WithdrawalTx(s, op);
    var total := TotalOf(s, op.userID, op.amount.value);
    ChargeShape(Record(s, op.txID, tx, Withdrawal(total, op.async)), op.txID, total);
    assert tx.(status := tx.status) == tx;
    TwiceIsOnce(s.txs, op.txID, tx, tx.(status := FAILED));
  }

  lemma WithdrawMoves(s: State, op: Op)
    requires op.Withdraw? && op.amount.Some? && WithdrawCall(s, op).0 != s
    ensures WithdrawCall(s, op).0.moved == s.moved[op.txID := FiledMove(s, op)]
    ensures WithdrawCall(s, op).0.tasks == s.tasks && WithdrawCall(s, op).0.unpaid == s.unpaid
    ensures WithdrawCall(s, op).0.charges
            == if FiledStatus(s, op) == COMPLETED then s.charges + [op.txID] else s.charges
  {
    hide WithdrawCall, WithdrawalTx, TotalOf, Move;
    WithdrawOutcome(s, op);
    var total := TotalOf(s, op.userID, op.amount.value);
    RecordThenMove(s, op.txID, WithdrawalTx(s, op), Withdrawal(total, op.async), -total);
  }

  lemma WithdrawOutcome(s: State, op: Op)
    requires op.Withdraw? && op.amount.Some? && WithdrawCall(s, op).0 != s
    ensures WithdrawalTx(s, op).status == (if op.async then PENDING else COMPLETED)
    ensures var total := TotalOf(s, op.userID, op.amount.value);
            var s1 := Record(s, op.txID, WithdrawalTx(s, op), Withdrawal(total, op.async));
            WithdrawCall(s, op) == if op.async then (s1, 200)
                                   else if CanDeduct(s.balances, op.userID, op.currency, total) then
                                     (Charge(s1, op.txID, total), 200)
                                   else (SetStatus(s1, op.txID, FAILED), 500)
  {
    hide FormatAmount, CalculateFee, Charge;
  }

  lemma AccountedWithdraw(s: State, op: Op)
    requires Accounted(s) && op.Withdraw? && Enabled(s, op)
    ensures Accounted(WithdrawCall(s, op).0)
  {
    hide FormatAmount, CalculateFee, Add, Accounted;
    var s' := WithdrawCall(s, op).0;
    if s' != s {
      hide WithdrawCall;
      FreshId(s, op.txID);
      WithdrawFiles(s, op);
      WithdrawMoves(s, op);
      var tx := WithdrawalTx(s, op).(status := FiledStatus(s, op));
      AccountedAt(s, s', op.txID, tx, Withdrawal(TotalOf(s, op.userID, op.amount.value), op.async), FiledMove(s, op));
    }
  }

  lemma FreeOfCharge(amount: real)
    ensures CalculateFee(amount, 0.0) == 0.0
  {
    FeeIsRounded(amount, 0.0);
  }

  lemma TaskMeant(s: State, req: Request, hasWebhook: bool)
    requires req.amount > 0.0 && CompletesItself(DepositTypeOf(req))
    ensures Meant(Core(TaskOf(s, req, hasWebhook)), CoreTx(s, req), 0.0, true, false, false)
  {
    hide FormatAmount, CalculateFee;
    FreeOfCharge(req.amount);
  }

  lemma AccountedQueued(s: State, op: Op)
    requires Accounted(s) && op.Create? && Enabled(s, op) && op.req.amount > 0.0
             && CompletesItself(DepositTypeOf(op.req))
    ensures var task := TaskOf(s, op.req, op.hasWebhook);
            var s1 := Record(s, op.txID, CoreTx(s, op.req), Core(task));
            Accounted(s1.(tasks := s1.tasks[op.txID := task]))
  {
    hide FormatAmount, CalculateFee, Accounted, Meant, TaskOf, CoreTx;
    FreshId(s, op.txID);
    TaskMeant(s, op.req, op.hasWebhook);
    var task := TaskOf(s, op.req, op.hasWebhook);
    var s1 := Record(s, op.txID, CoreTx(s, op.req), Core(task));
    AccountedAt(s, s1.(tasks := s1.tasks[op.txID := task]), op.txID, CoreTx(s, op.req), Core(task), 0.0);
  }

  lemma CompletedMeant(task: Task, tx: Tx, net: real)
    requires Meant(Core(task), tx, 0.0, true, false, false) && net == task.amount - task.fee
    ensures Meant(Core(task), if task.hasWebhook then tx.(status := COMPLETED) else tx,
                  if task.isDebit then -net else net, false, false, false)
    ensures task.isDebit
            ==> Meant(Core(task), if task.hasWebhook then tx.(status := COMPLETED) else tx, 0.0, false, false, true)
  { }

  lemma CompleteEffect(s: State, id: string)
    requires id in s.tasks && id in s.txs && id in s.moved && id in s.origins && s.moved[id] == 0.0
    ensures var task, s' := s.tasks[id], CompleteTask(s, id);
            var net := task.amount - task.fee;
            && s'.opening == s.opening && s'.fees == s.fees
            && s'.txs == s.txs[id := if task.hasWebhook then s.txs[id].(status := COMPLETED) else s.txs[id]]
            && var short := task.isDebit && !CanDeduct(s.balances, s.txs[id].userID, s.txs[id].currency, net);
            && s'.moved == s.moved[id := if short then 0.0 else if task.isDebit then -net else net]
            && s'.unpaid == (if short then s.unpaid + {id} else s.unpaid)
            && s'.outbox == (
                 if short || !task.hasWebhook then s.outbox
                 else s.outbox + [Webhook(DEPOSIT_COMPLETED, task.userID, id, FormatAmount(task.amount), "")])
            && s'.origins == s.origins[id := s.origins[id]]
            && s'.tasks == s.tasks - {id} && s'.charges == s.charges
  {
    hide FormatAmount, Started, Move, CanDeduct;
    var task := s.tasks[id];
    StartedShape(s, id);
    MoveShape(Started(s, id), id, if task.isDebit then -(task.amount - task.fee) else task.amount - task.fee);
  }

  lemma AccountedComplete(s: State, id: string)
    requires Accounted(s) && id in s.tasks && id in s.txs && id in s.moved
    ensures Accounted(CompleteTask(s, id))
  {
    hide FormatAmount, Add, Meant, CompleteTask, Accounted;
    var task, s' := s.tasks[id], CompleteTask(s, id);
    RunningHasNotMoved(s, id);
    CompletedMeant(task, s.txs[id], task.amount - task.fee);
    CompleteEffect(s, id);
    AccountedAt(s, s', id, s'.txs[id], Core(task), s'.moved[id]);
  }

  lemma RunningHasNotMoved(s: State, id: string)
    requires Accounted(s) && id in s.tasks
    ensures id in s.txs && id in s.moved && id in s.origins && s.moved[id] == 0.0 && id !in s.charges && id !in s.unpaid
    ensures s.origins[id] == Core(s.tasks[id]) && Meant(s.origins[id], s.txs[id], 0.0, true, false, false)
  { }

  lemma AccountedCreate(s: State, op: Op)
    requires Accounted(s) && op.Create? && Enabled(s, op)
    ensures Accounted(CreateCall(s, op).0)
  {
    hide Accounted, CreateCall, CompleteTask, TaskOf, CoreTx, FeeOf, DepositTypeOf;
    var req := op.req;
    if CreateCall(s, op).0 != s {
      CreateOutcome(s, op);
      if CompletesItself(DepositTypeOf(req)) {
        AccountedQueued(s, op);
        var task := TaskOf(s, req, op.hasWebhook);
        var s1 := Record(s, op.txID, CoreTx(s, req), Core(task));
        AccountedComplete(s1.(tasks := s1.tasks[op.txID := task]), op.txID);
      } else {
        AccountedUnqueued(s, op);
      }
    }
  }

  lemma AccountedUnqueued(s: State, op: Op)
    requires Accounted(s) && op.Create? && Enabled(s, op) && op.req.amount > 0.0
             && !CompletesItself(DepositTypeOf(op.req))
    ensures Accounted(Record(s, op.txID, CoreTx(s, op.req), OriginOf(s, op.req, op.hasWebhook)))
  {
    hide FormatAmount, CalculateFee, Accounted, FeeOf, DepositTypeOf;
    FreshId(s, op.txID);
    var tx := CoreTx(s, op.req);
    var origin := OriginOf(s, op.req, op.hasWebhook);
    AccountedAt(s, Record(s, op.txID, tx, origin), op.txID, tx, origin, 0.0);
  }

  lemma SettleEffect(s: State, id: string, event: string)
    requires SettleCall(s, id, event).0 != s && id in s.moved && id in s.origins && s.moved[id] == 0.0
    ensures id in s.txs
    ensures event == WITHDRAWAL_COMPLETED ==> ParseAmount(s.txs[id].totalAmount).Some?
    ensures var s' := SettleCall(s, id, event).0;
            var done := event == WITHDRAWAL_COMPLETED;
            && s'.txs == s.txs[id := s.txs[id].(status := if done then COMPLETED else FAILED)]
            && s'.moved == s.moved[id := if done then -ParseAmount(s.txs[id].totalAmount).value else 0.0]
            && s'.origins == s.origins[id := s.origins[id]]
            && s'.tasks == s.tasks && s'.unpaid == s.unpaid
            && s'.charges == (if done then s.charges + [id] else s.charges)
  {
    hide ParseAmount, SettleCall;
    SettleShape(s, id, event);
  }

  /** What can be settled is a withdrawal that has not moved anything. */
  lemma PendingHasNotMoved(s: State, id: string)
    requires Accounted(s) && id in s.txs && s.txs[id].depositType == WITHDRAWAL && s.txs[id].status == PENDING
    ensures id in s.origins && id in s.moved && s.origins[id].Withdrawal? && s.moved[id] == 0.0
    ensures s.origins[id].deferred && id !in s.unpaid
    ensures id !in s.tasks && id !in s.charges && s.txs[id].totalAmount == FormatAmount(s.origins[id].total)
  {
    hide FormatAmount;
    assert Meant(s.origins[id], s.txs[id], s.moved[id], id in s.tasks, id in s.charges, id in s.unpaid);
  }

  lemma AccountedSettle(s: State, id: string, event: string)
    requires Accounted(s)
    ensures Accounted(SettleCall(s, id, event).0)
  {
    hide FormatAmount, ParseAmount, Add, Accounted, Rounded;
    var s' := SettleCall(s, id, event).0;
    if s' != s {
      PendingHasNotMoved(s, id);
      ParseOfFormat(s.origins[id].total);
      SettleEffect(s, id, event);
      AccountedAt(s, s', id, s'.txs[id], s.origins[id], s'.moved[id]);
    }
  }

  lemma MeantOf(s: State, id: string)
    requires Accounted(s) && id in s.txs
    ensures id in s.origins && id in s.moved
    ensures Meant(s.origins[id], s.txs[id], s.moved[id], id in s.tasks, id in s.charges, id in s.unpaid)
  { }

  lemma AccountedStep(s: State, op: Op)
    requires Accounted(s) && Enabled(s, op)
    ensures Accounted(Next(s, op))
  {
    match op
    case ChangeFees(f) =>
    case Deposit(_, _, _, _, _) => AccountedDeposit(s, op);
    case Withdraw(_, _, _, _, _, _) => AccountedWithdraw(s, op);
    case Create(_, _, _) => AccountedCreate(s, op);
    case Complete(id) => AccountedComplete(s, id);
    case Settle(id, event) => AccountedSettle(s, id, event);
  }
}
