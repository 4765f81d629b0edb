/** Each deposit is announced exactly once: an iframe deposit at once, a core deposit
    or transfer when its goroutine has paid it, if there is anyone to tell. */
module LedgerHooks {
  import opened Money
  import opened Ledger
  import opened LedgerInvariants
  import opened LedgerAccounts
  import opened LedgerTheorems
  import opened LedgerLaws

  /** How many webhooks have told of the completion of this deposit. */
  function Told(outbox: seq<Webhook>, id: string): nat {
    if outbox == [] then 0
    else
      var w := outbox[|outbox| - 1];
      Told(outbox[..|outbox| - 1], id) + if w.event == "core.deposit.completed" && w.txID == id then 1 else 0
  }

  lemma ToldMore(outbox: seq<Webhook>, w: Webhook, id: string)
    ensures Told(outbox + [w], id)
         == Told(outbox, id) + if w.event == "core.deposit.completed" && w.txID == id then 1 else 0
  {
    assert (outbox + [w])[..|outbox|] == outbox;
  }

  /** How many there should be. */
  function Due(s: State, id: string): nat {
    if id !in s.txs || id !in s.origins then 0
    else
      match s.origins[id]
      case Iframe(_) => 1
      case Core(task) => if task.hasWebhook && id !in s.tasks && id !in s.unpaid then 1 else 0
      case _ => 0
  }

  ghost predicate AllTold(s: State) { forall id :: Told(s.outbox, id) == Due(s, id) }

  /** A call that only concerns transaction k. */
  lemma ToldOthers(s: State, s': State, k: string, w: Webhook, id: string)
    requires AllTold(s) && Accounted(s) && id != k
    requires s'.outbox == s.outbox || (s'.outbox == s.outbox + [w] && w.txID == k)
    requires (id in s'.txs <==> id in s.txs) && (id in s'.tasks <==> id in s.tasks)
    requires (id in s'.unpaid <==> id in s.unpaid)
    requires id in s.origins ==> id in s'.origins && s'.origins[id] == s.origins[id]
    ensures Told(s'.outbox, id) == Due(s', id)
  {
    hide Accounted;
    if id in s.txs { IdHasOrigin(s, id); }
    ToldMore(s.outbox, w, id);
    assert Told(s.outbox, id) == Due(s, id);
  }

  lemma DepositTold(s: State, op: Op)
    requires AllTold(s) && Accounted(s) && op.Deposit? && Enabled(s, op)
    ensures AllTold(DepositCall(s, op).0)
  {
    hide DepositCall, Accounted, FormatAmount, CalculateFee, Add, Due, Told;
    var s' := DepositCall(s, op).0;
    if s' != s {
      DepositLeaves(s, op);
      var w := Webhook(DEPOSIT_COMPLETED, op.userID, op.txID, FormatAmount(op.amount.value), "0");
      forall id ensures Told(s'.outbox, id) == Due(s', id) {
        if id != op.txID { ToldOthers(s, s', op.txID, w, id); }
        else { NewIsUntold(s, op.txID); ToldMore(s.outbox, w, op.txID); DueNow(s', op.txID); }
      }
    }
  }

  lemma NewIsUntold(s: State, id: string)
    requires AllTold(s) && id !in s.txs
    ensures Told(s.outbox, id) == 0
  {
    assert Told(s.outbox, id) == Due(s, id);
  }

  lemma DueNow(s: State, id: string)
    requires id in s.txs && id in s.origins
    ensures Due(s, id) == match s.origins[id]
                          case Iframe(_) => 1
                          case Core(task) => if task.hasWebhook && id !in s.tasks && id !in s.unpaid then 1 else 0
                          case _ => 0
  { }

  lemma WithdrawTold(s: State, op: Op)
    requires AllTold(s) && Accounted(s) && op.Withdraw? && Enabled(s, op)
    ensures AllTold(WithdrawCall(s, op).0)
  {
    hide WithdrawCall, WithdrawalTx, Accounted, Due, Told;
    var s' := WithdrawCall(s, op).0;
    if s' != s {
      WithdrawIsValid(s, op);
      WithdrawFiles(s, op);
      WithdrawMoves(s, op);
      WithdrawIsSilent(s, op);
      var w := Webhook("", "", op.txID, "", "");
      forall id ensures Told(s'.outbox, id) == Due(s', id) {
        if id != op.txID { ToldOthers(s, s', op.txID, w, id); }
        else { NewIsUntold(s, op.txID); DueNow(s', op.txID); }
      }
    }
  }

  lemma SettleTold(s: State, k: string, event: string)
    requires AllTold(s) && Accounted(s)
    ensures AllTold(SettleCall(s, k, event).0)
  {
    hide SettleCall, Accounted, ParseAmount, Due, Told;
    var s' := SettleCall(s, k, event).0;
    if s' != s {
      SettleShape(s, k, event);
      PendingHasNotMoved(s, k);
      var w := s'.outbox[|s.outbox|];
      forall id ensures Told(s'.outbox, id) == Due(s', id) {
        if id != k { ToldOthers(s, s', k, w, id); }
        else { assert Told(s.outbox, k) == Due(s, k); ToldMore(s.outbox, w, k); DueNow(s, k); DueNow(s', k); }
      }
    }
  }

  lemma CompleteTold(s: State, k: string)
    requires AllTold(s) && Accounted(s) && k in s.tasks && k in s.txs && k in s.moved
    ensures AllTold(CompleteTask(s, k))
  {
    hide CompleteTask, Accounted, Meant, FormatAmount, CanDeduct, Due, Told;
    var s' := CompleteTask(s, k);
    RunningHasNotMoved(s, k);
    CompleteEffect(s, k);
    var w := Webhook(DEPOSIT_COMPLETED, s.tasks[k].userID, k, FormatAmount(s.tasks[k].amount), "");
    forall id ensures Told(s'.outbox, id) == Due(s', id) {
      if id != k { ToldOthers(s, s', k, w, id); }
      else { assert Told(s.outbox, k) == Due(s, k); ToldMore(s.outbox, w, k); DueNow(s, k); DueNow(s', k); }
    }
  }

  /** A transaction that is filed, and not announced for now. */
  lemma FiledTold(s: State, s': State, k: string)
    requires AllTold(s) && Accounted(s) && k !in s.txs && s'.outbox == s.outbox && s'.unpaid == s.unpaid
    requires s'.txs.Keys == s.txs.Keys + {k}
    requires forall id :: id != k ==> (id in s'.tasks <==> id in s.tasks)
    requires forall id :: id != k && id in s.origins ==> id in s'.origins && s'.origins[id] == s.origins[id]
    requires k in s'.origins && !s'.origins[k].Iframe? && (s'.origins[k].Core? ==> k in s'.tasks)
    ensures AllTold(s')
  {
    hide Accounted, Due, Told;
    var w := Webhook("", "", k, "", "");
    forall id ensures Told(s'.outbox, id) == Due(s', id) {
      if id != k { ToldOthers(s, s', k, w, id); }
      else { NewIsUntold(s, k); DueNow(s', k); }
    }
  }

  lemma RecordTold(s: State, op: Op)
    requires AllTold(s) && Accounted(s) && op.Create? && Enabled(s, op) && !CompletesItself(DepositTypeOf(op.req))
    ensures AllTold(Record(s, op.txID, CoreTx(s, op.req), OriginOf(s, op.req, op.hasWebhook)))
  {
    hide Accounted, AllTold, CoreTx, TaskOf, DepositTypeOf, CompletesItself;
    FiledTold(s, Record(s, op.txID, CoreTx(s, op.req), OriginOf(s, op.req, op.hasWebhook)), op.txID);
  }

  lemma QueuedTold(s: State, op: Op)
    requires AllTold(s) && Accounted(s) && op.Create? && Enabled(s, op) && CompletesItself(DepositTypeOf(op.req))
    ensures AllTold(Queued(s, op))
  {
    hide Accounted, AllTold, Queued, CoreTx, TaskOf, DepositTypeOf, CompletesItself;
    QueuedShape(s, op);
    FiledTold(s, Queued(s, op), op.txID);
  }

  lemma CreateTold(s: State, op: Op)
    requires AllTold(s) && Accounted(s) && op.Create? && Enabled(s, op)
    ensures AllTold(CreateCall(s, op).0)
  {
    hide Accounted, AllTold, CreateCall, CompleteTask, CoreTx, TaskOf, OriginOf, DepositTypeOf, CompletesItself;
    CreateAnswer(s, op);
    if CreateCall(s, op).1 == 201 {
      CreatedIsQueued(s, op);
      if !CompletesItself(DepositTypeOf(op.req)) {
        RecordTold(s, op);
      } else {
        QueuedTold(s, op);
        if !op.hasWebhook {
          QueuedAccounted(s, op);
          CompleteTold(Queued(s, op), op.txID);
        }
      }
    }
  }

  lemma QueuedAccounted(s: State, op: Op)
    requires Accounted(s) && op.Create? && Enabled(s, op) && op.req.amount > 0.0
    requires CompletesItself(DepositTypeOf(op.req))
    ensures Accounted(Queued(s, op))
  {
    hide Accounted, CoreTx, TaskOf, DepositTypeOf, CompletesItself;
    QueuedOrigin(s, op);
    AccountedQueued(s, op);
  }

  lemma ToldStep(s: State, op: Op)
    requires AllTold(s) && Accounted(s) && Enabled(s, op)
    ensures AllTold(Next(s, op))
  {
    hide Accounted, CompleteTask, CreateCall, DepositCall, WithdrawCall, SettleCall, Told;
    match op
    case ChangeFees(_) =>
      forall id ensures Told(Next(s, op).outbox, id) == Due(Next(s, op), id) {
        assert Told(s.outbox, id) == Due(s, id);
      }
    case Deposit(_, _, _, _, _) => DepositTold(s, op);
    case Withdraw(_, _, _, _, _, _) => WithdrawTold(s, op);
    case Create(_, _, _) => CreateTold(s, op);
    case Complete(k) => CompleteTold(s, k);
    case Settle(k, event) => SettleTold(s, k, event);
  }

  lemma {:induction false} ToldRun(s: State, ops: seq<Op>)
    requires Sound(s) && AllTold(s) && Legal(s, ops)
    ensures AllTold(Run(s, ops))
    decreases |ops|
  {
    hide Books, Accounted, Announced, AllTold, Next;
    if ops != [] {
      ToldStep(s, ops[0]);
      SoundStep(s, ops[0]);
      ToldRun(Next(s, ops[0]), ops[1..]);
    }
  }

  /** Over any run there is one webhook for every iframe deposit, one for every core
      deposit or transfer that was asked for while there was anyone to tell, has run
      and could be paid, and none for anything else. */
  lemma DepositsAreAnnouncedOnce(users: set<string>, owners: map<string, string>, opening: Balances, ops: seq<Op>,
                                 id: string)
    requires Legal(Init(users, owners, opening), ops)
    ensures var s := Run(Init(users, owners, opening), ops);
            Told(s.outbox, id) == Due(s, id)
  {
    hide Legal, Run, Told, Due;
    InitSound(users, owners, opening);
    InitTold(users, owners, opening);
    ToldRun(Init(users, owners, opening), ops);
  }

  lemma InitTold(users: set<string>, owners: map<string, string>, opening: Balances)
    ensures AllTold(Init(users, owners, opening))
  { }
}
