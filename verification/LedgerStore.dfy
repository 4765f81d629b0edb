/** The in-memory store and the handlers as the program has them: objects whose
    maps are updated in place, step by step. Every handler's contract equates the
    new state and the answer with the corresponding call of `Ledger`. */
module LedgerStore {
  import opened Wrappers
  import opened Money
  import opened Fees
  import opened Ledger

  class MemoryStorage {
    var users: set<string>
    var wallets: map<string, string>
    var balances: Balances
    var transactions: map<string, Tx>
    var transactionsByUser: map<string, seq<string>>

    constructor (us: set<string>, ws: map<string, string>, seeds: Balances)
      ensures users == us && wallets == ws && balances == seeds && transactions == map[] && transactionsByUser == map[]
    {
      users, wallets, balances, transactions, transactionsByUser := us, ws, seeds, map[], map[];
    }

    method CreateWallet(address: string, userID: string) returns (ok: bool)
      modifies this`wallets
      ensures ok <==> address !in old(wallets)
      ensures wallets == if ok then old(wallets)[address := userID] else old(wallets)
    {
      if address in wallets { return false; }
      wallets := wallets[address := userID];
      return true;
    }

    method GetBalance(userID: string, currency: string) returns (amount: real)
      ensures amount == Balance(balances, userID, currency)
    {
      if userID !in balances { return 0.0; }
      return if currency in balances[userID] then balances[userID][currency] else 0.0;
    }

    method AddBalance(userID: string, currency: string, amount: real)
      modifies this`balances
      ensures balances == Add(old(balances), userID, currency, amount)
    {
      ghost var before := balances;
      if userID !in balances { balances := balances[userID := map[]]; }
      var current := if currency in balances[userID] then balances[userID][currency] else 0.0;
      balances := balances[userID := balances[userID][currency := current + amount]];
      assert balances == Add(before, userID, currency, amount);
    }

    method DeductBalance(userID: string, currency: string, amount: real) returns (ok: bool)
      modifies this`balances
      ensures ok <==> CanDeduct(old(balances), userID, currency, amount)
      ensures balances == if ok then Add(old(balances), userID, currency, -amount) else old(balances)
    {
      if userID !in balances { return false; }
      var current := if currency in balances[userID] then balances[userID][currency] else 0.0;
      if current < amount { return false; }
      balances := balances[userID := balances[userID][currency := current - amount]];
      assert current - amount == current + -amount;
      return true;
    }

    method CreateTransaction(id: string, tx: Tx)
      modifies this`transactions, this`transactionsByUser
      ensures transactions == old(transactions)[id := tx]
      ensures transactionsByUser
              == old(transactionsByUser)[tx.userID := ListOf(old(transactionsByUser), tx.userID) + [id]]
    {
      transactions := transactions[id := tx];
      var ids := if tx.userID in transactionsByUser then transactionsByUser[tx.userID] else [];
      transactionsByUser := transactionsByUser[tx.userID := ids + [id]];
    }

    method UpdateTransactionStatus(id: string, status: int) returns (ok: bool)
      modifies this`transactions
      ensures ok <==> id in old(transactions)
      ensures transactions
              == if ok then old(transactions)[id := old(transactions)[id].(status := status)] else old(transactions)
    {
      if id !in transactions { return false; }
      transactions := transactions[id := transactions[id].(status := status)];
      return true;
    }
  }

  class Handler {
    const store: MemoryStorage
    const feeConfig: FeeConfig
    const asyncWithdrawals: bool
    /** Completion goroutines that have not run yet. */
    var tasks: map<string, Task>
    var outbox: seq<Webhook>
    ghost var opening: Balances
    ghost var origins: map<string, Origin>
    ghost var moved: map<string, real>
    ghost var charges: seq<string>
    ghost var unpaid: set<string>

    ghost function Now(): State
      reads this, store, feeConfig
    {
      State(store.users, store.wallets, feeConfig.State(), store.balances, store.transactions, store.transactionsByUser,
            tasks, outbox, opening, origins, moved, charges, unpaid)
    }

    constructor (s: MemoryStorage, f: FeeConfig, async: bool)
      requires s.transactions == map[] && s.transactionsByUser == map[] && f.State() == NEW_FEES
      ensures store == s && feeConfig == f && asyncWithdrawals == async
      ensures Now() == Init(s.users, s.wallets, s.balances)
    {
      store, feeConfig, asyncWithdrawals := s, f, async;
      tasks, outbox := map[], [];
      opening, origins, moved, charges, unpaid := s.balances, map[], map[], [], {};
    }

    method SendAsync(event: string, userID: string, txID: string, amount: string, fees: string)
      modifies this`outbox
      ensures Now() == old(Now()).(outbox := old(outbox) + [Webhook(event, userID, txID, amount, fees)])
    {
      outbox := outbox + [Webhook(event, userID, txID, amount, fees)];
    }

    // The store calls, each with the history it makes.

    method File(txID: string, tx: Tx, ghost origin: Origin)
      modifies store`transactions, store`transactionsByUser, this`origins, this`moved
      ensures Now() == Record(old(Now()), txID, tx, origin)
    {
      store.CreateTransaction(txID, tx);
      origins, moved := origins[txID := origin], moved[txID := 0.0];
    }

    method Credit(txID: string, userID: string, currency: string, amount: real)
      requires txID in store.transactions && txID in moved
      requires store.transactions[txID].userID == userID && store.transactions[txID].currency == currency
      modifies store`balances, this`moved
      ensures Now() == Move(old(Now()), txID, amount)
    {
      hide Add;
      store.AddBalance(userID, currency, amount);
      moved := moved[txID := moved[txID] + amount];
    }

    method Debit(txID: string, userID: string, currency: string, amount: real) returns (ok: bool)
      requires txID in store.transactions && txID in moved
      requires store.transactions[txID].userID == userID && store.transactions[txID].currency == currency
      modifies store`balances, this`moved
      ensures ok <==> CanDeduct(old(store.balances), userID, currency, amount)
      ensures Now() == if ok then Move(old(Now()), txID, -amount) else old(Now())
    {
      hide Add;
      ok := store.DeductBalance(userID, currency, amount);
      if ok { moved := moved[txID := moved[txID] + -amount]; }
    }

    method Mark(txID: string, status: int)
      requires txID in store.transactions
      modifies store`transactions
      ensures Now() == SetStatus(old(Now()), txID, status)
    {
      var _ := store.UpdateTransactionStatus(txID, status);
    }

    method ProcessDeposit(txID: string, userID: string, amount: Option<real>, currency: string, wallet: string)
      returns (status: nat)
      requires Enabled(Now(), Deposit(txID, userID, amount, currency, wallet))
      modifies this, store
      ensures (Now(), status) == DepositCall(old(Now()), Deposit(txID, userID, amount, currency, wallet))
    {
      hide CalculateFee, FormatAmount, Add, Move;
      if amount == None || currency !in CURRENCIES { return 400; }
      if userID == "" { return 400; }
      if userID !in store.users { return 404; }
      var owns := exists a | a in store.wallets :: store.wallets[a] == userID;
      assert owns == OwnsSome(Now(), userID);
      if !owns {
        var created := store.CreateWallet(wallet, userID);
        if !created { return 500; }
      }
      assert Now() == if owns then old(Now()) else old(Now()).(owners := old(Now()).owners[wallet := userID]);
      var percent, _ := feeConfig.GetDepositFeeForUser(userID);
      var fee := CalculateFee(amount.value, percent);
      var amountStr := FormatAmount(amount.value);
      File(txID,
           Tx(userID, amountStr, amountStr, FormatAmount(fee), currency, TYPE_DEPOSIT, EXTERNAL, PENDING, "", wallet),
           Iframe(amount.value));
      Credit(txID, userID, currency, amount.value);
      SendAsync(DEPOSIT_COMPLETED, userID, txID, amountStr, "0");
      return 200;
    }

    method ProcessWithdrawal(txID: string, userID: string, amount: Option<real>, currency: string, wallet: string)
      returns (status: nat)
      requires Enabled(Now(), Withdraw(txID, userID, amount, currency, wallet, asyncWithdrawals))
      modifies this, store
      ensures (Now(), status)
              == WithdrawCall(old(Now()), Withdraw(txID, userID, amount, currency, wallet, asyncWithdrawals))
    {
      hide CalculateFee, FormatAmount, Add, Move;
      if amount == None || currency !in CURRENCIES { return 400; }
      if userID == "" { return 400; }
      if userID !in store.users { return 404; }
      var owns := exists a | a in store.wallets :: store.wallets[a] == userID;
      assert owns == OwnsSome(Now(), userID);
      if !owns { return 400; }
      var percent, _ := feeConfig.GetWithdrawalFeeForUser(userID);
      var fee := CalculateFee(amount.value, percent);
      var total := amount.value + fee;
      var current := store.GetBalance(userID, currency);
      if current < total { return 400; }
      var txStatus := COMPLETED;
      if asyncWithdrawals { txStatus := PENDING; }
      File(txID, Tx(userID, FormatAmount(amount.value), FormatAmount(total), FormatAmount(fee), currency,
                    TYPE_WITHDRAWAL, WITHDRAWAL, txStatus, wallet, wallet),
           Withdrawal(total, asyncWithdrawals));
      if !asyncWithdrawals {
        var ok := Debit(txID, userID, currency, total);
        if !ok {
          Mark(txID, FAILED);
          return 500;
        }
        charges := charges + [txID];
      }
      return 200;
    }

    method CreateTransaction(txID: string, req: Request, hasWebhook: bool) returns (status: nat)
      requires Enabled(Now(), Create(txID, req, hasWebhook))
      modifies this, store
      ensures (Now(), status) == CreateCall(old(Now()), Create(txID, req, hasWebhook))
    {
      hide CalculateFee, FormatAmount, CompleteTask, Record;
      if req.userID == "" { return 400; }
      if req.amount <= 0.0 { return 400; }
      if req.currency == "" { return 400; }
      if req.userID !in store.users { return 404; }
      var kind := req.kind;
      if kind == 0 { kind := TYPE_DEPOSIT; }
      var depositType := req.depositType;
      if depositType == "" {
        if kind == TYPE_DEPOSIT { depositType := EXTERNAL; } else { depositType := HOSTED; }
      }
      assert depositType == DepositTypeOf(req);
      var percent, overridden := 0.0, false;
      if depositType == EXTERNAL { percent, overridden := feeConfig.GetDepositFeeForUser(req.userID); }
      else if depositType == WITHDRAWAL { percent, overridden := feeConfig.GetWithdrawalFeeForUser(req.userID); }
      var fee := CalculateFee(req.amount, percent);
      assert fee == FeeOf(Now(), req);
      var total := if depositType == WITHDRAWAL then FormatAmount(req.amount + fee) else FormatAmount(req.amount);
      var isDebit := false;
      if depositType == HOSTED && req.sending != "" {
        if req.sending in store.wallets && store.wallets[req.sending] == req.userID { isDebit := true; }
      }
      var task := Task(req.userID, req.currency, req.amount, fee, depositType, isDebit, hasWebhook);
      assert task == TaskOf(Now(), req, hasWebhook);
      var tx := Tx(req.userID, FormatAmount(req.amount), total, FormatAmount(fee), req.currency, kind, depositType,
                   PENDING, req.sending, req.receiving);
      assert tx == CoreTx(Now(), req);
      File(txID, tx, if CompletesItself(depositType) then Core(task)
                     else if depositType == WITHDRAWAL then Withdrawal(req.amount + fee, true)
                     else Inert);
      if depositType == EXTERNAL || depositType == HOSTED {
        RecordFinds(old(Now()), txID, tx, Core(task));
        tasks := tasks[txID := task];
        if !hasWebhook { RunCompletion(txID); }
      }
      return 201;
    }

    lemma RecordFinds(s: State, id: string, tx: Tx, origin: Origin)
      ensures var s' := Record(s, id, tx, origin);
              id in s'.txs && s'.txs[id] == tx && id in s'.moved && s'.tasks == s.tasks
    { }

    /** One run of the `complete` closure. */
    method RunCompletion(txID: string)
      requires txID in tasks && txID in store.transactions && txID in moved
      requires store.transactions[txID].userID == tasks[txID].userID
               && store.transactions[txID].currency == tasks[txID].currency
      modifies this, store
      ensures Now() == CompleteTask(old(Now()), txID)
    {
      hide FormatAmount, Move;
      var task := tasks[txID];
      tasks := tasks - {txID};
      if task.hasWebhook { Mark(txID, COMPLETED); }
      var netAmount := task.amount - task.fee;
      if task.isDebit {
        var ok := Debit(txID, task.userID, task.currency, netAmount);
        if !ok {
          unpaid := unpaid + {txID};
          return;
        }
      } else {
        Credit(txID, task.userID, task.currency, netAmount);
      }
      if task.hasWebhook {
        SendAsync(DEPOSIT_COMPLETED, task.userID, txID, FormatAmount(task.amount), "");
      }
    }

    method SettleWithdrawal(txID: string, event: string) returns (status: nat)
      requires txID in store.transactions ==> txID in moved
      modifies this, store
      ensures (Now(), status) == SettleCall(old(Now()), txID, event)
    {
      hide ParseAmount, Add;
      if event != WITHDRAWAL_COMPLETED && event != WITHDRAWAL_REJECTED { return 400; }
      if txID !in store.transactions { return 404; }
      var tx := store.transactions[txID];
      if tx.depositType != WITHDRAWAL { return 400; }
      if tx.status != PENDING { return 409; }
      if event == WITHDRAWAL_COMPLETED { status := CompleteWithdrawal(txID, tx); }
      else { status := RejectWithdrawal(txID, tx); }
    }

    method CompleteWithdrawal(txID: string, tx: Tx) returns (status: nat)
      requires txID in store.transactions && tx == store.transactions[txID] && txID in moved
      requires tx.depositType == WITHDRAWAL && tx.status == PENDING
      modifies this, store
      ensures (Now(), status) == SettleCall(old(Now()), txID, WITHDRAWAL_COMPLETED)
    {
      hide ParseAmount, Move;
      var total := ParseAmount(tx.totalAmount);
      if total == None { return 500; }
      var ok := Debit(txID, tx.userID, tx.currency, total.value);
      if !ok { return 409; }
      charges := charges + [txID];
      MoveFinds(old(Now()), txID, -total.value);
      Mark(txID, COMPLETED);
      SendAsync(WITHDRAWAL_COMPLETED, tx.userID, txID, tx.amount, tx.fee);
      return 200;
    }

    lemma MoveFinds(s: State, id: string, a: real)
      requires id in s.txs && id in s.moved
      ensures Move(s, id, a).txs == s.txs && Move(s, id, a).charges == s.charges && Move(s, id, a).outbox == s.outbox
    { }

    method RejectWithdrawal(txID: string, tx: Tx) returns (status: nat)
      requires txID in store.transactions && tx == store.transactions[txID]
      requires tx.depositType == WITHDRAWAL && tx.status == PENDING
      modifies this, store
      ensures (Now(), status) == SettleCall(old(Now()), txID, WITHDRAWAL_REJECTED)
    {
      hide ParseAmount, Add;
      Mark(txID, FAILED);
      SendAsync(WITHDRAWAL_REJECTED, tx.userID, txID, tx.amount, "");
      return 200;
    }
  }
}
