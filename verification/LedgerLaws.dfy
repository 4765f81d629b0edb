/** What a caller of the ledger gets, said of the request, of the owners of the
    wallets and of the fee calls made before, and of nothing else: which way the
    money goes, how much of it, and what is written down. */
module LedgerLaws {
  import opened Wrappers
  import opened Money
  import opened Fees
  import opened Ledger
  import opened LedgerInvariants
  import opened LedgerAccounts
  import opened LedgerTheorems

  // ----- requests -----

  predicate Supported(c: string) {
    || c == "XRP" || c == "USD" || c == "EUR" || c == "GBP" || c == "ZAR" || c == "MXN" || c == "SGD" || c == "CAD"
    || c == "EGG" || c == "PEB" || c == "PKR"
  }

  /** A core request that is answered 201. */
  predicate Acceptable(users: set<string>, req: Request) {
    req.userID != "" && req.userID in users && req.amount > 0.0 && req.currency != ""
  }

  /** Without a kind, a request is a deposit from outside. */
  predicate IsExternal(req: Request) {
    req.depositType == "external" || (req.depositType == "" && (req.kind == 0 || req.kind == 1))
  }

  predicate IsHosted(req: Request) {
    req.depositType == "hosted" || (req.depositType == "" && req.kind != 0 && req.kind != 1)
  }

  /** The user is the one who sends: the sending address is a wallet of his. */
  predicate Sends(owners: map<string, string>, req: Request) {
    req.sending != "" && req.sending in owners && owners[req.sending] == req.userID
  }

  lemma KindsOfRequest(req: Request)
    ensures DepositTypeOf(req) == EXTERNAL <==> IsExternal(req)
    ensures DepositTypeOf(req) == HOSTED <==> IsHosted(req)
    ensures DepositTypeOf(req) == WITHDRAWAL <==> req.depositType == "withdrawal"
    ensures KindOf(req) == if req.kind == 0 then 1 else req.kind
  { }

  /** One balance has changed by this much, and no other. */
  ghost predicate Changed(b: Balances, b': Balances, u: string, c: string, diff: real) {
    && Balance(b', u, c) == Balance(b, u, c) + diff
    && forall v, d :: (v, d) != (u, c) ==> Balance(b', v, d) == Balance(b, v, d)
  }

  // ----- one call -----

  lemma WalletOfUser(s: State, op: Op)
    requires op.Deposit? && Enabled(s, op) && (OwnsSome(s, op.userID) || op.wallet !in s.owners)
    ensures var s' := WithWallet(s, op);
            && op.wallet in s'.owners && s'.owners[op.wallet] == op.userID
            && forall a :: a in s.owners ==> a in s'.owners && s'.owners[a] == s.owners[a]
  { }

  lemma DepositOwners(s: State, op: Op)
    requires op.Deposit? && DepositCall(s, op).0 != s
    ensures DepositCall(s, op).0.owners == WithWallet(s, op).owners
  {
    hide FormatAmount, DepositTx, OwnsSome, Add, WithWallet;
  }

  lemma SupportedIff(c: string)
    ensures c in CURRENCIES <==> Supported(c)
  { }

  /** Every answer of an iframe deposit, and that a refused one changes nothing. */
  lemma DepositAnswer(s: State, op: Op)
    requires op.Deposit?
    ensures DepositCall(s, op).1
         == if op.amount == None || !Supported(op.currency) || op.userID == "" then 400
            else if op.userID !in s.users then 404
            else if !OwnsSome(s, op.userID) && op.wallet in s.owners then 500
            else 200
    ensures DepositCall(s, op).1 != 200 ==> DepositCall(s, op).0 == s
    ensures DepositCall(s, op).1 == 200 ==> |DepositCall(s, op).0.outbox| == |s.outbox| + 1
  {
    hide FormatAmount, CalculateFee, Add, OwnsSome, Record, Move, DepositTx, WithWallet;
    SupportedIff(op.currency);
    hide Supported;
    if DepositCall(s, op).1 == 200 { LongerOutbox(s, op); }
  }

  lemma LongerOutbox(s: State, op: Op)
    requires op.Deposit? && DepositCall(s, op).1 == 200
    ensures |DepositCall(s, op).0.outbox| == |s.outbox| + 1
  {
    hide FormatAmount, CalculateFee, Add;
  }

  /** An iframe deposit of any amount, by a known user in a supported currency, adds
      all of it, whatever the fees. It is filed under the user's wallet, which is
      created if he had none, stays pending, and is announced at once. */
  lemma DepositGivesAll(s: State, op: Op)
    requires op.Deposit? && Enabled(s, op) && op.amount.Some? && Supported(op.currency)
    requires op.userID != "" && op.userID in s.users && (OwnsSome(s, op.userID) || op.wallet !in s.owners)
    ensures var (s', code) := DepositCall(s, op);
            var amount := op.amount.value;
            && code == 200
            && Changed(s.balances, s'.balances, op.userID, op.currency, amount)
            && op.wallet in s'.owners && s'.owners[op.wallet] == op.userID
            && (forall a :: a in s.owners ==> a in s'.owners && s'.owners[a] == s.owners[a])
            && (var fee := CalculateFee(amount, DepositFeeFor(s.fees, op.userID));
                s'.txs == s.txs[op.txID := Tx(op.userID, FormatAmount(amount), FormatAmount(amount), FormatAmount(fee),
                                              op.currency, 1, "external", 1, "", op.wallet)])
            && s'.outbox
               == s.outbox + [Webhook("core.deposit.completed", op.userID, op.txID, FormatAmount(amount), "0")]
  {
    hide DepositCall, FormatAmount, CalculateFee, Add, WithWallet, OwnsSome;
    DepositAnswer(s, op);
    DepositLeaves(s, op);
    DepositOwners(s, op);
    WalletOfUser(s, op);
  }

  /** Every answer of a withdrawal, and that one answered 400 or 404 changes nothing. */
  lemma WithdrawAnswer(s: State, op: Op)
    requires op.Withdraw?
    ensures WithdrawCall(s, op).1
         == if op.amount == None || !Supported(op.currency) || op.userID == "" then 400
            else if op.userID !in s.users then 404
            else if !OwnsSome(s, op.userID) then 400
            else if Balance(s.balances, op.userID, op.currency)
                    < op.amount.value + CalculateFee(op.amount.value, WithdrawalFeeFor(s.fees, op.userID)) then 400
            else if !op.async && op.userID !in s.balances then 500
            else 200
    ensures WithdrawCall(s, op).1 == 400 || WithdrawCall(s, op).1 == 404 ==> WithdrawCall(s, op).0 == s
    ensures WithdrawCall(s, op).1 == 200 || WithdrawCall(s, op).1 == 500 ==> op.txID in WithdrawCall(s, op).0.txs
  {
    hide FormatAmount, CalculateFee, Add, OwnsSome;
    SupportedIff(op.currency);
    hide Supported;
  }

  lemma WithdrawBalance(s: State, op: Op)
    requires op.Withdraw? && op.amount.Some? && WithdrawCall(s, op).0 != s
    requires Balance(s.balances, op.userID, op.currency) >= TotalOf(s, op.userID, op.amount.value)
    ensures var total := TotalOf(s, op.userID, op.amount.value);
            Changed(s.balances, WithdrawCall(s, op).0.balances, op.userID, op.currency,
                    if op.async || op.userID !in s.balances then 0.0 else -total)
  {
    hide WithdrawCall, TotalOf, CalculateFee, FormatAmount, Add, Balance;
    var total := TotalOf(s, op.userID, op.amount.value);
    assert CanDeduct(s.balances, op.userID, op.currency, total) <==> op.userID in s.balances;
    hide CanDeduct;
    WithdrawOutcome(s, op);
    RecordThenMove(s, op.txID, WithdrawalTx(s, op), Withdrawal(total, op.async), -total);
  }

  /** A withdrawal from the iframe, by a user with a wallet, of any amount: it costs
      the amount and the fee at the user's withdrawal percentage. With less money
      than that it is refused and nothing happens; else the immediate mode takes
      exactly that much and files it as Completed, and the deferred mode takes
      nothing and files it as Pending. */
  lemma WithdrawalTakesAmountAndFee(s: State, op: Op)
    requires op.Withdraw? && Enabled(s, op) && op.amount.Some? && Supported(op.currency)
    requires op.userID != "" && op.userID in s.users && OwnsSome(s, op.userID) && op.userID in s.balances
    ensures var (s', code) := WithdrawCall(s, op);
            var amount, balance := op.amount.value, Balance(s.balances, op.userID, op.currency);
            var fee := CalculateFee(amount, WithdrawalFeeFor(s.fees, op.userID));
            if balance < amount + fee then s' == s && code == 400
            else
              && code == 200
              && Changed(s.balances, s'.balances, op.userID, op.currency, if op.async then 0.0 else -(amount + fee))
              && s'.txs == s.txs[op.txID := Tx(op.userID, FormatAmount(amount), FormatAmount(amount + fee),
                                               FormatAmount(fee), op.currency, 0, "withdrawal",
                                               if op.async then 1 else 100, op.wallet, op.wallet)]
  {
    hide WithdrawCall, FormatAmount, CalculateFee, Add, OwnsSome;
    WithdrawAnswer(s, op);
    if WithdrawCall(s, op).0 != s {
      WithdrawFiles(s, op);
      WithdrawBalance(s, op);
    }
  }

  lemma CreateAnswer(s: State, op: Op)
    requires op.Create?
    ensures CreateCall(s, op).1 == if Acceptable(s.users, op.req) then 201
                                   else if op.req.userID == "" || op.req.amount <= 0.0 || op.req.currency == "" then 400
                                   else 404
    ensures CreateCall(s, op).1 != 201 ==> CreateCall(s, op).0 == s
    ensures CreateCall(s, op).1 == 201 ==> op.txID in CreateCall(s, op).0.txs
  {
    hide CompleteTask, TaskOf, CoreTx, OriginOf, DepositTypeOf;
    if Acceptable(s.users, op.req) {
      var s1 := Record(s, op.txID, CoreTx(s, op.req), OriginOf(s, op.req, op.hasWebhook));
      CompleteKeepsIds(s1.(tasks := s1.tasks[op.txID := TaskOf(s, op.req, op.hasWebhook)]), op.txID);
    }
  }

  lemma CompleteKeepsIds(s: State, id: string)
    requires id in s.tasks && id in s.txs && id in s.moved
    ensures id in CompleteTask(s, id).txs
  {
    hide FormatAmount, Started, Move, CanDeduct;
    var task := s.tasks[id];
    StartedShape(s, id);
    MoveShape(Started(s, id), id, if task.isDebit then -(task.amount - task.fee) else task.amount - task.fee);
  }

  /** What a goroutine pays, or takes. */
  lemma CompletePays(s: State, id: string)
    requires id in s.tasks && id in s.txs && id in s.moved
    ensures var task := s.tasks[id];
            var u, c, net := s.txs[id].userID, s.txs[id].currency, task.amount - task.fee;
            Changed(s.balances, CompleteTask(s, id).balances, u, c,
                    if !task.isDebit then net else if CanDeduct(s.balances, u, c, net) then -net else 0.0)
  {
    hide FormatAmount, Started, Move, Add, CanDeduct;
    var task := s.tasks[id];
    StartedShape(s, id);
    MoveShape(Started(s, id), id, if task.isDebit then -(task.amount - task.fee) else task.amount - task.fee);
  }

  /** The state in which the goroutine of a new transaction is about to run. */
  function Queued(s: State, op: Op): State
    requires op.Create?
  {
    var s1 := Record(s, op.txID, CoreTx(s, op.req), OriginOf(s, op.req, op.hasWebhook));
    s1.(tasks := s1.tasks[op.txID := TaskOf(s, op.req, op.hasWebhook)])
  }

  lemma QueuedShape(s: State, op: Op)
    requires op.Create?
    ensures var q := Queued(s, op);
            && op.txID in q.tasks && q.tasks[op.txID] == TaskOf(s, op.req, op.hasWebhook)
            && q.txs == s.txs[op.txID := CoreTx(s, op.req)] && q.moved == s.moved[op.txID := 0.0]
            && q.origins == s.origins[op.txID := OriginOf(s, op.req, op.hasWebhook)]
            && q.balances == s.balances && q.owners == s.owners && q.fees == s.fees && q.outbox == s.outbox
            && q.unpaid == s.unpaid && q.charges == s.charges
            && q.tasks == s.tasks[op.txID := TaskOf(s, op.req, op.hasWebhook)]
  {
    hide CoreTx, TaskOf, OriginOf;
  }

  /** A hosted transfer moves its amount, free of charge: out of the balance if the
      user owns the sending address, or not at all if he cannot pay it, and into the
      balance if he does not own that address. */
  lemma HostedTransferMoves(s: State, op: Op)
    requires op.Create? && Enabled(s, op) && Acceptable(s.users, op.req) && IsHosted(op.req) && !op.hasWebhook
    ensures var (s', code) := CreateCall(s, op);
            var u, c, amount := op.req.userID, op.req.currency, op.req.amount;
            var canPay := u in s.balances && Balance(s.balances, u, c) >= amount;
            && code == 201
            && Changed(s.balances, s'.balances, u, c,
                       if !Sends(s.owners, op.req) then amount else if canPay then -amount else 0.0)
  {
    hide CreateCall, CompleteTask, Queued, CoreTx;
    CreateAnswer(s, op);
    CreateOutcome(s, op);
    KindsOfRequest(op.req);
    QueuedShape(s, op);
    TransferTask(s, op.req, op.hasWebhook);
    CompletePays(Queued(s, op), op.txID);
    CreatedIsQueued(s, op);
    CoreTxOf(s, op.req);
  }

  lemma CreatedIsQueued(s: State, op: Op)
    requires op.Create? && Acceptable(s.users, op.req)
    ensures CompletesItself(DepositTypeOf(op.req)) && op.hasWebhook ==> CreateCall(s, op).0 == Queued(s, op)
    ensures CompletesItself(DepositTypeOf(op.req)) && !op.hasWebhook ==>
              op.txID in Queued(s, op).tasks && op.txID in Queued(s, op).txs && op.txID in Queued(s, op).moved
              && CreateCall(s, op).0 == CompleteTask(Queued(s, op), op.txID)
    ensures !CompletesItself(DepositTypeOf(op.req)) ==>
              CreateCall(s, op).0 == Record(s, op.txID, CoreTx(s, op.req), OriginOf(s, op.req, op.hasWebhook))
  {
    hide CompleteTask, TaskOf, CoreTx, OriginOf, DepositTypeOf;
  }

  /** What the goroutine of a hosted transfer has captured. */
  lemma TransferTask(s: State, req: Request, hasWebhook: bool)
    requires IsHosted(req)
    ensures TaskOf(s, req, hasWebhook)
         == Task(req.userID, req.currency, req.amount, 0.0, "hosted", Sends(s.owners, req), hasWebhook)
    ensures FeeOf(s, req) == 0.0
  {
    KindsOfRequest(req);
    hide CalculateFee;
    FreeOfCharge(req.amount);
  }

  /** What the goroutine of a deposit from outside has captured. */
  lemma DepositTask(s: State, req: Request, hasWebhook: bool)
    requires IsExternal(req)
    ensures FeeOf(s, req) == CalculateFee(req.amount, DepositFeeFor(s.fees, req.userID))
    ensures TaskOf(s, req, hasWebhook)
         == Task(req.userID, req.currency, req.amount, FeeOf(s, req), "external", false, hasWebhook)
  {
    KindsOfRequest(req);
    hide CalculateFee;
  }

  lemma CoreTxOf(s: State, req: Request)
    ensures var tx, fee := CoreTx(s, req), FeeOf(s, req);
            tx == Tx(req.userID, FormatAmount(req.amount),
                     FormatAmount(if req.depositType == "withdrawal" then req.amount + fee else req.amount),
                     FormatAmount(fee), req.currency, if req.kind == 0 then 1 else req.kind,
                     if IsExternal(req) then "external" else if IsHosted(req) then "hosted" else req.depositType,
                     1, req.sending, req.receiving)
  {
    hide FormatAmount, FeeOf;
  }

  lemma SettleAnswer(s: State, id: string, event: string)
    requires id in s.txs && s.txs[id].depositType == WITHDRAWAL && s.txs[id].status == PENDING && id in s.moved
    requires event == WITHDRAWAL_COMPLETED || event == WITHDRAWAL_REJECTED
    requires event == WITHDRAWAL_COMPLETED ==> ParseAmount(s.txs[id].totalAmount).Some?
    ensures var tx := s.txs[id];
            var paid := event == WITHDRAWAL_REJECTED
                        || CanDeduct(s.balances, tx.userID, tx.currency, ParseAmount(tx.totalAmount).value);
            && SettleCall(s, id, event).1 == (if paid then 200 else 409)
            && (paid <==> SettleCall(s, id, event).0 != s)
  {
    hide FormatAmount, ParseAmount, Charge, SetStatus, CanDeduct;
    if SettleCall(s, id, event).1 == 200 { LongerOutboxAfter(s, id, event); }
  }

  lemma LongerOutboxAfter(s: State, id: string, event: string)
    requires SettleCall(s, id, event).1 == 200
    ensures |SettleCall(s, id, event).0.outbox| == |s.outbox| + 1
  {
    hide FormatAmount, ParseAmount, Add, CanDeduct;
  }

  /** Settling a pending withdrawal: completed, it takes the printed total if that can
      be paid, and rejected, it takes nothing; either way it is announced with the
      amount it shows, and the fee only when it was charged. */
  lemma SettlementTakesWhatIsPrinted(s: State, id: string, event: string)
    requires Accounted(s) && id in s.txs && s.txs[id].depositType == "withdrawal" && s.txs[id].status == 1
    requires event == "core.withdrawal.completed" || event == "more-bridge.withdrawal.rejected"
    ensures ParseAmount(s.txs[id].totalAmount).Some?
    ensures var (s', code) := SettleCall(s, id, event);
            var tx, done := s.txs[id], event == "core.withdrawal.completed";
            var total := ParseAmount(tx.totalAmount).value;
            var canPay := tx.userID in s.balances && Balance(s.balances, tx.userID, tx.currency) >= total;
            if done && !canPay then s' == s && code == 409
            else
              && code == 200
              && Changed(s.balances, s'.balances, tx.userID, tx.currency, if done then -total else 0.0)
              && s'.txs == s.txs[id := tx.(status := if done then 100 else 3)]
              && s'.outbox == s.outbox + [Webhook(event, tx.userID, id, tx.amount, if done then tx.fee else "")]
  {
    hide Accounted, SettleCall, FormatAmount, ParseAmount, Add, Rounded;
    PendingHasNotMoved(s, id);
    ParseOfFormat(s.origins[id].total);
    SettleAnswer(s, id, event);
    if SettleCall(s, id, event).0 != s { SettleShape(s, id, event); }
  }

  /** Every other settlement is refused: an unknown event, an unknown transaction, one
      that is no withdrawal, and one that is settled already. */
  lemma OtherSettlementsAreRefused(s: State, id: string, event: string)
    ensures event != "core.withdrawal.completed" && event != "more-bridge.withdrawal.rejected" ==>
              SettleCall(s, id, event) == (s, 400)
    ensures var known := event == "core.withdrawal.completed" || event == "more-bridge.withdrawal.rejected";
            && (known && id !in s.txs ==> SettleCall(s, id, event) == (s, 404))
            && (known && id in s.txs && s.txs[id].depositType != "withdrawal" ==> SettleCall(s, id, event) == (s, 400))
            && (known && id in s.txs && s.txs[id].depositType == "withdrawal" && s.txs[id].status != 1 ==>
                  SettleCall(s, id, event) == (s, 409))
  {
    hide FormatAmount, ParseAmount, Charge, SetStatus, CanDeduct;
  }

  // ----- what a call leaves alone -----

  /** Fees change by fee calls only, and a wallet's owner never. */
  ghost predicate Keeps(s: State, s': State) {
    s'.fees == s.fees && s'.users == s.users
    && forall a :: a in s.owners ==> a in s'.owners && s'.owners[a] == s.owners[a]
  }

  lemma MoveKeeps(s: State, id: string, a: real)
    requires id in s.txs && id in s.moved
    ensures Move(s, id, a).fees == s.fees && Move(s, id, a).users == s.users && Move(s, id, a).owners == s.owners
  { }

  lemma StartedKeeps(s: State, id: string)
    requires id in s.tasks && id in s.txs
    ensures Started(s, id).fees == s.fees && Started(s, id).users == s.users && Started(s, id).owners == s.owners
  {
    hide SetStatus;
    StatusKeeps(s.(tasks := s.tasks - {id}), id, COMPLETED);
  }

  lemma StatusKeeps(s: State, id: string, status: int)
    requires id in s.txs
    ensures var s' := SetStatus(s, id, status);
            && s'.fees == s.fees && s'.users == s.users && s'.owners == s.owners
            && id in s'.txs && s'.txs[id].depositType == s.txs[id].depositType
  { }

  lemma CompleteKeeps(s: State, id: string)
    requires id in s.tasks && id in s.txs && id in s.moved
    ensures Keeps(s, CompleteTask(s, id))
  {
    hide FormatAmount, Move, Started, CanDeduct;
    var task := s.tasks[id];
    StartedKeeps(s, id);
    StartedShape(s, id);
    MoveKeeps(Started(s, id), id, if task.isDebit then -(task.amount - task.fee) else task.amount - task.fee);
  }

  lemma CreateKeeps(s: State, op: Op)
    requires op.Create?
    ensures Keeps(s, CreateCall(s, op).0)
  {
    hide CompleteTask, CoreTx, TaskOf, OriginOf, DepositTypeOf, CreateCall;
    CreateAnswer(s, op);
    if CreateCall(s, op).0 != s {
      CreatedIsQueued(s, op);
      QueuedKeeps(s, op);
      CompleteKeeps(Queued(s, op), op.txID);
    }
  }

  lemma QueuedKeeps(s: State, op: Op)
    requires op.Create?
    ensures op.txID in Queued(s, op).tasks && op.txID in Queued(s, op).txs && op.txID in Queued(s, op).moved
    ensures Keeps(s, Queued(s, op))
    ensures Keeps(s, Record(s, op.txID, CoreTx(s, op.req), OriginOf(s, op.req, op.hasWebhook)))
  {
    hide CoreTx, TaskOf, OriginOf;
  }

  lemma DepositKeeps(s: State, op: Op)
    requires op.Deposit? && Enabled(s, op)
    ensures Keeps(s, DepositCall(s, op).0)
  {
    hide FormatAmount, DepositTx, DepositCall, OwnsSome, Move;
    if DepositCall(s, op).0 != s {
      DepositAnswer(s, op);
      DepositOutcome(s, op);
      var s1 := Record(WithWallet(s, op), op.txID, DepositTx(s, op), Iframe(op.amount.value));
      MoveKeeps(s1, op.txID, op.amount.value);
    }
  }

  lemma WithdrawKeeps(s: State, op: Op)
    requires op.Withdraw?
    ensures Keeps(s, WithdrawCall(s, op).0)
  {
    hide FormatAmount, TotalOf, WithdrawalTx, OwnsSome, Move, CanDeduct, Balance;
    if op.amount.Some? {
      var total := TotalOf(s, op.userID, op.amount.value);
      MoveKeeps(Record(s, op.txID, WithdrawalTx(s, op), Withdrawal(total, op.async)), op.txID, -total);
    }
  }

  lemma SettleKeeps(s: State, id: string, event: string)
    ensures Keeps(s, SettleCall(s, id, event).0)
  {
    hide SettleCall;
    SettleKeepsOwners(s, id, event);
  }

  lemma SettleKeepsOwners(s: State, id: string, event: string)
    ensures var s' := SettleCall(s, id, event).0;
            s'.fees == s.fees && s'.users == s.users && s'.owners == s.owners
  {
    hide FormatAmount, ParseAmount, Charge, CanDeduct, SetStatus;
    if id in s.txs { StatusKeeps(s, id, FAILED); }
    if id in s.txs && id in s.moved && ParseAmount(s.txs[id].totalAmount).Some? {
      var total := ParseAmount(s.txs[id].totalAmount).value;
      ChargeKeeps(s, id, total);
      StatusKeeps(Charge(s, id, total), id, COMPLETED);
    }
  }

  lemma ChargeKeeps(s: State, id: string, a: real)
    requires id in s.txs && id in s.moved
    ensures var s' := Charge(s, id, a);
            s'.fees == s.fees && s'.users == s.users && s'.owners == s.owners && s'.txs == s.txs
  {
    hide Add;
  }

  lemma StepKeeps(s: State, op: Op)
    requires Enabled(s, op)
    ensures Keeps(s.(fees := Next(s, op).fees), Next(s, op))
    ensures Next(s, op).fees == if op.ChangeFees? then Apply(s.fees, op.op) else s.fees
  {
    hide CompleteTask, CreateCall, DepositCall, WithdrawCall, SettleCall;
    match op
    case ChangeFees(_) =>
    case Deposit(_, _, _, _, _) => DepositKeeps(s, op);
    case Withdraw(_, _, _, _, _, _) => WithdrawKeeps(s, op);
    case Create(_, _, _) => CreateKeeps(s, op);
    case Complete(id) => CompleteKeeps(s, id);
    case Settle(id, event) => SettleKeeps(s, id, event);
  }

  // ----- fees over runs -----

  /** The fee calls of a run, in order. */
  function FeeCalls(ops: seq<Op>): seq<FeeOp> {
    if ops == [] then [] else (if ops[0].ChangeFees? then [ops[0].op] else []) + FeeCalls(ops[1..])
  }

  lemma {:induction false} FeesOfRun(s: State, ops: seq<Op>)
    requires Legal(s, ops)
    ensures Run(s, ops).fees == ApplyAll(s.fees, FeeCalls(ops))
    decreases |ops|
  {
    hide Next, Apply;
    if ops != [] {
      StepKeeps(s, ops[0]);
      FeesOfRun(Next(s, ops[0]), ops[1..]);
      if ops[0].ChangeFees? { ApplyFirst(s.fees, ops[0].op, FeeCalls(ops[1..])); }
      else { assert FeeCalls(ops) == FeeCalls(ops[1..]); }
    }
  }

  /** After any run a user pays the percentage that was last set for him and not
      cleared, and otherwise the last one set for all, whatever else happened. */
  lemma UsersPayWhatTheRunSet(users: set<string>, owners: map<string, string>, opening: Balances, ops: seq<Op>,
                              u: string)
    requires Legal(Init(users, owners, opening), ops)
    ensures var s := Run(Init(users, owners, opening), ops);
            && DepositFeeFor(s.fees, u) == DepositPercent(FeeCalls(ops), u)
            && WithdrawalFeeFor(s.fees, u) == WithdrawalPercent(FeeCalls(ops), u)
  {
    hide ApplyAll, DepositFeeFor, WithdrawalFeeFor, Legal, Run;
    FeesOfRun(Init(users, owners, opening), ops);
    UsersPayWhatWasLastSet(FeeCalls(ops), u);
  }

  /** So an immediate withdrawal, after whatever calls, takes its amount and the fee
      at the percentage that those calls have left the user with, or is refused. */
  lemma WithdrawalsPayWhatTheRunSet(users: set<string>, owners: map<string, string>, opening: Balances, ops: seq<Op>,
                                    op: Op)
    requires Legal(Init(users, owners, opening), ops)
    requires op.Withdraw? && op.amount.Some? && Supported(op.currency) && op.userID != "" && !op.async
    requires var s := Run(Init(users, owners, opening), ops);
             Enabled(s, op) && op.userID in s.users && OwnsSome(s, op.userID) && op.userID in s.balances
    ensures var s := Run(Init(users, owners, opening), ops);
            var u, c, amount := op.userID, op.currency, op.amount.value;
            var cost := amount + CalculateFee(amount, WithdrawalPercent(FeeCalls(ops), u));
            var (s', code) := WithdrawCall(s, op);
            if Balance(s.balances, u, c) < cost then s' == s && code == 400
            else code == 200 && Changed(s.balances, s'.balances, u, c, -cost)
  {
    hide Legal, Run, Enabled, OwnsSome, WithdrawCall, CalculateFee, WithdrawalPercent, Changed;
    UsersPayWhatTheRunSet(users, owners, opening, ops, op.userID);
    WithdrawalTakesAmountAndFee(Run(Init(users, owners, opening), ops), op);
  }

  // ----- transactions over runs -----

  /** Later calls change a transaction's status and what it moved, and nothing else
      of it. */
  ghost predicate SameTransaction(s: State, s': State, id: string) {
    && id in s.txs && id in s.origins && id in s'.txs && id in s'.origins
    && s'.origins[id] == s.origins[id]
    && s'.txs[id].(status := s.txs[id].status) == s.txs[id]
  }

  lemma CreateSameTransaction(s: State, op: Op, id: string)
    requires Accounted(s) && op.Create? && Enabled(s, op) && id in s.txs
    ensures SameTransaction(s, CreateCall(s, op).0, id)
  {
    hide Accounted, CompleteTask, CreateCall, CoreTx, TaskOf, OriginOf, DepositTypeOf, Queued;
    IdHasOrigin(s, id);
    CreateAnswer(s, op);
    if CreateCall(s, op).0 != s {
      CreatedIsQueued(s, op);
      QueuedShape(s, op);
      if CompletesItself(DepositTypeOf(op.req)) { CompleteEffect(Queued(s, op), op.txID); }
    }
  }

  lemma IdHasOrigin(s: State, id: string)
    requires Accounted(s) && id in s.txs
    ensures id in s.origins && id in s.moved
  { }

  lemma SettleSameTransaction(s: State, k: string, event: string, id: string)
    requires Accounted(s) && id in s.txs
    ensures SameTransaction(s, SettleCall(s, k, event).0, id)
  {
    hide Accounted, SettleCall, ParseAmount;
    IdHasOrigin(s, id);
    if SettleCall(s, k, event).0 != s { SettleShape(s, k, event); }
  }

  lemma CompleteSameTransaction(s: State, k: string, id: string)
    requires Accounted(s) && k in s.tasks && k in s.txs && k in s.moved && id in s.txs
    ensures SameTransaction(s, CompleteTask(s, k), id)
  {
    hide Accounted, CompleteTask, Meant;
    IdHasOrigin(s, id);
    RunningHasNotMoved(s, k);
    CompleteEffect(s, k);
  }

  lemma WithdrawSameTransaction(s: State, op: Op, id: string)
    requires Accounted(s) && op.Withdraw? && Enabled(s, op) && id in s.txs
    ensures SameTransaction(s, WithdrawCall(s, op).0, id)
  {
    hide Accounted, WithdrawCall, WithdrawalTx;
    IdHasOrigin(s, id);
    if WithdrawCall(s, op).0 != s {
      WithdrawIsValid(s, op);
      WithdrawFiles(s, op);
    }
  }

  lemma StepSameTransaction(s: State, op: Op, id: string)
    requires Accounted(s) && Enabled(s, op) && id in s.txs
    ensures SameTransaction(s, Next(s, op), id)
  {
    hide Accounted, CompleteTask, CreateCall, DepositCall, WithdrawCall, SettleCall;
    IdHasOrigin(s, id);
    match op
    case ChangeFees(_) =>
    case Deposit(_, _, _, _, _) => if DepositCall(s, op).0 != s { DepositLeaves(s, op); }
    case Withdraw(_, _, _, _, _, _) => WithdrawSameTransaction(s, op, id);
    case Create(_, _, _) => CreateSameTransaction(s, op, id);
    case Complete(k) => CompleteSameTransaction(s, k, id);
    case Settle(k, event) => SettleSameTransaction(s, k, event, id);
  }

  lemma {:induction false} RunSameTransaction(s: State, ops: seq<Op>, id: string)
    requires Sound(s) && Legal(s, ops) && id in s.txs
    ensures SameTransaction(s, Run(s, ops), id) && Sound(Run(s, ops))
    decreases |ops|
  {
    hide Books, Accounted, Announced, Next;
    if ops == [] {
      IdHasOrigin(s, id);
    } else {
      StepSameTransaction(s, ops[0], id);
      SoundStep(s, ops[0]);
      RunSameTransaction(Next(s, ops[0]), ops[1..], id);
    }
  }

  lemma {:induction false} OwnersNeverChange(s: State, ops: seq<Op>)
    requires Legal(s, ops)
    ensures forall a :: a in s.owners ==> a in Run(s, ops).owners && Run(s, ops).owners[a] == s.owners[a]
    decreases |ops|
  {
    hide Next;
    if ops != [] {
      StepKeeps(s, ops[0]);
      OwnersNeverChange(Next(s, ops[0]), ops[1..]);
    }
  }

  /** What an accepted core request files. */
  lemma CreatedIsFiled(s: State, op: Op)
    requires Accounted(s) && op.Create? && Enabled(s, op) && Acceptable(s.users, op.req)
    ensures var s', id := Next(s, op), op.txID;
            && id in s'.txs && id in s'.origins
            && s'.origins[id] == OriginOf(s, op.req, op.hasWebhook)
            && s'.txs[id].(status := 1) == CoreTx(s, op.req)
  {
    hide Accounted, CompleteTask, CreateCall, CoreTx, TaskOf, OriginOf, DepositTypeOf, Queued;
    CreatedIsQueued(s, op);
    QueuedShape(s, op);
    CoreTxOf(s, op.req);
    if CompletesItself(DepositTypeOf(op.req)) && !op.hasWebhook { CompleteEffect(Queued(s, op), op.txID); }
  }

  /** The transaction of an accepted core request after any further calls: what was
      captured at its creation, what is written in it, and what it has moved. */
  lemma CreatedOverRun(s: State, op: Op, after: seq<Op>)
    requires Sound(s) && op.Create? && Enabled(s, op) && Acceptable(s.users, op.req) && Legal(Next(s, op), after)
    ensures var s', id := Run(Next(s, op), after), op.txID;
            && id in s'.txs && id in s'.origins && id in s'.moved
            && s'.origins[id] == OriginOf(s, op.req, op.hasWebhook)
            && s'.txs[id].(status := 1) == CoreTx(s, op.req)
            && Meant(s'.origins[id], s'.txs[id], s'.moved[id], id in s'.tasks, id in s'.charges, id in s'.unpaid)
  {
    hide Books, Accounted, Announced, Meant, CoreTx, OriginOf, Next, Run, Legal;
    CreatedIsFiled(s, op);
    SoundStep(s, op);
    RunSameTransaction(Next(s, op), after, op.txID);
    MeantOf(Run(Next(s, op), after), op.txID);
  }

  /** A hosted transfer, whatever is called afterwards: until its goroutine has run
      it has moved nothing. After that it has moved its whole amount in, unless the
      sending address was a wallet of the user's when he asked; then it has moved
      the amount out, or nothing if he could not pay. */
  lemma TransfersGoTheRightWay(s: State, op: Op, after: seq<Op>)
    requires Sound(s) && op.Create? && Enabled(s, op) && Acceptable(s.users, op.req) && Legal(Next(s, op), after)
    requires IsHosted(op.req)
    ensures var s', id, amount := Run(Next(s, op), after), op.txID, op.req.amount;
            && id in s'.txs && id in s'.moved
            && s'.txs[id].userID == op.req.userID && s'.txs[id].sending == op.req.sending
            && s'.txs[id].amount == s'.txs[id].totalAmount == FormatAmount(amount) && s'.txs[id].depositType == "hosted"
            && s'.moved[id] == (if id in s'.tasks then 0.0
                                else if !Sends(s.owners, op.req) then amount
                                else if id in s'.unpaid then 0.0
                                else -amount)
  {
    hide Books, Accounted, Announced, Legal, Run, Next, FormatAmount, TaskOf, DepositTypeOf, CoreTx, FeeOf;
    CreatedOverRun(s, op, after);
    TransferTask(s, op.req, op.hasWebhook);
    KindsOfRequest(op.req);
    CoreTxOf(s, op.req);
  }

  /** A core deposit from outside: nothing until its goroutine has run, and then the
      amount less the fee at the deposit percentage the user paid when he asked. */
  lemma DepositsPayTheFee(s: State, op: Op, after: seq<Op>)
    requires Sound(s) && op.Create? && Enabled(s, op) && Acceptable(s.users, op.req) && Legal(Next(s, op), after)
    requires IsExternal(op.req)
    ensures var s', id, amount := Run(Next(s, op), after), op.txID, op.req.amount;
            var fee := CalculateFee(amount, DepositFeeFor(s.fees, op.req.userID));
            && id in s'.txs && id in s'.moved
            && s'.txs[id].amount == s'.txs[id].totalAmount == FormatAmount(amount)
            && s'.txs[id].fee == FormatAmount(fee) && s'.txs[id].depositType == "external"
            && s'.moved[id] == if id in s'.tasks then 0.0 else amount - fee
  {
    hide Books, Accounted, Announced, Legal, Run, Next, FormatAmount, TaskOf, DepositTypeOf, CoreTx, FeeOf;
    CreatedOverRun(s, op, after);
    DepositTask(s, op.req, op.hasWebhook);
    KindsOfRequest(op.req);
    CoreTxOf(s, op.req);
  }

  /** A withdrawal requested through the core interface: it prints the amount and the
      fee at the withdrawal percentage, and has moved nothing unless it is Completed,
      and then that much to the cent. */
  lemma CoreWithdrawalsPayTheFee(s: State, op: Op, after: seq<Op>)
    requires Sound(s) && op.Create? && Enabled(s, op) && Acceptable(s.users, op.req) && Legal(Next(s, op), after)
    requires op.req.depositType == "withdrawal"
    ensures var s', id, amount := Run(Next(s, op), after), op.txID, op.req.amount;
            var fee := CalculateFee(amount, WithdrawalFeeFor(s.fees, op.req.userID));
            && id in s'.txs && id in s'.moved
            && s'.txs[id].amount == FormatAmount(amount) && s'.txs[id].totalAmount == FormatAmount(amount + fee)
            && s'.txs[id].fee == FormatAmount(fee) && s'.txs[id].depositType == "withdrawal"
            && s'.moved[id] == if s'.txs[id].status == 100 then -Rounded(amount + fee) else 0.0
  {
    hide Books, Accounted, Announced, Legal, Run, Next, FormatAmount, DepositTypeOf, CoreTx, CalculateFee, Rounded;
    CreatedOverRun(s, op, after);
    KindsOfRequest(op.req);
    CoreTxOf(s, op.req);
  }

  // ----- debits leave wallets of their own user -----

  /** Every debit is from an address that belongs to the transaction's user. */
  ghost predicate SenderOwns(s: State) {
    forall id :: id in s.txs && id in s.origins && s.origins[id].Core? && s.origins[id].task.isDebit ==>
      && s.txs[id].sending != "" && s.txs[id].sending in s.owners
      && s.owners[s.txs[id].sending] == s.txs[id].userID
  }

  lemma CreatedSenderOwns(s: State, op: Op)
    requires Accounted(s) && op.Create? && Enabled(s, op) && Acceptable(s.users, op.req)
    ensures var s', id := Next(s, op), op.txID;
            && id in s'.txs && id in s'.origins
            && (s'.origins[id].Core? && s'.origins[id].task.isDebit ==>
                  && s'.txs[id].sending != "" && s'.txs[id].sending in s.owners
                  && s.owners[s'.txs[id].sending] == s'.txs[id].userID)
  {
    hide Accounted, Next, FeeOf, CoreTx, FormatAmount;
    CreatedIsFiled(s, op);
    CoreTxOf(s, op.req);
  }

  /** Only the call's own transaction is new, and only core requests file tasks. */
  lemma NothingElseIsFiled(s: State, op: Op, id: string)
    requires Accounted(s) && Enabled(s, op) && id in Next(s, op).txs && id !in s.txs
    ensures !op.ChangeFees? && !op.Complete? && !op.Settle? && id == op.txID
    ensures op.Create? ==> Acceptable(s.users, op.req)
    ensures !op.Create? ==> id in Next(s, op).origins && !Next(s, op).origins[id].Core?
  {
    hide Accounted, CompleteTask, CreateCall, DepositCall, WithdrawCall, SettleCall, Queued, CoreTx, TaskOf, OriginOf,
         DepositTypeOf, WithdrawalTx;
    match op
    case ChangeFees(_) =>
    case Deposit(_, _, _, _, _) => if DepositCall(s, op).0 != s { DepositLeaves(s, op); }
    case Withdraw(_, _, _, _, _, _) =>
      if WithdrawCall(s, op).0 != s {
        WithdrawIsValid(s, op);
        WithdrawFiles(s, op);
      }
    case Create(_, _, _) =>
      CreateAnswer(s, op);
      CreatedIsQueued(s, op);
      QueuedShape(s, op);
      if CreateCall(s, op).1 == 201 && CompletesItself(DepositTypeOf(op.req)) {
        CompleteEffect(Queued(s, op), op.txID);
      }
    case Complete(k) => RunningHasNotMoved(s, k); CompleteEffect(s, k);
    case Settle(k, event) => if SettleCall(s, k, event).0 != s { SettleShape(s, k, event); }
  }

  lemma SenderOwnsStep(s: State, op: Op)
    requires Accounted(s) && SenderOwns(s) && Enabled(s, op)
    ensures SenderOwns(Next(s, op))
  {
    hide Accounted, Next;
    StepKeeps(s, op);
    var s' := Next(s, op);
    forall id | id in s'.txs && id in s'.origins && s'.origins[id].Core? && s'.origins[id].task.isDebit
      ensures s'.txs[id].sending != "" && s'.txs[id].sending in s'.owners
      ensures s'.owners[s'.txs[id].sending] == s'.txs[id].userID
    {
      if id in s.txs {
        StepSameTransaction(s, op, id);
      } else {
        NothingElseIsFiled(s, op, id);
        CreatedSenderOwns(s, op);
      }
    }
  }

  lemma {:induction false} SenderOwnsRun(s: State, ops: seq<Op>)
    requires Sound(s) && SenderOwns(s) && Legal(s, ops)
    ensures SenderOwns(Run(s, ops))
    decreases |ops|
  {
    hide Books, Accounted, Announced, Next, SenderOwns;
    if ops != [] {
      SenderOwnsStep(s, ops[0]);
      SoundStep(s, ops[0]);
      SenderOwnsRun(Next(s, ops[0]), ops[1..]);
    }
  }

  /** In every reachable state a transaction that debits a balance is a hosted
      transfer from an address that belongs to the same user. */
  lemma DebitsLeaveOwnWallets(users: set<string>, owners: map<string, string>, opening: Balances, ops: seq<Op>,
                              id: string)
    requires Legal(Init(users, owners, opening), ops)
    requires var s := Run(Init(users, owners, opening), ops);
             id in s.txs && id in s.origins && s.origins[id].Core? && s.origins[id].task.isDebit
    ensures var s := Run(Init(users, owners, opening), ops);
            && s.txs[id].depositType == "hosted" && s.txs[id].sending in s.owners
            && s.owners[s.txs[id].sending] == s.txs[id].userID
  {
    hide Books, Announced, Legal, Run;
    InitSound(users, owners, opening);
    SenderOwnsRun(Init(users, owners, opening), ops);
    SoundRun(Init(users, owners, opening), ops);
    MeantOf(Run(Init(users, owners, opening), ops), id);
  }
}
