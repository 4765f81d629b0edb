/** The two withdrawal modes compared, and the balances that can never be negative. */
module LedgerModes {
  import opened Wrappers
  import opened Money
  import opened Fees
  import opened Ledger
  import opened LedgerInvariants
  import opened LedgerAccounts
  import opened LedgerTheorems

  // ----- immediate and deferred withdrawals -----

  lemma WholeCentsAdd(a: real, b: real)
    requires IsCents(b)
    ensures IsCents(a + b) <==> IsCents(a)
  {
    var n := (b * 100.0).Floor;
    assert (a + b) * 100.0 == a * 100.0 + n as real;
    FloorShift(a * 100.0, n);
  }

  lemma FloorShift(x: real, n: int)
    ensures (x + n as real).Floor == x.Floor + n
  {
    assert x.Floor as real <= x < x.Floor as real + 1.0;
    assert (x.Floor + n) as real == x.Floor as real + n as real;
  }

  lemma TotalWholeIff(s: State, userID: string, amount: real)
    ensures IsCents(TotalOf(s, userID, amount)) <==> IsCents(amount)
  {
    hide IsCents, CalculateFee;
    FeeIsWholeCents(amount, WithdrawalFeeFor(s.fees, userID));
    WholeCentsAdd(amount, CalculateFee(amount, WithdrawalFeeFor(s.fees, userID)));
  }

  /** The state after settling at once, and after requesting and then completing. */
  function Immediate(s: State, op: Op): State
    requires op.Withdraw?
  {
    WithdrawCall(s, op.(async := false)).0
  }

  function Deferred(s: State, op: Op): State
    requires op.Withdraw?
  {
    SettleCall(WithdrawCall(s, op.(async := true)).0, op.txID, WITHDRAWAL_COMPLETED).0
  }

  ghost predicate Payable(s: State, op: Op) {
    && op.Withdraw? && Enabled(s, op) && ValidRequest(op.amount, op.currency) && op.userID in s.users && op.userID != ""
    && OwnsSome(s, op.userID)
    && CanDeduct(s.balances, op.userID, op.currency, TotalOf(s, op.userID, op.amount.value))
  }

  lemma ImmediateIs(s: State, op: Op)
    requires Payable(s, op)
    ensures var total := TotalOf(s, op.userID, op.amount.value);
            && Immediate(s, op).balances == Add(s.balances, op.userID, op.currency, -total)
            && Immediate(s, op).txs == s.txs[op.txID := WithdrawalTx(s, op.(async := false))]
  {
    hide TotalOf, CalculateFee, FormatAmount, Add;
  }

  lemma DeferredIs(s: State, op: Op)
    requires Payable(s, op)
    ensures var total := TotalOf(s, op.userID, op.amount.value);
            var tx := WithdrawalTx(s, op.(async := true));
            var paid := CanDeduct(s.balances, op.userID, op.currency, Rounded(total));
            && Deferred(s, op).balances
               == (if paid then Add(s.balances, op.userID, op.currency, -Rounded(total)) else s.balances)
            && Deferred(s, op).txs == s.txs[op.txID := if paid then tx.(status := COMPLETED) else tx]
  {
    hide CalculateFee, FormatAmount, ParseAmount, Rounded, Add;
    var total := TotalOf(s, op.userID, op.amount.value);
    var tx := WithdrawalTx(s, op.(async := true));
    var s1 := Record(s, op.txID, tx, Withdrawal(total, true));
    ParseOfFormat(total);
    assert WithdrawCall(s, op.(async := true)).0 == s1;
    assert s1.txs[op.txID] == tx && tx.totalAmount == FormatAmount(total);
    TwiceIsOnce(s.txs, op.txID, tx, tx.(status := COMPLETED));
  }

  /** For every payable withdrawal, of a negative amount as well: requesting it and
      then completing it leaves the same balances and the same record as settling it
      at once, if and only if the amount is a whole number of cents. */
  lemma ModesAgreeIffWholeCents(s: State, op: Op)
    requires Payable(s, op)
    ensures (Immediate(s, op).balances == Deferred(s, op).balances && Immediate(s, op).txs == Deferred(s, op).txs)
       <==> IsCents(op.amount.value)
  {
    hide IsCents, Rounded, Immediate, Deferred, CalculateFee, FormatAmount;
    var u, c := op.userID, op.currency;
    var total := TotalOf(s, u, op.amount.value);
    ImmediateIs(s, op);
    DeferredIs(s, op);
    TotalWholeIff(s, u, op.amount.value);
    ParseOfFormat(total);
    if IsCents(op.amount.value) {
      assert Rounded(total) == total;
    } else {
      NothingIsWholeCents();
      assert Rounded(total) != total && total != 0.0;
      assert Balance(Immediate(s, op).balances, u, c) == Balance(s.balances, u, c) - total;
      assert Balance(Deferred(s, op).balances, u, c) != Balance(Immediate(s, op).balances, u, c);
    }
  }

  lemma NothingIsWholeCents()
    ensures IsCents(0.0)
  { }

  /** The iframe checks only that an amount parses: a withdrawal of -5 is accepted and
      pays its user 5. */
  lemma NegativeWithdrawalPays()
    ensures var s := Init({"u"}, map["w" := "u"], map["u" := map["USD" := 1.0]]);
            var op := Withdraw("t", "u", Some(-5.0), "USD", "w", false);
            Enabled(s, op) && WithdrawCall(s, op).1 == 200 && Balance(WithdrawCall(s, op).0.balances, "u", "USD") == 6.0
  {
    hide FormatAmount;
    var s := Init({"u"}, map["w" := "u"], map["u" := map["USD" := 1.0]]);
    assert s.owners["w"] == "u";
    assert OwnsSome(s, "u");
    assert TotalOf(s, "u", -5.0) == -5.0;
  }

  // ----- exactly when a balance becomes negative -----

  ghost predicate NonNegative(b: Balances) { forall u, c :: Balance(b, u, c) >= 0.0 }

  lemma AddStaysNonNegative(b: Balances, u: string, c: string, a: real)
    requires NonNegative(b) && Balance(b, u, c) + a >= 0.0
    ensures NonNegative(Add(b, u, c, a))
  {
    forall v, d ensures Balance(Add(b, u, c, a), v, d) >= 0.0 {
      if (v, d) != (u, c) { assert Balance(b, v, d) >= 0.0; }
    }
  }

  lemma CompleteBalances(s: State, id: string)
    requires id in s.tasks && id in s.txs && id in s.moved
    ensures var task, s' := s.tasks[id], CompleteTask(s, id);
            var u, c, net := s.txs[id].userID, s.txs[id].currency, task.amount - task.fee;
            && s'.fees == s.fees && s'.tasks == s.tasks - {id}
            && (s'.balances == Add(s.balances, u, c, if task.isDebit then -net else net)
                || (task.isDebit && s'.balances == s.balances))
            && (task.isDebit && s'.balances != s.balances ==> CanDeduct(s.balances, u, c, net))
  {
    hide FormatAmount, Started, Move, Add;
    var task := s.tasks[id];
    StartedShape(s, id);
    MoveShape(Started(s, id), id, if task.isDebit then -(task.amount - task.fee) else task.amount - task.fee);
  }

  lemma WithdrawBalances(s: State, op: Op)
    requires op.Withdraw? && op.amount.Some? && WithdrawCall(s, op).0 != s
    ensures var s' := WithdrawCall(s, op).0;
            var total := TotalOf(s, op.userID, op.amount.value);
            && s'.fees == s.fees && s'.tasks == s.tasks
            && (s'.balances == s.balances
                || (CanDeduct(s.balances, op.userID, op.currency, total)
                    && s'.balances == Add(s.balances, op.userID, op.currency, -total)))
  {
    hide WithdrawCall, TotalOf, FormatAmount, CalculateFee, Move, Add, CanDeduct;
    WithdrawOutcome(s, op);
    var total := TotalOf(s, op.userID, op.amount.value);
    RecordThenMove(s, op.txID, WithdrawalTx(s, op), Withdrawal(total, op.async), -total);
  }

  /** The guards of ProcessDeposit. */
  predicate Receives(s: State, op: Op)
    requires op.Deposit?
  {
    && ValidRequest(op.amount, op.currency) && op.userID != "" && op.userID in s.users
    && (OwnsSome(s, op.userID) || op.wallet !in s.owners)
  }

  /** The guards of CreateTransaction. */
  predicate Creates(s: State, req: Request) {
    req.userID != "" && req.amount > 0.0 && req.currency != "" && req.userID in s.users
  }

  /** A call that credits without a check does not take away more than there is. */
  predicate Covered(s: State, op: Op)
    requires Enabled(s, op)
  {
    match op
    case Deposit(_, u, amount, c, _) => Receives(s, op) ==> Balance(s.balances, u, c) + amount.value >= 0.0
    case Create(_, req, hasWebhook) =>
      Creates(s, req) && CompletesItself(DepositTypeOf(req)) && !hasWebhook && !TaskOf(s, req, hasWebhook).isDebit
      ==> Balance(s.balances, req.userID, req.currency) + req.amount - FeeOf(s, req) >= 0.0
    case Complete(id) =>
      !s.tasks[id].isDebit ==>
        Balance(s.balances, s.txs[id].userID, s.txs[id].currency) + s.tasks[id].amount - s.tasks[id].fee >= 0.0
    case _ => true
  }

  lemma AddIff(b: Balances, u: string, c: string, a: real)
    requires NonNegative(b)
    ensures NonNegative(Add(b, u, c, a)) <==> Balance(b, u, c) + a >= 0.0
  {
    hide Add, Balance;
    if Balance(b, u, c) + a >= 0.0 { AddStaysNonNegative(b, u, c, a); }
    else { assert Balance(Add(b, u, c, a), u, c) < 0.0; }
  }

  lemma CompleteIff(s: State, id: string)
    requires NonNegative(s.balances) && id in s.tasks && id in s.txs && id in s.moved
    ensures NonNegative(CompleteTask(s, id).balances)
       <==> (s.tasks[id].isDebit
             || Balance(s.balances, s.txs[id].userID, s.txs[id].currency) + s.tasks[id].amount - s.tasks[id].fee >= 0.0)
  {
    hide CompleteTask, Add, Balance, NonNegative;
    var task := s.tasks[id];
    CompleteBalances(s, id);
    var net := task.amount - task.fee;
    AddIff(s.balances, s.txs[id].userID, s.txs[id].currency, if task.isDebit then -net else net);
  }

  lemma DepositReceives(s: State, op: Op)
    requires op.Deposit?
    ensures if Receives(s, op) then |DepositCall(s, op).0.outbox| == |s.outbox| + 1 else DepositCall(s, op).0 == s
  {
    hide FormatAmount, CalculateFee, Add;
  }

  lemma DepositIff(s: State, op: Op)
    requires NonNegative(s.balances) && op.Deposit? && Enabled(s, op)
    ensures NonNegative(DepositCall(s, op).0.balances) <==> Covered(s, op)
  {
    hide DepositCall, NonNegative, Balance, Add;
    DepositReceives(s, op);
    if DepositCall(s, op).0 != s {
      DepositLeaves(s, op);
      AddIff(s.balances, op.userID, op.currency, op.amount.value);
    }
  }

  lemma CreateIff(s: State, op: Op)
    requires NonNegative(s.balances) && op.Create? && Enabled(s, op)
    ensures NonNegative(CreateCall(s, op).0.balances) <==> Covered(s, op)
  {
    hide NonNegative, Balance, CompleteTask, FeeOf, DepositTypeOf, CompletesItself;
    var req := op.req;
    var task := TaskOf(s, req, op.hasWebhook);
    var s1 := Record(s, op.txID, CoreTx(s, req), Core(task));
    CompleteIff(s1.(tasks := s1.tasks[op.txID := task]), op.txID);
  }

  lemma WithdrawStaysNonNegative(s: State, op: Op)
    requires NonNegative(s.balances) && op.Withdraw? && Enabled(s, op)
    ensures NonNegative(WithdrawCall(s, op).0.balances)
  {
    hide WithdrawCall, Balance, TotalOf, Add, NonNegative;
    if WithdrawCall(s, op).0 != s {
      WithdrawIsValid(s, op);
      WithdrawBalances(s, op);
      AddIff(s.balances, op.userID, op.currency, -TotalOf(s, op.userID, op.amount.value));
    }
  }

  lemma SettleBalances(s: State, id: string, event: string)
    ensures SettleCall(s, id, event).0.fees == s.fees && SettleCall(s, id, event).0.tasks == s.tasks
    ensures var s' := SettleCall(s, id, event).0;
            s'.balances == s.balances
            || (id in s.txs && ParseAmount(s.txs[id].totalAmount).Some?
                && var u, c, total := s.txs[id].userID, s.txs[id].currency, ParseAmount(s.txs[id].totalAmount).value;
                   CanDeduct(s.balances, u, c, total) && s'.balances == Add(s.balances, u, c, -total))
  {
    hide SettleCall, ParseAmount, CanDeduct, Add;
    if SettleCall(s, id, event).0 != s { SettleShape(s, id, event); }
  }

  lemma SettleStaysNonNegative(s: State, id: string, event: string)
    requires NonNegative(s.balances)
    ensures NonNegative(SettleCall(s, id, event).0.balances)
  {
    hide SettleCall, ParseAmount, Balance, Add, NonNegative;
    SettleBalances(s, id, event);
    if SettleCall(s, id, event).0.balances != s.balances {
      AddIff(s.balances, s.txs[id].userID, s.txs[id].currency, -ParseAmount(s.txs[id].totalAmount).value);
    }
  }

  lemma StepNonNegativeIff(s: State, op: Op)
    requires NonNegative(s.balances) && Enabled(s, op)
    ensures NonNegative(Next(s, op).balances) <==> Covered(s, op)
  {
    hide NonNegative, Balance, CompleteTask, CreateCall, WithdrawCall, SettleCall, DepositCall, TaskOf,
         FeeOf, DepositTypeOf;
    match op
    case ChangeFees(_) =>
    case Deposit(_, _, _, _, _) => DepositIff(s, op);
    case Withdraw(_, _, _, _, _, _) => WithdrawStaysNonNegative(s, op);
    case Create(_, _, _) => CreateIff(s, op);
    case Complete(id) => CompleteIff(s, id);
    case Settle(id, event) => SettleStaysNonNegative(s, id, event);
  }

  ghost predicate AlwaysNonNegative(s: State, ops: seq<Op>)
    requires Legal(s, ops)
    decreases |ops|
  {
    NonNegative(s.balances) && (ops == [] || AlwaysNonNegative(Next(s, ops[0]), ops[1..]))
  }

  ghost predicate AllCovered(s: State, ops: seq<Op>)
    requires Legal(s, ops)
    decreases |ops|
  {
    ops == [] || (Covered(s, ops[0]) && AllCovered(Next(s, ops[0]), ops[1..]))
  }

  /** For all calls whatsoever: no balance is negative at any moment of a run if and
      only if every credit that is made without a check is covered. Withdrawals,
      settlements and debits never make one negative. */
  lemma {:induction false} NeverNegativeIff(s: State, ops: seq<Op>)
    requires NonNegative(s.balances) && Legal(s, ops)
    ensures AlwaysNonNegative(s, ops) <==> AllCovered(s, ops)
    decreases |ops|
  {
    hide NonNegative, Next, Covered;
    if ops != [] {
      StepNonNegativeIff(s, ops[0]);
      if NonNegative(Next(s, ops[0]).balances) { NeverNegativeIff(Next(s, ops[0]), ops[1..]); }
      else { AlreadyNegative(Next(s, ops[0]), ops[1..]); }
    }
  }

  lemma AlreadyNegative(s: State, ops: seq<Op>)
    requires Legal(s, ops) && !NonNegative(s.balances)
    ensures !AlwaysNonNegative(s, ops)
  { }

  /** The iframe checks only that an amount parses: a deposit of -1 by a user without
      money is accepted. */
  lemma NegativeDepositOverdraws()
    ensures var s := Init({"u"}, map["w" := "u"], map[]);
            var op := Deposit("t", "u", Some(-1.0), "USD", "w");
            Enabled(s, op) && DepositCall(s, op).1 == 200 && Balance(DepositCall(s, op).0.balances, "u", "USD") == -1.0
  {
    hide FormatAmount, CalculateFee;
    var s := Init({"u"}, map["w" := "u"], map[]);
    assert s.owners["w"] == "u";
    assert OwnsSome(s, "u");
  }

  // ----- calls that keep every balance from becoming negative -----

  /** Deposits are not negative, and external core deposits have less than half a
      cent beyond whole cents (so that no fee exceeds them). Withdrawals and hosted
      transfers are not restricted. */
  predicate Sane(op: Op) {
    && (op.Deposit? && op.amount.Some? ==> op.amount.value >= 0.0)
    && (op.Create? && DepositTypeOf(op.req) == EXTERNAL ==> FeeSafe(op.req.amount))
  }

  /** No goroutine waits with a negative credit. */
  ghost predicate TasksCredit(tasks: map<string, Task>) {
    forall id :: id in tasks && !tasks[id].isDebit ==> tasks[id].amount - tasks[id].fee >= 0.0
  }

  /** Fees in range, and no goroutine waiting with a negative credit. */
  ghost predicate Solvent(s: State) {
    NonNegative(s.balances) && InRange(s.fees) && TasksCredit(s.tasks)
  }

  lemma NetIsNonNegative(s: State, req: Request)
    requires InRange(s.fees) && req.amount > 0.0 && CompletesItself(DepositTypeOf(req))
    requires DepositTypeOf(req) == EXTERNAL ==> FeeSafe(req.amount)
    ensures req.amount - FeeOf(s, req) >= 0.0
  {
    hide CalculateFee, FeeSafe, DepositTypeOf;
    if DepositTypeOf(req) == EXTERNAL {
      ApplyKeepsRange(s.fees, SetFees(-1.0, 0.0));
      assert Percent(DepositFeeFor(s.fees, req.userID));
      FeeWithinAmount(req.amount, DepositFeeFor(s.fees, req.userID));
    } else {
      FreeOfCharge(req.amount);
    }
  }

  lemma SaneIsCovered(s: State, op: Op)
    requires Solvent(s) && Enabled(s, op) && Sane(op)
    ensures Covered(s, op)
  {
    hide CreateCall, DepositCall, CompleteTask, TaskOf, FeeOf, DepositTypeOf, FeeSafe, InRange, Balance;
    assert forall u, c :: Balance(s.balances, u, c) >= 0.0;
    if op.Create? && Creates(s, op.req) && CompletesItself(DepositTypeOf(op.req)) { NetIsNonNegative(s, op.req); }
  }

  lemma CreateTasksCredit(s: State, op: Op)
    requires TasksCredit(s.tasks) && InRange(s.fees) && op.Create? && Enabled(s, op) && Sane(op)
    ensures TasksCredit(CreateCall(s, op).0.tasks) && CreateCall(s, op).0.fees == s.fees
  {
    hide CreateCall, CompleteTask, FeeOf, DepositTypeOf, FeeSafe, CoreTx, OriginOf, InRange;
    if CreateCall(s, op).0 != s {
      CreateOutcome(s, op);
      if CompletesItself(DepositTypeOf(op.req)) {
        NetIsNonNegative(s, op.req);
        var s1 := Record(s, op.txID, CoreTx(s, op.req), OriginOf(s, op.req, op.hasWebhook));
        CompleteBalances(s1.(tasks := s1.tasks[op.txID := TaskOf(s, op.req, op.hasWebhook)]), op.txID);
      }
    }
  }

  lemma SolventStep(s: State, op: Op)
    requires Solvent(s) && Enabled(s, op) && Sane(op)
    ensures Solvent(Next(s, op))
  {
    SaneIsCovered(s, op);
    StepNonNegativeIff(s, op);
    hide NonNegative, InRange, Covered, Sane, TasksCredit, CompleteTask, CreateCall, WithdrawCall,
         SettleCall, DepositCall;
    match op
    case ChangeFees(f) => ApplyKeepsRange(s.fees, f);
    case Deposit(_, _, _, _, _) => if DepositCall(s, op).0 != s { DepositLeaves(s, op); }
    case Withdraw(_, _, _, _, _, _) =>
      if WithdrawCall(s, op).0 != s {
        WithdrawIsValid(s, op);
        WithdrawBalances(s, op);
      }
    case Create(_, _, _) => CreateTasksCredit(s, op);
    case Complete(id) => CompleteBalances(s, id); FewerTasksCredit(s.tasks, id);
    case Settle(id, event) => SettleBalances(s, id, event);
  }

  lemma FewerTasksCredit(tasks: map<string, Task>, id: string)
    requires TasksCredit(tasks)
    ensures TasksCredit(tasks - {id})
  { }

  /** A call refused in every state, for what it says itself. */
  predicate RefusedAnywhere(op: Op) {
    match op
    case Deposit(id, u, amount, c, _) => id == "" || u == "" || !ValidRequest(amount, c)
    case Create(id, req, _) => id == "" || req.userID == "" || req.amount <= 0.0 || req.currency == ""
    case _ => false
  }

  /** A state of one user with no money, where a deposit costs all that it brings. */
  function Poor(user: string, wallet: string): State {
    Init({user}, map[wallet := user], map[]).(fees := FeeState(100.0, 0.0, map[]))
  }

  lemma PoorIsSolvent(u: string, w: string)
    ensures Solvent(Poor(u, w)) && OwnsSome(Poor(u, w), u) && DepositFeeFor(Poor(u, w).fees, u) == 100.0
  {
    assert Poor(u, w).owners[w] == u;
  }

  lemma NegativeDepositBreaks(op: Op)
    requires op.Deposit? && !Sane(op) && !RefusedAnywhere(op)
    ensures var s := Poor(op.userID, op.wallet); Enabled(s, op) && !Solvent(Next(s, op))
  {
    hide DepositCall, NonNegative, InRange, TasksCredit;
    var s := Poor(op.userID, op.wallet);
    PoorIsSolvent(op.userID, op.wallet);
    StepNonNegativeIff(s, op);
  }

  lemma UnsafeCreateBreaks(op: Op)
    requires op.Create? && !Sane(op) && !RefusedAnywhere(op)
    ensures var s := Poor(op.req.userID, ""); Enabled(s, op) && !Solvent(Next(s, op))
  {
    hide CreateCall, CompleteTask, NonNegative, InRange, CoreTx, FeeSafe, DepositTypeOf, CalculateFee;
    var s := Poor(op.req.userID, "");
    PoorIsSolvent(op.req.userID, "");
    FullFeeWithinIff(op.req.amount);
    assert op.req.amount - FeeOf(s, op.req) < 0.0;
    if op.hasWebhook {
      CreateWaits(s, op);
      assert s.tasks[op.txID := TaskOf(s, op.req, true)][op.txID].amount == op.req.amount;
    } else {
      StepNonNegativeIff(s, op);
    }
  }

  lemma CreateWaits(s: State, op: Op)
    requires op.Create? && Creates(s, op.req) && CompletesItself(DepositTypeOf(op.req)) && op.hasWebhook
    ensures CreateCall(s, op).0.tasks == s.tasks[op.txID := TaskOf(s, op.req, true)]
  {
    hide CompleteTask, CoreTx, DepositTypeOf, TaskOf, OriginOf;
  }

  lemma RefusedChangesNothing(s: State, op: Op)
    requires Enabled(s, op) && RefusedAnywhere(op)
    ensures Next(s, op) == s
  {
    hide Add, CoreTx, TaskOf, OriginOf, CompleteTask;
  }

  /** The condition on the call alone is exact: a call keeps every solvent state
      solvent if and only if it is sane or is refused everywhere. */
  lemma KeepsSolventIff(op: Op)
    ensures (forall s :: Solvent(s) && Enabled(s, op) ==> Solvent(Next(s, op))) <==> Sane(op) || RefusedAnywhere(op)
  {
    hide Solvent, Next, Sane, RefusedAnywhere, Enabled, Poor;
    forall s | Solvent(s) && Enabled(s, op) && (Sane(op) || RefusedAnywhere(op)) ensures Solvent(Next(s, op)) {
      if Sane(op) { SolventStep(s, op); } else { RefusedChangesNothing(s, op); }
    }
    if !Sane(op) && !RefusedAnywhere(op) {
      OnlyCreditsAreNotSane(op);
      if op.Deposit? {
        PoorIsSolvent(op.userID, op.wallet);
        NegativeDepositBreaks(op);
      } else {
        PoorIsSolvent(op.req.userID, "");
        UnsafeCreateBreaks(op);
      }
    }
  }

  lemma OnlyCreditsAreNotSane(op: Op)
    requires !Sane(op)
    ensures op.Deposit? || op.Create?
  { }

  /** No run of sane calls makes a balance negative, and every effective fee
      percentage stays between 0 and 100. */
  lemma {:induction false} NeverNegative(s: State, ops: seq<Op>)
    requires Solvent(s) && Legal(s, ops) && forall i :: 0 <= i < |ops| ==> Sane(ops[i])
    ensures Solvent(Run(s, ops))
    decreases |ops|
  {
    hide Solvent, Next, Sane;
    if ops != [] {
      SolventStep(s, ops[0]);
      NeverNegative(Next(s, ops[0]), ops[1..]);
    }
  }

  /** Whole cents are sane. */
  predicate InWholeCents(op: Op) {
    && (op.Deposit? && op.amount.Some? ==> op.amount.value >= 0.0)
    && (op.Create? && DepositTypeOf(op.req) == EXTERNAL ==> IsCents(op.req.amount))
  }

  lemma NeverNegativeInWholeCents(s: State, ops: seq<Op>)
    requires Solvent(s) && Legal(s, ops) && forall i :: 0 <= i < |ops| ==> InWholeCents(ops[i])
    ensures Solvent(Run(s, ops))
  {
    hide Solvent, Legal, Run, IsCents, FeeSafe, DepositTypeOf;
    forall i | 0 <= i < |ops| ensures Sane(ops[i]) {
      assert InWholeCents(ops[i]);
      if ops[i].Create? && DepositTypeOf(ops[i].req) == EXTERNAL { WholeCentsAreFeeSafe(ops[i].req.amount); }
    }
    NeverNegative(s, ops);
  }

  /** The error branch of an immediate withdrawal, taken after the balance check has
      passed, is reached exactly for a user without any balance and a total that is
      not positive: never for a positive amount. */
  lemma DeductFailsIff(s: State, op: Op)
    requires op.Withdraw? && Enabled(s, op)
    ensures WithdrawCall(s, op).1 == 500 <==>
            && !op.async && ValidRequest(op.amount, op.currency) && op.userID != "" && op.userID in s.users
            && OwnsSome(s, op.userID) && op.userID !in s.balances && TotalOf(s, op.userID, op.amount.value) <= 0.0
    ensures WithdrawCall(s, op).1 == 500 && InRange(s.fees) ==> op.amount.value <= 0.0
  {
    hide FormatAmount, CalculateFee, InRange;
    if op.amount.Some? && op.amount.value > 0.0 && InRange(s.fees) {
      ApplyKeepsRange(s.fees, SetFees(-1.0, 0.0));
      var p := WithdrawalFeeFor(s.fees, op.userID);
      assert Percent(p);
      FeeMonotone(op.amount.value, op.amount.value, p, p);
    }
  }
}
