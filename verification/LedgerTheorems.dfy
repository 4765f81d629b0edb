/** The promises of the ledger over whole runs. */
module LedgerTheorems {
  import opened Wrappers
  import opened Money
  import opened Ledger
  import opened LedgerInvariants
  import opened LedgerSteps
  import opened LedgerAccounts

  // ----- settlement webhooks -----

  lemma AnnouncedFrame(s: State, s': State, more: seq<Webhook>)
    requires Announced(s) && s'.outbox == s.outbox + more
    requires forall i :: 0 <= i < |more| ==> !IsSettlement(more[i])
    requires forall id :: id in s.txs && s.txs[id].depositType == WITHDRAWAL ==> id in s'.txs && s'.txs[id] == s.txs[id]
    ensures Announced(s')
  {
    assert forall i :: 0 <= i < |s'.outbox| && IsSettlement(s'.outbox[i]) ==>
             i < |s.outbox| && s'.outbox[i] == s.outbox[i];
  }

  lemma AnnouncedSilent(s: State, s': State)
    requires Announced(s) && s'.outbox == s.outbox
    requires forall id :: id in s.txs && s.txs[id].depositType == WITHDRAWAL ==> id in s'.txs && s'.txs[id] == s.txs[id]
    ensures Announced(s')
  {
    hide Announced;
    assert s.outbox + [] == s.outbox;
    AnnouncedFrame(s, s', []);
  }

  lemma AnnouncedSettle(s: State, id: string, event: string)
    requires Announced(s)
    ensures Announced(SettleCall(s, id, event).0)
  {
    hide SettleCall, ParseAmount;
    var s' := SettleCall(s, id, event).0;
    if s' != s {
      SettleShape(s, id, event);
      var n := |s.outbox|;
      assert forall i :: 0 <= i < n ==> s'.outbox[i] == s.outbox[i];
      assert forall i :: 0 <= i < n && IsSettlement(s.outbox[i]) ==> s.outbox[i].txID != id;
      assert s'.outbox[n].txID == id && s'.outbox[n].event == event;
    }
  }

  lemma RunningIsNoWithdrawal(task: Task, tx: Tx)
    requires Meant(Core(task), tx, 0.0, true, false, false)
    ensures tx.depositType != WITHDRAWAL
  { }

  /** A goroutine never touches a withdrawal. */
  lemma CompleteLeavesWithdrawals(s: State, id: string)
    requires Accounted(s) && id in s.tasks && id in s.txs && id in s.moved
    ensures var s' := CompleteTask(s, id);
            && (forall k :: k in s.txs && s.txs[k].depositType == WITHDRAWAL ==> k in s'.txs && s'.txs[k] == s.txs[k])
            && (s'.outbox == s.outbox
                || s'.outbox == s.outbox
                   + [Webhook(DEPOSIT_COMPLETED, s.tasks[id].userID, id, FormatAmount(s.tasks[id].amount), "")])
  {
    hide CompleteTask, FormatAmount, Accounted, Meant;
    RunningHasNotMoved(s, id);
    RunningIsNoWithdrawal(s.tasks[id], s.txs[id]);
    CompleteEffect(s, id);
  }

  lemma AnnouncedComplete(s: State, id: string)
    requires Accounted(s) && Announced(s) && id in s.tasks && id in s.txs && id in s.moved
    ensures Announced(CompleteTask(s, id))
  {
    hide Accounted, Announced, FormatAmount, CompleteTask;
    CompleteLeavesWithdrawals(s, id);
    var w := Webhook(DEPOSIT_COMPLETED, s.tasks[id].userID, id, FormatAmount(s.tasks[id].amount), "");
    var s' := CompleteTask(s, id);
    if s'.outbox == s.outbox { AnnouncedSilent(s, s'); }
    else { AnnouncedFrame(s, s', [w]); }
  }

  lemma AnnouncedCreate(s: State, op: Op)
    requires Accounted(s) && Announced(s) && op.Create? && Enabled(s, op)
    ensures Announced(CreateCall(s, op).0)
  {
    hide Accounted, Announced, CreateCall, CompleteTask, TaskOf, OriginOf, DepositTypeOf, CoreTx, CompletesItself;
    if CreateCall(s, op).0 != s {
      CreateOutcome(s, op);
      var task := TaskOf(s, op.req, op.hasWebhook);
      var s1 := Record(s, op.txID, CoreTx(s, op.req), OriginOf(s, op.req, op.hasWebhook));
      AnnouncedSilent(s, s1);
      var s2 := s1.(tasks := s1.tasks[op.txID := task]);
      AnnouncedSilent(s1, s2);
      if CompletesItself(DepositTypeOf(op.req)) {
        QueuedOrigin(s, op);
        AccountedQueued(s, op);
        AnnouncedComplete(s2, op.txID);
      }
    }
  }

  lemma QueuedOrigin(s: State, op: Op)
    requires op.Create? && CompletesItself(DepositTypeOf(op.req))
    ensures OriginOf(s, op.req, op.hasWebhook) == Core(TaskOf(s, op.req, op.hasWebhook))
  { }

  lemma WithdrawIsSilent(s: State, op: Op)
    requires op.Withdraw?
    ensures WithdrawCall(s, op).0.outbox == s.outbox && WithdrawCall(s, op).0.opening == s.opening
  {
    hide FormatAmount, CalculateFee, Move, Add, CanDeduct;
    if WithdrawCall(s, op).0 != s {
      WithdrawIsValid(s, op);
      var total := TotalOf(s, op.userID, op.amount.value);
      RecordThenMove(s, op.txID, WithdrawalTx(s, op), Withdrawal(total, op.async), -total);
    }
  }

  lemma AnnouncedStep(s: State, op: Op)
    requires Accounted(s) && Announced(s) && Enabled(s, op)
    ensures Announced(Next(s, op))
  {
    hide Accounted, Announced, FormatAmount, CalculateFee, CompleteTask, CreateCall, SettleCall,
         DepositCall, WithdrawCall;
    match op
    case ChangeFees(f) => AnnouncedSilent(s, Next(s, op));
    case Deposit(_, _, _, _, _) =>
      var s' := DepositCall(s, op).0;
      if s' != s { DepositLeaves(s, op); AnnouncedFrame(s, s', [s'.outbox[|s.outbox|]]); }
    case Withdraw(_, _, _, _, _, _) =>
      var s' := WithdrawCall(s, op).0;
      if s' != s { WithdrawIsValid(s, op); WithdrawFiles(s, op); WithdrawIsSilent(s, op); AnnouncedSilent(s, s'); }
    case Create(_, _, _) => AnnouncedCreate(s, op);
    case Complete(id) => AnnouncedComplete(s, id);
    case Settle(id, event) => AnnouncedSettle(s, id, event);
  }

  // ----- runs -----

  lemma InitSound(users: set<string>, owners: map<string, string>, opening: Balances)
    ensures Sound(Init(users, owners, opening))
  { }

  lemma SoundStep(s: State, op: Op)
    requires Sound(s) && Enabled(s, op)
    ensures Sound(Next(s, op))
  {
    hide Books, Accounted, Announced, Next;
    BooksStep(s, op);
    AccountedStep(s, op);
    AnnouncedStep(s, op);
  }

  lemma {:induction false} SoundRun(s: State, ops: seq<Op>)
    requires Sound(s) && Legal(s, ops)
    ensures Sound(Run(s, ops))
    decreases |ops|
  {
    hide Sound;
    if ops != [] {
      SoundStep(s, ops[0]);
      SoundRun(Next(s, ops[0]), ops[1..]);
    }
  }

  lemma {:induction false} OpeningKept(s: State, ops: seq<Op>)
    requires Legal(s, ops)
    ensures Run(s, ops).opening == s.opening
    decreases |ops|
  {
    if ops != [] {
      OpeningKeptStep(s, ops[0]);
      OpeningKept(Next(s, ops[0]), ops[1..]);
    }
  }

  lemma OpeningKeptComplete(s: State, id: string)
    requires id in s.tasks && id in s.txs && id in s.moved
    ensures CompleteTask(s, id).opening == s.opening
  {
    hide FormatAmount, Started, Move, CanDeduct;
    var task := s.tasks[id];
    StartedShape(s, id);
    MoveShape(Started(s, id), id, if task.isDebit then -(task.amount - task.fee) else task.amount - task.fee);
  }

  lemma OpeningKeptCreate(s: State, op: Op)
    requires op.Create? && Enabled(s, op)
    ensures CreateCall(s, op).0.opening == s.opening
  {
    hide FormatAmount, CalculateFee, CompleteTask, TaskOf, CoreTx, FeeOf, DepositTypeOf;
    var s1 := Record(s, op.txID, CoreTx(s, op.req), Core(TaskOf(s, op.req, op.hasWebhook)));
    OpeningKeptComplete(s1.(tasks := s1.tasks[op.txID := TaskOf(s, op.req, op.hasWebhook)]), op.txID);
  }

  lemma OpeningKeptSettle(s: State, id: string, event: string)
    ensures SettleCall(s, id, event).0.opening == s.opening
  {
    hide SettleCall;
    if SettleCall(s, id, event).0 != s { SettleShape(s, id, event); }
  }

  lemma OpeningKeptStep(s: State, op: Op)
    requires Enabled(s, op)
    ensures Next(s, op).opening == s.opening
  {
    hide CreateCall, CompleteTask, SettleCall, DepositCall, WithdrawCall;
    match op
    case ChangeFees(_) =>
    case Deposit(_, _, _, _, _) => if DepositCall(s, op).0 != s { DepositLeaves(s, op); }
    case Withdraw(_, _, _, _, _, _) => WithdrawIsSilent(s, op);
    case Create(_, _, _) => OpeningKeptCreate(s, op);
    case Complete(id) => OpeningKeptComplete(s, id);
    case Settle(id, event) => OpeningKeptSettle(s, id, event);
  }

  /** In every reachable state every balance is the opening balance plus what the
      user's transactions moved in that currency, and what each moved is fixed by
      its kind and status: an iframe deposit its full amount, a core deposit its
      amount less the fee once its goroutine has run, a hosted transfer its amount
      in or, if it could be paid, out, and a withdrawal its total, to the cent its
      TotalAmount, exactly while its status is Completed. */
  lemma BalancesAreConserved(users: set<string>, owners: map<string, string>, opening: Balances,
                             ops: seq<Op>, u: string, c: string)
    requires Legal(Init(users, owners, opening), ops)
    ensures var s := Run(Init(users, owners, opening), ops);
            && Balance(s.balances, u, c) == Balance(opening, u, c) + Sum(ListOf(s.byUser, u), s.txs, s.moved, c)
            && s.moved.Keys == s.origins.Keys == s.txs.Keys
            && forall id :: id in s.txs ==>
                 Meant(s.origins[id], s.txs[id], s.moved[id], id in s.tasks, id in s.charges, id in s.unpaid)
  {
    hide Meant, Sum, Balance;
    InitSound(users, owners, opening);
    SoundRun(Init(users, owners, opening), ops);
    OpeningKept(Init(users, owners, opening), ops);
    var s := Run(Init(users, owners, opening), ops);
    assert AddsUp(s, u, c);
  }

  /** A withdrawal of whole cents has moved exactly its printed total when it is
      Completed, and nothing otherwise. */
  lemma WholeCentWithdrawalsMoveTheirTotal(s: State, id: string)
    requires Accounted(s) && id in s.txs && s.txs[id].depositType == WITHDRAWAL
    requires id in s.origins && s.origins[id].Withdrawal? && IsCents(s.origins[id].total)
    ensures id in s.moved && ParseAmount(s.txs[id].totalAmount) == Some(s.origins[id].total)
    ensures s.moved[id] == if s.txs[id].status == COMPLETED then -s.origins[id].total else 0.0
  {
    hide FormatAmount, ParseAmount, Rounded, IsCents;
    MeantOf(s, id);
    ParseOfFormat(s.origins[id].total);
  }

  /** A deferred withdrawal, of any amount, has moved whole cents when it is
      Completed: exactly what its TotalAmount prints. */
  lemma SettledMovesWhatIsPrinted(s: State, id: string)
    requires Accounted(s) && id in s.txs && id in s.origins && id in s.moved
    requires s.origins[id].Withdrawal? && s.origins[id].deferred && s.txs[id].status == COMPLETED
    ensures IsCents(-s.moved[id]) && ParseAmount(s.txs[id].totalAmount) == Some(-s.moved[id])
    ensures s.origins[id].total >= 0.0 ==> FormatAmount(-s.moved[id]) == s.txs[id].totalAmount
  {
    hide FormatAmount, ParseAmount, Rounded, IsCents;
    MeantOf(s, id);
    RoundedIsWholeCents(s.origins[id].total);
    ParseOfFormat(s.origins[id].total);
  }

  // ----- a withdrawal's life -----

  lemma FinalSettle(s: State, k: string, event: string, id: string)
    requires id in s.txs && s.txs[id].depositType == WITHDRAWAL && s.txs[id].status != PENDING
    ensures id in SettleCall(s, k, event).0.txs && SettleCall(s, k, event).0.txs[id] == s.txs[id]
  {
    hide SettleCall, ParseAmount;
    if SettleCall(s, k, event).0 != s { SettleShape(s, k, event); }
  }

  lemma FinalWithdraw(s: State, op: Op, id: string)
    requires op.Withdraw? && Enabled(s, op) && id in s.txs
    ensures id in WithdrawCall(s, op).0.txs && WithdrawCall(s, op).0.txs[id] == s.txs[id]
  {
    hide WithdrawCall, WithdrawalTx;
    if WithdrawCall(s, op).0 != s {
      WithdrawIsValid(s, op);
      WithdrawFiles(s, op);
    }
  }

  lemma FinalStep(s: State, op: Op, id: string)
    requires Accounted(s) && Enabled(s, op)
    requires id in s.txs && s.txs[id].depositType == WITHDRAWAL && s.txs[id].status != PENDING
    ensures id in Next(s, op).txs && Next(s, op).txs[id] == s.txs[id]
  {
    hide Accounted, FormatAmount, CompleteTask, WithdrawCall, CreateCall, SettleCall, DepositCall;
    match op
    case ChangeFees(f) =>
    case Deposit(_, _, _, _, _) => if DepositCall(s, op).0 != s { DepositLeaves(s, op); }
    case Withdraw(_, _, _, _, _, _) => FinalWithdraw(s, op, id);
    case Create(_, _, _) => FinalCreate(s, op, id);
    case Complete(k) => CompleteLeavesWithdrawals(s, k);
    case Settle(k, event) => FinalSettle(s, k, event, id);
  }

  lemma WithdrawIsValid(s: State, op: Op)
    requires op.Withdraw? && WithdrawCall(s, op).0 != s
    ensures op.amount.Some?
  {
    hide FormatAmount, CalculateFee, Add;
  }

  lemma FinalCreate(s: State, op: Op, id: string)
    requires Accounted(s) && op.Create? && Enabled(s, op)
    requires id in s.txs && s.txs[id].depositType == WITHDRAWAL
    ensures id in CreateCall(s, op).0.txs && CreateCall(s, op).0.txs[id] == s.txs[id]
  {
    hide Accounted, FormatAmount, CalculateFee, CompleteTask, TaskOf, CoreTx, FeeOf, DepositTypeOf;
    var req := op.req;
    if req.userID != "" && req.amount > 0.0 && req.currency != "" && req.userID in s.users
      && CompletesItself(DepositTypeOf(req)) {
      AccountedQueued(s, op);
      var task := TaskOf(s, req, op.hasWebhook);
      var s1 := Record(s, op.txID, CoreTx(s, req), Core(task));
      CompleteLeavesWithdrawals(s1.(tasks := s1.tasks[op.txID := task]), op.txID);
    }
  }

  /** Completed and Failed are final: no sequence of calls ever changes a settled
      withdrawal again. */
  lemma {:induction false} SettledForGood(s: State, ops: seq<Op>, id: string)
    requires Sound(s) && Legal(s, ops)
    requires id in s.txs && s.txs[id].depositType == WITHDRAWAL && s.txs[id].status != PENDING
    ensures id in Run(s, ops).txs && Run(s, ops).txs[id] == s.txs[id]
    decreases |ops|
  {
    hide Books, Accounted, Announced, Next;
    if ops != [] {
      FinalStep(s, ops[0], id);
      SoundStep(s, ops[0]);
      SettledForGood(Next(s, ops[0]), ops[1..], id);
    }
  }

  function SettlementsOf(outbox: seq<Webhook>, id: string): seq<Webhook> {
    if outbox == [] then []
    else
      var w := outbox[|outbox| - 1];
      SettlementsOf(outbox[..|outbox| - 1], id) + if IsSettlement(w) && w.txID == id then [w] else []
  }

  lemma {:induction false} NoSettlements(outbox: seq<Webhook>, id: string)
    requires forall i :: 0 <= i < |outbox| && IsSettlement(outbox[i]) ==> outbox[i].txID != id
    ensures SettlementsOf(outbox, id) == []
  {
    if outbox != [] { NoSettlements(outbox[..|outbox| - 1], id); }
  }

  lemma {:induction false} OneSettlement(outbox: seq<Webhook>, id: string)
    requires forall i, j :: 0 <= i < j < |outbox| && IsSettlement(outbox[i]) && IsSettlement(outbox[j]) ==>
               outbox[i].txID != outbox[j].txID
    ensures |SettlementsOf(outbox, id)| <= 1
    ensures forall w :: w in SettlementsOf(outbox, id) ==> w in outbox && IsSettlement(w) && w.txID == id
  {
    if outbox != [] {
      var rest, w := outbox[..|outbox| - 1], outbox[|outbox| - 1];
      if IsSettlement(w) && w.txID == id { NoSettlements(rest, id); }
      else { OneSettlement(rest, id); }
    }
  }

  /** Over any run: a withdrawal is charged at most once, and has been charged
      exactly when its status is Completed; at most one settlement webhook has been
      sent for it, and that one agrees with its status. */
  lemma ChargedOnceAndAnnouncedOnce(users: set<string>, owners: map<string, string>, opening: Balances,
                                    ops: seq<Op>, id: string)
    requires Legal(Init(users, owners, opening), ops)
    requires var s := Run(Init(users, owners, opening), ops); id in s.txs && s.txs[id].depositType == WITHDRAWAL
    ensures var s := Run(Init(users, owners, opening), ops);
            && multiset(s.charges)[id] == (if s.txs[id].status == COMPLETED then 1 else 0)
            && |SettlementsOf(s.outbox, id)| <= 1
            && forall w :: w in SettlementsOf(s.outbox, id) ==>
                 s.txs[id].status == if w.event == WITHDRAWAL_COMPLETED then COMPLETED else FAILED
  {
    hide Books, FormatAmount;
    InitSound(users, owners, opening);
    SoundRun(Init(users, owners, opening), ops);
    var s := Run(Init(users, owners, opening), ops);
    MeantOf(s, id);
    MultiplicityOfDistinct(s.charges, id);
    OneSettlement(s.outbox, id);
  }

  lemma {:induction false} MultiplicityOfDistinct(ids: seq<string>, id: string)
    requires Distinct(ids)
    ensures multiset(ids)[id] == if id in ids then 1 else 0
  {
    if ids != [] {
      MultiplicityOfDistinct(ids[..|ids| - 1], id);
      assert ids == ids[..|ids| - 1] + [ids[|ids| - 1]];
    }
  }

  /** A settlement call succeeds exactly when the event is one of the two, the
      transaction is a pending withdrawal, and a completion can be paid. Otherwise
      the whole state is as it was, and the unparsable-total error never occurs. */
  lemma SettleSucceedsIff(s: State, id: string, event: string)
    requires Accounted(s)
    ensures var (s', code) := SettleCall(s, id, event);
            && (code == 200 <==>
                  && event in {WITHDRAWAL_COMPLETED, WITHDRAWAL_REJECTED}
                  && id in s.txs && s.txs[id].depositType == WITHDRAWAL && s.txs[id].status == PENDING
                  && (event == WITHDRAWAL_COMPLETED ==>
                        id in s.origins && s.origins[id].Withdrawal?
                        && CanDeduct(s.balances, s.txs[id].userID, s.txs[id].currency, Rounded(s.origins[id].total))))
            && (code != 200 ==> s' == s && code in {400, 404, 409})
  {
    hide FormatAmount, ParseAmount, Add, Accounted, Rounded;
    if id in s.txs && s.txs[id].depositType == WITHDRAWAL && s.txs[id].status == PENDING {
      PendingHasNotMoved(s, id);
      ParseOfFormat(s.origins[id].total);
    }
  }
}
