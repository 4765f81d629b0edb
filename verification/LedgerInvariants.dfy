/** What every run of the ledger keeps: each transaction is filed once, each has
    moved exactly what its kind and status say, and every balance is the opening
    balance plus what the user's transactions moved. */
module LedgerInvariants {
  import opened Wrappers
  import opened Money
  import opened Ledger

  type Txs = map<string, Tx>
  type Lists = map<string, seq<string>>
  type Moves = map<string, real>

  // ----- calls, field by field -----

  lemma MoveShape(s: State, id: string, a: real)
    requires id in s.txs && id in s.moved
    ensures var s' := Move(s, id, a);
            && s'.moved == s.moved[id := s.moved[id] + a]
            && s'.balances == Add(s.balances, s.txs[id].userID, s.txs[id].currency, a)
            && s'.txs == s.txs && s'.origins == s.origins && s'.byUser == s.byUser && s'.tasks == s.tasks
            && s'.charges == s.charges && s'.unpaid == s.unpaid && s'.outbox == s.outbox
            && s'.opening == s.opening && s'.fees == s.fees
  { }

  lemma ChargeShape(s: State, id: string, a: real)
    requires id in s.txs && id in s.moved
    ensures var s' := Charge(s, id, a);
            && s'.moved == s.moved[id := s.moved[id] + -a]
            && s'.balances == Add(s.balances, s.txs[id].userID, s.txs[id].currency, -a)
            && s'.txs == s.txs && s'.origins == s.origins && s'.byUser == s.byUser && s'.tasks == s.tasks
            && s'.charges == s.charges + [id] && s'.unpaid == s.unpaid && s'.outbox == s.outbox
            && s'.opening == s.opening && s'.fees == s.fees
  {
    hide Move;
    MoveShape(s, id, -a);
  }

  lemma StatusShape(s: State, id: string, status: int)
    requires id in s.txs
    ensures var s' := SetStatus(s, id, status);
            && s'.txs == s.txs[id := s.txs[id].(status := status)]
            && s'.moved == s.moved && s'.balances == s.balances && s'.origins == s.origins
            && s'.byUser == s.byUser && s'.tasks == s.tasks
            && s'.charges == s.charges && s'.unpaid == s.unpaid && s'.outbox == s.outbox
            && s'.opening == s.opening && s'.fees == s.fees
  { }

  lemma TwiceIsOnce<V>(m: map<string, V>, k: string, v: V, w: V)
    ensures m[k := v][k := w] == m[k := w]
  { }

  /** Filing a transaction and moving money on its account, field by field. */
  lemma RecordThenMove(s: State, id: string, tx: Tx, origin: Origin, a: real)
    ensures var s' := Move(Record(s, id, tx, origin), id, a);
            && s'.txs == s.txs[id := tx] && s'.moved == s.moved[id := a] && s'.origins == s.origins[id := origin]
            && s'.balances == Add(s.balances, tx.userID, tx.currency, a)
            && s'.tasks == s.tasks && s'.charges == s.charges && s'.unpaid == s.unpaid && s'.outbox == s.outbox
            && s'.opening == s.opening && s'.fees == s.fees
  {
    hide Add;
    TwiceIsOnce(s.moved, id, 0.0, 0.0 + a);
    assert 0.0 + a == a;
  }

  lemma StartedShape(s: State, id: string)
    requires id in s.tasks && id in s.txs
    ensures var s' := Started(s, id);
            && s'.txs == s.txs[id := if s.tasks[id].hasWebhook then s.txs[id].(status := COMPLETED) else s.txs[id]]
            && s'.tasks == s.tasks - {id} && s'.moved == s.moved && s'.balances == s.balances
            && s'.origins == s.origins && s'.byUser == s.byUser && s'.charges == s.charges && s'.unpaid == s.unpaid
            && s'.outbox == s.outbox && s'.opening == s.opening && s'.fees == s.fees
  { }

  /** A deposit that is not refused. */
  lemma DepositOutcome(s: State, op: Op)
    requires op.Deposit? && DepositCall(s, op).0 != s
    ensures op.amount.Some?
    ensures var a := op.amount.value;
            var s1 := Record(WithWallet(s, op), op.txID, DepositTx(s, op), Iframe(a));
            && op.txID in s1.txs && op.txID in s1.moved
            && var sent := Webhook(DEPOSIT_COMPLETED, op.userID, op.txID, FormatAmount(a), "0");
               DepositCall(s, op).0 == Move(s1, op.txID, a).(outbox := s.outbox + [sent])
  {
    hide FormatAmount, DepositTx, OwnsSome;
    if op.amount.Some? {
      var a := op.amount.value;
      MoveShape(Record(WithWallet(s, op), op.txID, DepositTx(s, op), Iframe(a)), op.txID, a);
    }
  }

  /** A core transaction that is not refused. */
  lemma CreateOutcome(s: State, op: Op)
    requires op.Create? && CreateCall(s, op).0 != s
    ensures op.req.amount > 0.0
    ensures var s1 := Record(s, op.txID, CoreTx(s, op.req), OriginOf(s, op.req, op.hasWebhook));
            var s2 := s1.(tasks := s1.tasks[op.txID := TaskOf(s, op.req, op.hasWebhook)]);
            && op.txID in s2.tasks && op.txID in s2.txs && op.txID in s2.moved
            && CreateCall(s, op).0 == if !CompletesItself(DepositTypeOf(op.req)) then s1
                                      else if op.hasWebhook then s2
                                      else CompleteTask(s2, op.txID)
  {
    hide CoreTx, OriginOf, TaskOf, DepositTypeOf, CompleteTask, CompletesItself;
  }

  /** A settlement that is not refused: what it found, and what it changed. */
  lemma SettleShape(s: State, id: string, event: string)
    requires SettleCall(s, id, event).0 != s
    ensures id in s.txs && s.txs[id].depositType == WITHDRAWAL && s.txs[id].status == PENDING
    ensures event == WITHDRAWAL_COMPLETED || event == WITHDRAWAL_REJECTED
    ensures event == WITHDRAWAL_COMPLETED ==>
              && id in s.moved && ParseAmount(s.txs[id].totalAmount).Some?
              && CanDeduct(s.balances, s.txs[id].userID, s.txs[id].currency, ParseAmount(s.txs[id].totalAmount).value)
    ensures var s', tx, done := SettleCall(s, id, event).0, s.txs[id], event == WITHDRAWAL_COMPLETED;
            && s'.txs == s.txs[id := tx.(status := if done then COMPLETED else FAILED)]
            && s'.outbox == s.outbox + [Webhook(event, tx.userID, id, tx.amount, if done then tx.fee else "")]
            && s'.origins == s.origins && s'.tasks == s.tasks && s'.unpaid == s.unpaid && s'.opening == s.opening
            && s'.fees == s.fees
            && (!done ==> s'.balances == s.balances && s'.moved == s.moved && s'.charges == s.charges)
            && (done ==>
                  var total := ParseAmount(tx.totalAmount).value;
                  && s'.balances == Add(s.balances, tx.userID, tx.currency, -total)
                  && s'.moved == s.moved[id := s.moved[id] + -total] && s'.charges == s.charges + [id])
  {
    hide FormatAmount, ParseAmount, Charge, SetStatus, CanDeduct, Add;
    StatusShape(s, id, FAILED);
    if event == WITHDRAWAL_COMPLETED {
      var total := ParseAmount(s.txs[id].totalAmount).value;
      ChargeShape(s, id, total);
      StatusShape(Charge(s, id, total), id, COMPLETED);
    }
  }

  // ----- conservation -----

  /** What these transactions moved in one currency. */
  function Sum(ids: seq<string>, txs: Txs, moved: Moves, c: string): real {
    if ids == [] then 0.0
    else
      var id := ids[|ids| - 1];
      Sum(ids[..|ids| - 1], txs, moved, c)
      + if id in txs && id in moved && txs[id].currency == c then moved[id] else 0.0
  }

  lemma {:induction false} SumSame(ids: seq<string>, txs: Txs, moved: Moves, txs': Txs, moved': Moves, c: string)
    requires forall i :: 0 <= i < |ids| ==>
               && (ids[i] in txs <==> ids[i] in txs') && (ids[i] in moved <==> ids[i] in moved')
               && (ids[i] in txs && ids[i] in moved ==>
                     txs[ids[i]].currency == txs'[ids[i]].currency && moved[ids[i]] == moved'[ids[i]])
    ensures Sum(ids, txs, moved, c) == Sum(ids, txs', moved', c)
  {
    if ids != [] {
      var rest := ids[..|ids| - 1];
      assert forall i :: 0 <= i < |rest| ==> rest[i] == ids[i];
      SumSame(rest, txs, moved, txs', moved', c);
    }
  }

  /** Changing what one transaction of the list moved changes the sum by as much. */
  lemma {:induction false} SumMove(ids: seq<string>, txs: Txs, moved: Moves, id: string, a: real, c: string)
    requires id in ids && Distinct(ids) && id in txs && id in moved
    ensures Sum(ids, txs, moved[id := moved[id] + a], c)
         == Sum(ids, txs, moved, c) + if txs[id].currency == c then a else 0.0
  {
    var last, rest := ids[|ids| - 1], ids[..|ids| - 1];
    if last == id {
      assert forall i :: 0 <= i < |rest| ==> rest[i] != id;
      SumSame(rest, txs, moved, txs, moved[id := moved[id] + a], c);
    } else {
      assert id in rest;
      SumMove(rest, txs, moved, id, a, c);
    }
  }

  /** Every transaction stands once, in its user's list and no other. */
  ghost predicate Filed(txs: Txs, byUser: Lists) {
    && (forall u :: u in byUser ==>
          && Distinct(byUser[u])
          && forall i :: 0 <= i < |byUser[u]| ==> byUser[u][i] in txs && txs[byUser[u][i]].userID == u)
    && (forall id :: id in txs ==> txs[id].userID in byUser && id in byUser[txs[id].userID])
  }

  predicate AddsUp(s: State, u: string, c: string) {
    Balance(s.balances, u, c) == Balance(s.opening, u, c) + Sum(ListOf(s.byUser, u), s.txs, s.moved, c)
  }

  ghost predicate Conserved(s: State) { forall u, c :: AddsUp(s, u, c) }

  ghost predicate Books(s: State) {
    && s.moved.Keys == s.txs.Keys && s.origins.Keys == s.txs.Keys
    && Filed(s.txs, s.byUser)
    && Conserved(s)
  }

  lemma RecordFiles(s: State, id: string, tx: Tx, origin: Origin)
    requires Books(s) && id !in s.txs
    ensures Filed(Record(s, id, tx, origin).txs, Record(s, id, tx, origin).byUser)
  {
    var s' := Record(s, id, tx, origin);
    forall u | u in s'.byUser
      ensures Distinct(s'.byUser[u])
      ensures forall i :: 0 <= i < |s'.byUser[u]| ==>
                s'.byUser[u][i] in s'.txs && s'.txs[s'.byUser[u][i]].userID == u
    {
      if u == tx.userID { assert id !in ListOf(s.byUser, u); }
    }
    forall k | k in s'.txs ensures s'.txs[k].userID in s'.byUser && k in s'.byUser[s'.txs[k].userID] {
      if k == id { assert s'.byUser[tx.userID][|ListOf(s.byUser, tx.userID)|] == id; }
      else if s.txs[k].userID == tx.userID { assert k in ListOf(s.byUser, tx.userID); }
    }
  }

  lemma RecordBalances(s: State, id: string, tx: Tx, origin: Origin, u: string, c: string)
    requires s.moved.Keys == s.txs.Keys && Filed(s.txs, s.byUser) && id !in s.txs && AddsUp(s, u, c)
    ensures AddsUp(Record(s, id, tx, origin), u, c)
  {
    var s' := Record(s, id, tx, origin);
    var ids := ListOf(s.byUser, u);
    assert forall i :: 0 <= i < |ids| ==> ids[i] in s.txs;
    hide Filed, Sum;
    SumSame(ids, s.txs, s.moved, s'.txs, s'.moved, c);
    if u == tx.userID { SumOneMore(ids, id, s'.txs, s'.moved, c); }
  }

  lemma SumOneMore(ids: seq<string>, id: string, txs: Txs, moved: Moves, c: string)
    ensures Sum(ids + [id], txs, moved, c)
         == Sum(ids, txs, moved, c) + if id in txs && id in moved && txs[id].currency == c then moved[id] else 0.0
  {
    assert (ids + [id])[..|ids|] == ids;
  }

  lemma RecordBooks(s: State, id: string, tx: Tx, origin: Origin)
    requires Books(s) && id !in s.txs
    ensures Books(Record(s, id, tx, origin))
  {
    hide Filed, AddsUp;
    RecordFiles(s, id, tx, origin);
    forall u, c ensures AddsUp(Record(s, id, tx, origin), u, c) {
      assert AddsUp(s, u, c);
      RecordBalances(s, id, tx, origin, u, c);
    }
  }

  lemma MoveBalances(s: State, id: string, a: real, u: string, c: string)
    requires Filed(s.txs, s.byUser) && id in s.txs && id in s.moved && AddsUp(s, u, c)
    ensures AddsUp(Move(s, id, a), u, c)
  {
    hide Sum;
    var ids := ListOf(s.byUser, u);
    if u == s.txs[id].userID {
      assert id in ids && Distinct(ids);
      hide Filed, Distinct;
      SumMove(ids, s.txs, s.moved, id, a, c);
    } else {
      assert forall i :: 0 <= i < |ids| ==> ids[i] != id;
      SumSame(ids, s.txs, s.moved, s.txs, s.moved[id := s.moved[id] + a], c);
    }
  }

  lemma MoveBooks(s: State, id: string, a: real)
    requires Books(s) && id in s.txs && id in s.moved
    ensures Books(Move(s, id, a))
  {
    hide Filed, AddsUp;
    forall u, c ensures AddsUp(Move(s, id, a), u, c) {
      assert AddsUp(s, u, c);
      MoveBalances(s, id, a, u, c);
    }
  }

  lemma StatusBooks(s: State, id: string, status: int)
    requires Books(s) && id in s.txs
    ensures Books(SetStatus(s, id, status))
  {
    var s' := SetStatus(s, id, status);
    forall u, c ensures AddsUp(s', u, c) {
      assert AddsUp(s, u, c);
      SumSame(ListOf(s.byUser, u), s.txs, s.moved, s'.txs, s'.moved, c);
    }
  }

  // ----- what each transaction has moved -----

  /** `running`: its goroutine has not run yet; `charged`: it is in the charge log;
      `unpaid`: its goroutine found too little money. */
  ghost predicate Meant(origin: Origin, tx: Tx, moved: real, running: bool, charged: bool, unpaid: bool) {
    match origin
    case Iframe(a) =>
      && tx.depositType == EXTERNAL && tx.status == PENDING && moved == a && !running && !charged && !unpaid
      && tx.amount == tx.totalAmount == FormatAmount(a)
    case Core(task) =>
      && tx.depositType == task.depositType && CompletesItself(task.depositType) && !charged
      && tx.userID == task.userID && tx.currency == task.currency && tx.amount == FormatAmount(task.amount)
      && task.amount > 0.0 && (task.depositType == HOSTED ==> task.fee == 0.0)
         && (task.isDebit ==> task.depositType == HOSTED)
      && (unpaid ==> task.isDebit && !running)
      && (if running then tx.status == PENDING && moved == 0.0
          else tx.status == (if task.hasWebhook then COMPLETED else PENDING)
               && moved == (if unpaid then 0.0 else if task.isDebit then -task.amount else task.amount - task.fee))
    case Withdrawal(total, deferred) =>
      && tx.depositType == WITHDRAWAL && tx.totalAmount == FormatAmount(total) && !running
      && tx.status in {PENDING, COMPLETED, FAILED} && (tx.status == PENDING ==> deferred) && !unpaid
      && (charged <==> tx.status == COMPLETED)
      && (tx.status != COMPLETED ==> moved == 0.0)
      && (tx.status == COMPLETED ==> moved == -(if deferred then Rounded(total) else total))
    case Inert =>
      && tx.depositType != WITHDRAWAL && !CompletesItself(tx.depositType)
      && tx.status == PENDING && moved == 0.0 && !running && !charged && !unpaid
  }

  ghost predicate AllMeant(s: State) {
    forall id :: id in s.txs ==>
      && id in s.origins && id in s.moved
      && Meant(s.origins[id], s.txs[id], s.moved[id], id in s.tasks, id in s.charges, id in s.unpaid)
  }

  ghost predicate Accounted(s: State) {
    && s.moved.Keys == s.txs.Keys && s.origins.Keys == s.txs.Keys
    && AllMeant(s)
    && (forall id :: id in s.tasks ==> id in s.txs && s.origins[id] == Core(s.tasks[id]))
    && (forall id :: id in s.unpaid ==> id in s.txs)
    && Distinct(s.charges) && (forall i :: 0 <= i < |s.charges| ==> s.charges[i] in s.txs)
  }

  // ----- settlement webhooks -----

  predicate IsSettlement(w: Webhook) { w.event == WITHDRAWAL_COMPLETED || w.event == WITHDRAWAL_REJECTED }

  /** Each settlement webhook matches the withdrawal's status, and there is at most
      one for each. */
  ghost predicate Announced(s: State) {
    && (forall i :: 0 <= i < |s.outbox| && IsSettlement(s.outbox[i]) ==>
          && s.outbox[i].txID in s.txs && s.txs[s.outbox[i].txID].depositType == WITHDRAWAL
          && s.txs[s.outbox[i].txID].userID == s.outbox[i].userID
          && s.txs[s.outbox[i].txID].status
             == (if s.outbox[i].event == WITHDRAWAL_COMPLETED then COMPLETED else FAILED))
    && (forall i, j :: 0 <= i < j < |s.outbox| && IsSettlement(s.outbox[i]) && IsSettlement(s.outbox[j]) ==>
          s.outbox[i].txID != s.outbox[j].txID)
  }

  ghost predicate Sound(s: State) { Books(s) && Accounted(s) && Announced(s) }
}
