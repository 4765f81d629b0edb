/** The money ledger as a state machine: iframe deposits and withdrawals, core
    transactions with their completion goroutines, and the settlement of pending
    withdrawals, over the in-memory store. One handler call, or one run of a
    completion goroutine, is one step. */
module Ledger {
  import opened Wrappers
  import opened Money
  import opened Fees

  const PENDING := 1
  const COMPLETED := 100
  const FAILED := 3

  const TYPE_WITHDRAWAL := 0
  const TYPE_DEPOSIT := 1

  const EXTERNAL := "external"
  const HOSTED := "hosted"
  const WITHDRAWAL := "withdrawal"

  const DEPOSIT_COMPLETED := "core.deposit.completed"
  const WITHDRAWAL_COMPLETED := "core.withdrawal.completed"
  const WITHDRAWAL_REJECTED := "more-bridge.withdrawal.rejected"

  const CURRENCIES: set<string> := {"XRP", "USD", "EUR", "GBP", "ZAR", "MXN", "SGD", "CAD", "EGG", "PEB", "PKR"}

  datatype Tx = Tx(userID: string, amount: string, totalAmount: string, fee: string, currency: string,
                   kind: int, depositType: string, status: int, sending: string, receiving: string)

  type Balances = map<string, map<string, real>>

  /** What a completion goroutine has captured. */
  datatype Task = Task(userID: string, currency: string, amount: real, fee: real, depositType: string,
                       isDebit: bool, hasWebhook: bool)

  /** A call of SendAsync. */
  datatype Webhook = Webhook(event: string, userID: string, txID: string, amount: string, fees: string)

  /** History: what kind of call created a transaction, with its exact amounts. */
  datatype Origin =
    | Iframe(amount: real)
    | Core(task: Task)
    | Withdrawal(total: real, deferred: bool)
    | Inert

  datatype State = State(
    users: set<string>,
    owners: map<string, string>,
    fees: FeeState,
    balances: Balances,
    txs: map<string, Tx>,
    byUser: map<string, seq<string>>,
    tasks: map<string, Task>,
    outbox: seq<Webhook>,
    // history
    opening: Balances,
    origins: map<string, Origin>,
    moved: map<string, real>,
    charges: seq<string>,
    unpaid: set<string>
  )

  datatype Request = Request(userID: string, amount: real, currency: string, kind: int, depositType: string,
                             sending: string, receiving: string)

  datatype Op =
    | ChangeFees(op: FeeOp)
    | Deposit(txID: string, userID: string, amount: Option<real>, currency: string, wallet: string)
    | Withdraw(txID: string, userID: string, amount: Option<real>, currency: string, wallet: string, async: bool)
    | Create(txID: string, req: Request, hasWebhook: bool)
    | Complete(txID: string)
    | Settle(txID: string, event: string)

  // ----- the store -----

  function Balance(b: Balances, u: string, c: string): real {
    if u in b && c in b[u] then b[u][c] else 0.0
  }

  function Add(b: Balances, u: string, c: string, a: real): (b': Balances)
    ensures Balance(b', u, c) == Balance(b, u, c) + a
    ensures forall v, d :: (v, d) != (u, c) ==> Balance(b', v, d) == Balance(b, v, d)
  {
    b[u := (if u in b then b[u] else map[])[c := Balance(b, u, c) + a]]
  }

  /** DeductBalance refuses a user who never had a balance, whatever the amount. */
  predicate CanDeduct(b: Balances, u: string, c: string, a: real) {
    u in b && Balance(b, u, c) >= a
  }

  function ListOf(byUser: map<string, seq<string>>, u: string): seq<string> {
    if u in byUser then byUser[u] else []
  }

  /** CreateTransaction. */
  function Record(s: State, id: string, tx: Tx, origin: Origin): State {
    s.(txs := s.txs[id := tx],
       byUser := s.byUser[tx.userID := ListOf(s.byUser, tx.userID) + [id]],
       origins := s.origins[id := origin],
       moved := s.moved[id := 0.0])
  }

  /** A balance changes on account of a transaction. */
  function Move(s: State, id: string, a: real): State
    requires id in s.txs && id in s.moved
  {
    s.(balances := Add(s.balances, s.txs[id].userID, s.txs[id].currency, a),
       moved := s.moved[id := s.moved[id] + a])
  }

  function SetStatus(s: State, id: string, status: int): State
    requires id in s.txs
  {
    s.(txs := s.txs[id := s.txs[id].(status := status)])
  }

  // ----- the calls: new state and HTTP status -----

  predicate OwnsSome(s: State, userID: string) { exists a :: a in s.owners && s.owners[a] == userID }

  /** validateTransactionRequest, on a request whose amount has been parsed. */
  predicate ValidRequest(amount: Option<real>, currency: string) {
    amount.Some? && currency in CURRENCIES
  }

  /** A user without a wallet gets one. */
  function WithWallet(s: State, op: Op): State
    requires op.Deposit?
  {
    if OwnsSome(s, op.userID) then s else s.(owners := s.owners[op.wallet := op.userID])
  }

  function DepositTx(s: State, op: Op): Tx
    requires op.Deposit? && op.amount.Some?
  {
    var a := op.amount.value;
    var fee := CalculateFee(a, DepositFeeFor(s.fees, op.userID));
    Tx(op.userID, FormatAmount(a), FormatAmount(a), FormatAmount(fee), op.currency,
       TYPE_DEPOSIT, EXTERNAL, PENDING, "", op.wallet)
  }

  function DepositCall(s: State, op: Op): (State, nat)
    requires op.Deposit?
  {
    if !ValidRequest(op.amount, op.currency) || op.userID == "" then (s, 400)
    else if op.userID !in s.users then (s, 404)
    else if !OwnsSome(s, op.userID) && op.wallet in s.owners then (s, 500)
    else
      var a := op.amount.value;
      var s := Move(Record(WithWallet(s, op), op.txID, DepositTx(s, op), Iframe(a)), op.txID, a);
      (s.(outbox := s.outbox + [Webhook(DEPOSIT_COMPLETED, op.userID, op.txID, FormatAmount(a), "0")]), 200)
  }

  /** What a withdrawal of this amount costs the user. */
  function TotalOf(s: State, userID: string, amount: real): real {
    amount + CalculateFee(amount, WithdrawalFeeFor(s.fees, userID))
  }

  function WithdrawalTx(s: State, op: Op): Tx
    requires op.Withdraw? && op.amount.Some?
  {
    var a := op.amount.value;
    var fee := CalculateFee(a, WithdrawalFeeFor(s.fees, op.userID));
    Tx(op.userID, FormatAmount(a), FormatAmount(a + fee), FormatAmount(fee), op.currency,
       TYPE_WITHDRAWAL, WITHDRAWAL, if op.async then PENDING else COMPLETED, op.wallet, op.wallet)
  }

  /** Charges a withdrawal that is marked completed. */
  function Charge(s: State, id: string, a: real): State
    requires id in s.txs && id in s.moved
  {
    var s := Move(s, id, -a);
    s.(charges := s.charges + [id])
  }

  function WithdrawCall(s: State, op: Op): (State, nat)
    requires op.Withdraw?
  {
    if !ValidRequest(op.amount, op.currency) || op.userID == "" then (s, 400)
    else if op.userID !in s.users then (s, 404)
    else if !OwnsSome(s, op.userID) then (s, 400)
    else
      var total := TotalOf(s, op.userID, op.amount.value);
      if Balance(s.balances, op.userID, op.currency) < total then (s, 400)
      else
        var s := Record(s, op.txID, WithdrawalTx(s, op), Withdrawal(total, op.async));
        if op.async then (s, 200)
        else if CanDeduct(s.balances, op.userID, op.currency, total) then (Charge(s, op.txID, total), 200)
        else (SetStatus(s, op.txID, FAILED), 500)
  }

  function KindOf(req: Request): int { if req.kind == 0 then TYPE_DEPOSIT else req.kind }

  function DepositTypeOf(req: Request): string {
    if req.depositType != "" then req.depositType
    else if KindOf(req) == TYPE_DEPOSIT then EXTERNAL
    else HOSTED
  }

  function FeeOf(s: State, req: Request): real {
    var dt := DepositTypeOf(req);
    CalculateFee(req.amount,
                 if dt == EXTERNAL then DepositFeeFor(s.fees, req.userID)
                 else if dt == WITHDRAWAL then WithdrawalFeeFor(s.fees, req.userID)
                 else 0.0)
  }

  function TaskOf(s: State, req: Request, hasWebhook: bool): Task {
    var dt := DepositTypeOf(req);
    var isDebit := dt == HOSTED && req.sending != "" && req.sending in s.owners && s.owners[req.sending] == req.userID;
    Task(req.userID, req.currency, req.amount, FeeOf(s, req), dt, isDebit, hasWebhook)
  }

  function CoreTx(s: State, req: Request): Tx {
    var dt := DepositTypeOf(req);
    var fee := FeeOf(s, req);
    Tx(req.userID, FormatAmount(req.amount),
       FormatAmount(if dt == WITHDRAWAL then req.amount + fee else req.amount), FormatAmount(fee),
       req.currency, KindOf(req), dt, PENDING, req.sending, req.receiving)
  }

  predicate CompletesItself(depositType: string) { depositType == EXTERNAL || depositType == HOSTED }

  /** What a core transaction is for: one that completes itself, a withdrawal to be
      settled, or neither. */
  function OriginOf(s: State, req: Request, hasWebhook: bool): Origin {
    var dt := DepositTypeOf(req);
    if CompletesItself(dt) then Core(TaskOf(s, req, hasWebhook))
    else if dt == WITHDRAWAL then Withdrawal(req.amount + FeeOf(s, req), true)
    else Inert
  }

  /** The user and the currency are the ones already resolved from headers, wallet
      or vault; empty means that nothing resolved. */
  function CreateCall(s: State, op: Op): (State, nat)
    requires op.Create?
  {
    var req := op.req;
    if req.userID == "" || req.amount <= 0.0 || req.currency == "" then (s, 400)
    else if req.userID !in s.users then (s, 404)
    else
      var task := TaskOf(s, req, op.hasWebhook);
      var s := Record(s, op.txID, CoreTx(s, req), OriginOf(s, req, op.hasWebhook));
      if !CompletesItself(DepositTypeOf(req)) then (s, 201)
      else
        var s := s.(tasks := s.tasks[op.txID := task]);
        if op.hasWebhook then (s, 201) else (CompleteTask(s, op.txID), 201)
  }

  /** The goroutine has begun: it is no longer waiting, and its status is set. */
  function Started(s: State, id: string): State
    requires id in s.tasks && id in s.txs
  {
    var s1 := s.(tasks := s.tasks - {id});
    if s.tasks[id].hasWebhook then SetStatus(s1, id, COMPLETED) else s1
  }

  /** One run of the `complete` closure. Status first, then the balance; a debit
      that cannot be paid leaves the status as it is and sends nothing. */
  function CompleteTask(s: State, id: string): State
    requires id in s.tasks && id in s.txs && id in s.moved
  {
    var task := s.tasks[id];
    var s := Started(s, id);
    var net := task.amount - task.fee;
    if task.isDebit && !CanDeduct(s.balances, s.txs[id].userID, s.txs[id].currency, net)
    then s.(unpaid := s.unpaid + {id})
    else
      var s := Move(s, id, if task.isDebit then -net else net);
      if task.hasWebhook then
        s.(outbox := s.outbox + [Webhook(DEPOSIT_COMPLETED, task.userID, id, FormatAmount(task.amount), "")])
      else s
  }

  function SettleCall(s: State, id: string, event: string): (State, nat) {
    if event != WITHDRAWAL_COMPLETED && event != WITHDRAWAL_REJECTED then (s, 400)
    else if id !in s.txs then (s, 404)
    else if s.txs[id].depositType != WITHDRAWAL then (s, 400)
    else if s.txs[id].status != PENDING then (s, 409)
    else if event == WITHDRAWAL_REJECTED then
      var s := SetStatus(s, id, FAILED);
      (s.(outbox := s.outbox + [Webhook(event, s.txs[id].userID, id, s.txs[id].amount, "")]), 200)
    else
      var total := ParseAmount(s.txs[id].totalAmount);
      if total == None then (s, 500)
      else if !CanDeduct(s.balances, s.txs[id].userID, s.txs[id].currency, total.value) || id !in s.moved then (s, 409)
      else
        var s := SetStatus(Charge(s, id, total.value), id, COMPLETED);
        (s.(outbox := s.outbox + [Webhook(event, s.txs[id].userID, id, s.txs[id].amount, s.txs[id].fee)]), 200)
  }

  /** Transaction ids come from a UUID generator; the wallet of a deposit or
      withdrawal is one of the user's if he has any. A goroutine runs once. */
  predicate Enabled(s: State, op: Op) {
    match op
    case ChangeFees(_) => true
    case Deposit(id, u, _, _, w) => id != "" && id !in s.txs && (OwnsSome(s, u) ==> w in s.owners && s.owners[w] == u)
    case Withdraw(id, u, _, _, w, _) =>
      id != "" && id !in s.txs && (OwnsSome(s, u) ==> w in s.owners && s.owners[w] == u)
    case Create(id, _, _) => id != "" && id !in s.txs
    case Complete(id) => id in s.tasks && id in s.txs && id in s.moved
    case Settle(_, _) => true
  }

  function Answer(s: State, op: Op): (State, nat)
    requires Enabled(s, op)
  {
    match op
    case ChangeFees(f) => (s.(fees := Apply(s.fees, f)), if Accepted(f) then 200 else 400)
    case Deposit(_, _, _, _, _) => DepositCall(s, op)
    case Withdraw(_, _, _, _, _, _) => WithdrawCall(s, op)
    case Create(_, _, _) => CreateCall(s, op)
    case Complete(id) => (CompleteTask(s, id), 0)
    case Settle(id, event) => SettleCall(s, id, event)
  }

  function Next(s: State, op: Op): State
    requires Enabled(s, op)
  {
    Answer(s, op).0
  }

  function Init(users: set<string>, owners: map<string, string>, opening: Balances): State {
    State(users, owners, NEW_FEES, opening, map[], map[], map[], [], opening, map[], map[], [], {})
  }

  ghost predicate Legal(s: State, ops: seq<Op>)
    decreases |ops|
  {
    ops == [] || (Enabled(s, ops[0]) && Legal(Next(s, ops[0]), ops[1..]))
  }

  ghost function Run(s: State, ops: seq<Op>): State
    requires Legal(s, ops)
    decreases |ops|
  {
    if ops == [] then s else Run(Next(s, ops[0]), ops[1..])
  }
}
