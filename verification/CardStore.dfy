/** The store of card transactions: typed records, verbatim payloads, the per-card
    index and the sequence counter, kept in step. */
module CardStore {
  import opened Wrappers
  import opened Decimal
  import opened WebhookJob
  import opened CardTransactions

  datatype Store = Store(typed: map<string, Members>, raw: map<string, Members>, byCard: map<string, seq<string>>,
                         seqID: nat)

  datatype Op =
    | Simulate(sim: Simulation, keys: seq<string>)
    | Insert(txID: string, cardID: string, cardNumber: nat, createdAt: string)
    | SetStatus(id: string, status: string)

  const EMPTY := Store(map[], map[], map[], 0)

  const STATUSES: set<string> := {"PROCESSING", "COMPLETED", "REVERSED", "DECLINED"}

  function ListOf(byCard: map<string, seq<string>>, card: string): seq<string> {
    if card in byCard then byCard[card] else []
  }

  /** AddCardTransactionIndex ignores an empty card id. */
  function Index(byCard: map<string, seq<string>>, card: string, txID: string): map<string, seq<string>> {
    if card == "" || txID == "" then byCard else byCard[card := ListOf(byCard, card) + [txID]]
  }

  function IdOf(record: Members): string {
    if TRANSACTION_ID in record && record[TRANSACTION_ID].Text? then record[TRANSACTION_ID].s else ""
  }

  /** simulateCardTransaction once user, card, scenario and event are accepted. The
      typed record is filed under its own id, the payload under the generated one. */
  function SimulateCall(s: Store, sim: Simulation, keys: seq<string>): (Store, nat)
    requires MarshalOrder(keys, FieldsOf(sim, s.seqID + 1))
  {
    var m := FieldsOf(sim, s.seqID + 1);
    var s := s.(seqID := s.seqID + 1);
    var record := Decode(keys, m);
    if record == None then (s, 500)
    else
      var id := IdOf(record.value);
      if id == "" || id in s.typed then (s, 500)
      else (s.(typed := s.typed[id := record.value], raw := s.raw[sim.txID := m],
               byCard := Index(s.byCard, sim.cardID, sim.txID)), 201)
  }

  function TypedRecord(seqID: nat, txID: string, cardNumber: nat, createdAt: string): Members {
    map[TRANSACTION_ID := Text(txID), ID := Number(Itoa(seqID)), CARD_ID := Number(Itoa(cardNumber)),
        CREATED_AT := Text(createdAt), TX_STATUS := Text("COMPLETED")]
  }

  /** CreateCardTransaction: a typed record without a payload. */
  function InsertCall(s: Store, txID: string, cardID: string, cardNumber: nat, createdAt: string): (Store, nat) {
    var s := s.(seqID := s.seqID + 1);
    var record := TypedRecord(s.seqID, txID, cardNumber, createdAt);
    if txID == "" || txID in s.typed then (s, 500)
    else (s.(typed := s.typed[txID := record], byCard := Index(s.byCard, cardID, txID)), 201)
  }

  function SetStatusCall(s: Store, id: string, status: string): (Store, nat) {
    if status !in STATUSES then (s, 400)
    else if id !in s.typed then (s, 404)
    else
      var s := s.(typed := s.typed[id := s.typed[id][TX_STATUS := Text(status)]]);
      (if id in s.raw then s.(raw := s.raw[id := s.raw[id][TX_STATUS := Text(status)]]) else s, 200)
  }

  const KEPT_FIELDS: set<string> := {TRANSACTION_ID, ID, CARD_ID, CREATED_AT, TX_STATUS}

  /** Generated ids are new. */
  ghost predicate Enabled(s: Store, op: Op) {
    match op
    case Simulate(sim, keys) =>
      && sim.txID != "" && sim.txID !in s.typed && sim.txID !in s.raw
      && MarshalOrder(keys, FieldsOf(sim, s.seqID + 1))
    case Insert(id, _, _, _) => id != "" && id !in s.typed && id !in s.raw
    case SetStatus(_, _) => true
  }

  function Next(s: Store, op: Op): Store
    requires Enabled(s, op)
  {
    match op
    case Simulate(sim, keys) => SimulateCall(s, sim, keys).0
    case Insert(id, card, number, at) => InsertCall(s, id, card, number, at).0
    case SetStatus(id, status) => SetStatusCall(s, id, status).0
  }

  // ----- in step -----

  /** The payload, where there is one, shows the same ids, creation time and status. */
  ghost predicate InStep(s: Store) {
    forall id :: id in s.raw ==>
      id in s.typed && forall f :: f in KEPT_FIELDS ==> Shown(s.typed[id], f) == Shown(s.raw[id], f)
  }

  function NumberOf(record: Members): nat {
    if ID in record && record[ID].Number? && AllDigits(record[ID].text) then Value(record[ID].text) else 0
  }

  /** Sequence ids are positive, handed out once, and records carry their own id. */
  ghost predicate Numbered(s: Store) {
    && (forall id :: id in s.typed ==> IdOf(s.typed[id]) == id && 0 < NumberOf(s.typed[id]) <= s.seqID)
    && (forall a, b :: a in s.typed && b in s.typed && NumberOf(s.typed[a]) == NumberOf(s.typed[b]) ==> a == b)
  }

  ghost predicate Rising(typed: map<string, Members>, ids: seq<string>) {
    && (forall i :: 0 <= i < |ids| ==> ids[i] in typed)
    && (forall i, j :: 0 <= i < j < |ids| ==> NumberOf(typed[ids[i]]) < NumberOf(typed[ids[j]]))
  }

  /** Each card's index lists its transactions in rising sequence order. */
  ghost predicate Ordered(s: Store) {
    forall c :: c in s.byCard ==> Rising(s.typed, s.byCard[c])
  }

  ghost predicate Sound(s: Store) { InStep(s) && Numbered(s) && Ordered(s) }

  lemma NumberOfItoa(n: nat)
    ensures AllDigits(Itoa(n)) && Value(Itoa(n)) == n
  {
    ValueOfDigits(n);
  }

  /** Each field that must agree is decided by a member that shows the same. */
  ghost predicate Consistent(m: Members) {
    forall f :: f in KEPT_FIELDS ==> f in SCHEMA && Agrees(m, f)
  }

  /** The typed record shows what the payload shows exactly when the payload is
      consistent. */
  lemma RecordAgreesIff(keys: seq<string>, m: Members)
    requires MarshalOrder(keys, m) && Decode(keys, m).Some?
    ensures (forall f :: f in KEPT_FIELDS ==> Shown(Decode(keys, m).value, f) == Shown(m, f)) <==> Consistent(m)
  {
    hide SCHEMA, Decode, Agrees, KEPT_FIELDS, Shown;
    forall f | f in KEPT_FIELDS
      ensures f in SCHEMA && (Shown(Decode(keys, m).value, f) == Shown(m, f) <==> Agrees(m, f))
    {
      KeptInSchema(f);
      DecodedShows(keys, m, f);
      TypedAgreesIff(keys, m, f);
    }
  }

  /** What an accepted simulation of a consistent payload files. */
  lemma SimulatedRecord(s: Store, sim: Simulation, keys: seq<string>)
    requires Enabled(s, Simulate(sim, keys)) && Decode(keys, FieldsOf(sim, s.seqID + 1)).Some?
    requires Consistent(FieldsOf(sim, s.seqID + 1))
    ensures var m := FieldsOf(sim, s.seqID + 1);
            var record := Decode(keys, m).value;
            && (forall f :: f in KEPT_FIELDS ==> Shown(record, f) == Shown(m, f))
            && IdOf(record) == sim.txID && NumberOf(record) == s.seqID + 1
  {
    hide SCHEMA, Decode, FieldsOf, Consistent, KEPT_FIELDS;
    var m := FieldsOf(sim, s.seqID + 1);
    var record := Decode(keys, m).value;
    IdentityBeatsOverrides(sim, s.seqID + 1);
    RecordAgreesIff(keys, m);
    NumberOfItoa(s.seqID + 1);
    IdsAreKept();
    assert Shown(record, TRANSACTION_ID) == Some(Text(sim.txID));
    assert Shown(record, ID) == Some(Number(Itoa(s.seqID + 1)));
  }

  lemma IdsAreKept()
    ensures TRANSACTION_ID in KEPT_FIELDS && ID in KEPT_FIELDS && CREATED_AT in KEPT_FIELDS
  { }

  lemma KeptInSchema(f: string)
    requires f in KEPT_FIELDS
    ensures f in SCHEMA && (SCHEMA[f] == Str ==> f in {TRANSACTION_ID, CREATED_AT})
            && (SCHEMA[f] == Str || IsPointer(SCHEMA[f]))
  {
    IdentityKinds();
    hide SCHEMA, TRANSACTION_ID, ID, CARD_ID, CREATED_AT, TX_STATUS;
    assert f == TRANSACTION_ID || f == ID || f == CARD_ID || f == CREATED_AT || f == TX_STATUS;
  }

  lemma IdentityKinds()
    ensures ID in SCHEMA && SCHEMA[ID] == WholePtr && CARD_ID in SCHEMA && SCHEMA[CARD_ID] == WholePtr
    ensures TRANSACTION_ID in SCHEMA && SCHEMA[TRANSACTION_ID] == Str && CREATED_AT in SCHEMA
            && SCHEMA[CREATED_AT] == Str
    ensures TX_STATUS in SCHEMA && SCHEMA[TX_STATUS] == StrPtr
  {
    NumberKinds();
    TextKinds();
    hide SCHEMA;
  }

  lemma NumberKinds()
    ensures ID in SCHEMA && SCHEMA[ID] == WholePtr && CARD_ID in SCHEMA && SCHEMA[CARD_ID] == WholePtr
  { }

  lemma TextKinds()
    ensures TRANSACTION_ID in SCHEMA && SCHEMA[TRANSACTION_ID] == Str && CREATED_AT in SCHEMA
            && SCHEMA[CREATED_AT] == Str && TX_STATUS in SCHEMA && SCHEMA[TX_STATUS] == StrPtr
  { }

  function Filed(s: Store, id: string, card: string, record: Members, raw: map<string, Members>): Store {
    s.(typed := s.typed[id := record], raw := raw, byCard := Index(s.byCard, card, id), seqID := s.seqID + 1)
  }

  lemma FiledOrdered(s: Store, id: string, card: string, record: Members, raw: map<string, Members>)
    requires Numbered(s) && Ordered(s) && id !in s.typed && NumberOf(record) == s.seqID + 1
    ensures Ordered(Filed(s, id, card, record, raw))
  {
    hide NumberOf, IdOf;
    var s' := Filed(s, id, card, record, raw);
    forall c | c in s'.byCard ensures Rising(s'.typed, s'.byCard[c]) {
      var ids := ListOf(s.byCard, c);
      assert c in s.byCard ==> Rising(s.typed, s.byCard[c]);
      assert forall i :: 0 <= i < |ids| ==> ids[i] in s.typed && NumberOf(s.typed[ids[i]]) <= s.seqID;
    }
  }

  /** Filing a new record under the next number. */
  lemma FiledSound(s: Store, id: string, card: string, record: Members, raw: map<string, Members>)
    requires Sound(s) && id !in s.typed && IdOf(record) == id && NumberOf(record) == s.seqID + 1
    ensures Numbered(Filed(s, id, card, record, raw)) && Ordered(Filed(s, id, card, record, raw))
  {
    hide NumberOf, IdOf, Ordered;
    FiledOrdered(s, id, card, record, raw);
  }

  /** A simulation that is answered 201, and so has filed something. */
  predicate Files(s: Store, op: Op)
    requires op.Simulate? && MarshalOrder(op.keys, FieldsOf(op.sim, s.seqID + 1))
  {
    SimulateCall(s, op.sim, op.keys).1 == 201
  }

  lemma SimulateSound(s: Store, sim: Simulation, keys: seq<string>)
    requires Sound(s) && Enabled(s, Simulate(sim, keys))
    requires Files(s, Simulate(sim, keys)) ==> Consistent(FieldsOf(sim, s.seqID + 1))
    ensures Sound(SimulateCall(s, sim, keys).0)
  {
    hide FieldsOf, Decode, Consistent, NumberOf, IdOf, KEPT_FIELDS, Shown, Rising;
    var m := FieldsOf(sim, s.seqID + 1);
    if Files(s, Simulate(sim, keys)) {
      SimulatedRecord(s, sim, keys);
      FiledSound(s, sim.txID, sim.cardID, Decode(keys, m).value, s.raw[sim.txID := m]);
    } else {
      NumberTaken(s);
    }
  }

  /** When payload and record disagree, the two maps are out of step: under one key,
      or under two. */
  lemma SimulateDisagrees(s: Store, sim: Simulation, keys: seq<string>)
    requires InStep(s) && Enabled(s, Simulate(sim, keys)) && Files(s, Simulate(sim, keys))
    requires !Consistent(FieldsOf(sim, s.seqID + 1))
    ensures !InStep(SimulateCall(s, sim, keys).0)
  {
    hide FieldsOf, Decode, Consistent, IdOf, KEPT_FIELDS, Shown;
    RecordAgreesIff(keys, FieldsOf(sim, s.seqID + 1));
    var s' := SimulateCall(s, sim, keys).0;
    assert sim.txID in s'.raw && s'.raw[sim.txID] == FieldsOf(sim, s.seqID + 1);
  }

  /** A simulation that breaks step: the override `transactionid` is decoded as the
      id of the typed record, so record and payload are filed under different keys. */
  lemma ShadowedSimulationBreaksStep(s: Store, sim: Simulation, keys: seq<string>)
    requires Enabled(s, Simulate(sim, keys)) && AllFit(FieldsOf(sim, s.seqID + 1)) && SpellsIdOnce(sim.payload)
    requires sim.overrides == map[SHADOW := Text("x")] && sim.txID != "x" && "x" !in s.typed
    ensures var (s', code) := SimulateCall(s, sim, keys);
            && code == 201 && "x" in s'.typed && sim.txID in s'.raw && sim.txID !in s'.typed
            && !InStep(s')
  {
    hide SCHEMA, SHADOW, TRANSACTION_ID, FieldsOf, DecodeField, AllFit, KEPT_FIELDS;
    var m := FieldsOf(sim, s.seqID + 1);
    ShadowedIdDisagrees(keys, sim, s.seqID + 1);
    IdentityKinds();
    var record := Decode(keys, m).value;
    assert IdOf(record) == "x";
    var s' := SimulateCall(s, sim, keys).0;
    assert sim.txID in s'.raw && sim.txID !in s'.typed;
  }

  /** A number may be taken and not used. */
  lemma NumberTaken(s: Store)
    requires Sound(s)
    ensures Sound(s.(seqID := s.seqID + 1))
  {
    assert forall c :: c in s.byCard ==> Rising(s.typed, s.byCard[c]);
  }

  lemma InsertedRecord(seqID: nat, id: string, number: nat, at: string)
    ensures var record := TypedRecord(seqID, id, number, at);
            IdOf(record) == id && NumberOf(record) == seqID
  {
    hide Itoa;
    NamesDiffer();
    NumberOfItoa(seqID);
  }

  lemma InsertSound(s: Store, id: string, card: string, number: nat, at: string)
    requires Sound(s) && Enabled(s, Insert(id, card, number, at))
    ensures Sound(InsertCall(s, id, card, number, at).0)
  {
    hide Itoa, Numbered, Ordered, Shown, NumberOf, IdOf, KEPT_FIELDS;
    var record := InsertCall(s, id, card, number, at).0.typed[id];
    InsertedRecord(s.seqID + 1, id, number, at);
    FiledSound(s, id, card, record, s.raw);
  }

  /** A status change leaves ids and numbers alone and reaches both copies. */
  lemma StatusOnly(record: Members, status: string)
    ensures var changed := record[TX_STATUS := Text(status)];
            && IdOf(changed) == IdOf(record) && NumberOf(changed) == NumberOf(record)
            && (forall f :: Shown(changed, f) == if f == TX_STATUS then Some(Text(status)) else Shown(record, f))
  {
    NamesDiffer();
  }

  lemma StatusInStep(s: Store, id: string, status: string)
    requires InStep(s)
    ensures InStep(SetStatusCall(s, id, status).0)
  {
    hide Shown, KEPT_FIELDS;
    if id in s.typed {
      StatusOnly(s.typed[id], status);
      if id in s.raw { StatusOnly(s.raw[id], status); }
    }
  }

  lemma StatusNumbered(s: Store, id: string, status: string)
    requires Numbered(s) && Ordered(s)
    ensures Numbered(SetStatusCall(s, id, status).0) && Ordered(SetStatusCall(s, id, status).0)
  {
    hide NumberOf, IdOf, Rising;
    var s' := SetStatusCall(s, id, status).0;
    if id in s.typed { StatusOnly(s.typed[id], status); }
    assert s'.typed.Keys == s.typed.Keys && s'.seqID == s.seqID && s'.byCard == s.byCard;
    assert forall k :: k in s.typed ==>
             IdOf(s'.typed[k]) == IdOf(s.typed[k]) && NumberOf(s'.typed[k]) == NumberOf(s.typed[k]);
    forall c | c in s'.byCard ensures Rising(s'.typed, s'.byCard[c]) {
      RisingStays(s.typed, s'.typed, s.byCard[c]);
    }
  }

  lemma RisingStays(typed: map<string, Members>, typed': map<string, Members>, ids: seq<string>)
    requires Rising(typed, ids) && typed'.Keys == typed.Keys
    requires forall k :: k in typed ==> NumberOf(typed'[k]) == NumberOf(typed[k])
    ensures Rising(typed', ids)
  {
    hide NumberOf;
  }

  lemma StatusSound(s: Store, id: string, status: string)
    requires Sound(s)
    ensures Sound(SetStatusCall(s, id, status).0)
  {
    hide InStep, Numbered, Ordered, SetStatusCall;
    StatusInStep(s, id, status);
    StatusNumbered(s, id, status);
  }

  /** What a simulation files is a consistent payload. */
  ghost predicate Admissible(s: Store, op: Op)
    requires Enabled(s, op)
  {
    op.Simulate? && Files(s, op) ==> Consistent(FieldsOf(op.sim, s.seqID + 1))
  }

  lemma SoundStep(s: Store, op: Op)
    requires Sound(s) && Enabled(s, op) && Admissible(s, op)
    ensures Sound(Next(s, op))
  {
    hide Sound, Consistent, FieldsOf;
    match op
    case Simulate(sim, keys) => SimulateSound(s, sim, keys);
    case Insert(id, card, number, at) => InsertSound(s, id, card, number, at);
    case SetStatus(id, status) => StatusSound(s, id, status);
  }

  ghost predicate Legal(s: Store, ops: seq<Op>)
    decreases |ops|
  {
    ops == [] || (Enabled(s, ops[0]) && Legal(Next(s, ops[0]), ops[1..]))
  }

  ghost function Run(s: Store, ops: seq<Op>): Store
    requires Legal(s, ops)
    decreases |ops|
  {
    if ops == [] then s else Run(Next(s, ops[0]), ops[1..])
  }

  /** A call keeps payloads and records in step exactly when it is not a simulation
      that files an inconsistent payload. */
  lemma StepStaysInStepIff(s: Store, op: Op)
    requires Sound(s) && Enabled(s, op)
    ensures Sound(Next(s, op)) <==> Admissible(s, op)
  {
    if Admissible(s, op) {
      SoundStep(s, op);
    } else {
      hide InStep, Consistent, FieldsOf, Numbered, Ordered, SimulateCall;
      SimulateDisagrees(s, op.sim, op.keys);
    }
  }

  ghost predicate AlwaysSound(s: Store, ops: seq<Op>)
    requires Legal(s, ops)
    decreases |ops|
  {
    Sound(s) && (ops == [] || AlwaysSound(Next(s, ops[0]), ops[1..]))
  }

  ghost predicate AllAdmissible(s: Store, ops: seq<Op>)
    requires Legal(s, ops)
    decreases |ops|
  {
    ops == [] || (Admissible(s, ops[0]) && AllAdmissible(Next(s, ops[0]), ops[1..]))
  }

  /** Over any run of simulations, insertions and status changes: payloads agree with
      their records on ids, time and status at every moment if and only if no
      simulation filed an inconsistent payload. Until one does, sequence ids are
      unique, and every card's list is in rising order of them. */
  lemma {:induction false} RunsStayInStepIff(s: Store, ops: seq<Op>)
    requires Sound(s) && Legal(s, ops)
    ensures AlwaysSound(s, ops) <==> AllAdmissible(s, ops)
    decreases |ops|
  {
    hide Sound, Next, Admissible;
    if ops != [] {
      StepStaysInStepIff(s, ops[0]);
      if Sound(Next(s, ops[0])) { RunsStayInStepIff(Next(s, ops[0]), ops[1..]); }
      else { NotAlwaysSound(Next(s, ops[0]), ops[1..]); }
    }
  }

  lemma NotAlwaysSound(s: Store, ops: seq<Op>)
    requires Legal(s, ops) && !Sound(s)
    ensures !AlwaysSound(s, ops)
  { }

  lemma {:induction false} RunsStayInStep(s: Store, ops: seq<Op>)
    requires Sound(s) && Legal(s, ops) && AllAdmissible(s, ops)
    ensures Sound(Run(s, ops))
    decreases |ops|
  {
    hide Sound, Next, Admissible;
    if ops != [] {
      SoundStep(s, ops[0]);
      RunsStayInStep(Next(s, ops[0]), ops[1..]);
    }
  }

  /** Enough for a caller: no member of fixture or overrides is another spelling, not
      sorting before it, of a field that must agree. */
  lemma UnshadowedIsAdmissible(s: Store, sim: Simulation, keys: seq<string>)
    requires Enabled(s, Simulate(sim, keys))
    requires forall f :: f in KEPT_FIELDS ==> Unshadowed(FieldsOf(sim, s.seqID + 1), f)
    ensures Admissible(s, Simulate(sim, keys))
  {
    hide FieldsOf, Unshadowed, SCHEMA, Agrees, KEPT_FIELDS, MarshalOrder, SimulateCall;
    var m := FieldsOf(sim, s.seqID + 1);
    IdentityBeatsOverrides(sim, s.seqID + 1);
    forall f | f in KEPT_FIELDS ensures f in SCHEMA && Agrees(m, f) {
      KeptInSchema(f);
      UnshadowedAgrees(m, f);
    }
  }

  // ----- the store as an object -----

  class CardTransactionStore {
    var cardTransactions: map<string, Members>
    var rawCardTransactions: map<string, Members>
    var cardTransactionsByCard: map<string, seq<string>>
    var cardTxSeqID: nat

    function Contents(): Store
      reads this
    {
      Store(cardTransactions, rawCardTransactions, cardTransactionsByCard, cardTxSeqID)
    }

    constructor ()
      ensures Contents() == EMPTY
    {
      cardTransactions, rawCardTransactions, cardTransactionsByCard, cardTxSeqID := map[], map[], map[], 0;
    }

    method NextSeqID() returns (n: nat)
      modifies this`cardTxSeqID
      ensures n == cardTxSeqID == old(cardTxSeqID) + 1
    {
      cardTxSeqID := cardTxSeqID + 1;
      n := cardTxSeqID;
    }

    method AddIndex(cardID: string, txID: string) returns (ok: bool)
      modifies this`cardTransactionsByCard
      ensures cardTransactionsByCard == Index(old(cardTransactionsByCard), cardID, txID)
    {
      if cardID == "" || txID == "" { return false; }
      var ids := if cardID in cardTransactionsByCard then cardTransactionsByCard[cardID] else [];
      cardTransactionsByCard := cardTransactionsByCard[cardID := ids + [txID]];
      return true;
    }

    method UpdateStatus(id: string, status: string) returns (ok: bool)
      modifies this`cardTransactions, this`rawCardTransactions
      ensures ok <==> id in old(cardTransactions)
      ensures status in STATUSES ==> Contents() == SetStatusCall(old(Contents()), id, status).0
    {
      if id !in cardTransactions { return false; }
      cardTransactions := cardTransactions[id := cardTransactions[id][TX_STATUS := Text(status)]];
      if id in rawCardTransactions {
        rawCardTransactions := rawCardTransactions[id := rawCardTransactions[id][TX_STATUS := Text(status)]];
      }
      return true;
    }

    method SimulateTransaction(sim: Simulation, keys: seq<string>) returns (status: nat)
      requires MarshalOrder(keys, FieldsOf(sim, cardTxSeqID + 1)) && sim.txID != ""
      modifies this
      ensures (Contents(), status) == SimulateCall(old(Contents()), sim, keys)
    {
      hide FieldsOf, Decode;
      var seqID := NextSeqID();
      var fields := Materialise(sim, seqID);
      var record := Decode(keys, fields);
      if record == None { return 500; }
      var id := IdOf(record.value);
      if id == "" || id in cardTransactions { return 500; }
      cardTransactions := cardTransactions[id := record.value];
      rawCardTransactions := rawCardTransactions[sim.txID := fields];
      var _ := AddIndex(sim.cardID, sim.txID);
      return 201;
    }

    /** CreateCardTransaction: number, record, then the index. */
    method CreateTransaction(txID: string, cardID: string, cardNumber: nat, createdAt: string) returns (status: nat)
      modifies this
      ensures (Contents(), status) == InsertCall(old(Contents()), txID, cardID, cardNumber, createdAt)
    {
      hide Itoa;
      var seqID := NextSeqID();
      var record := map[TRANSACTION_ID := Text(txID), ID := Number(Itoa(seqID)), CARD_ID := Number(Itoa(cardNumber)),
                        CREATED_AT := Text(createdAt), TX_STATUS := Text("COMPLETED")];
      if txID == "" || txID in cardTransactions { return 500; }
      cardTransactions := cardTransactions[txID := record];
      if cardID != "" { var _ := AddIndex(cardID, txID); }
      return 201;
    }

    method SetTransactionStatus(id: string, status: string) returns (code: nat)
      modifies this`cardTransactions, this`rawCardTransactions
      ensures (Contents(), code) == SetStatusCall(old(Contents()), id, status)
    {
      if status !in STATUSES { return 400; }
      if id !in cardTransactions { return 404; }
      var _ := UpdateStatus(id, status);
      return 200;
    }

    /** The listing loop: the payload where there is one, else the encoded record;
        ids without either are passed over. */
    method Collect(cardID: string) returns (all: seq<Members>)
      ensures all == Payloads(Contents(), ListOf(cardTransactionsByCard, cardID))
    {
      var ids := if cardID in cardTransactionsByCard then cardTransactionsByCard[cardID] else [];
      all := [];
      for i := 0 to |ids|
        invariant all == Payloads(Contents(), ids[..i])
      {
        assert ids[..i + 1][..i] == ids[..i];
        if ids[i] in rawCardTransactions { all := all + [rawCardTransactions[ids[i]]]; continue; }
        if ids[i] !in cardTransactions { continue; }
        all := all + [cardTransactions[ids[i]]];
      }
      assert ids[..|ids|] == ids;
    }
  }

  function Payloads(s: Store, ids: seq<string>): seq<Members> {
    if ids == [] then []
    else
      var id := ids[|ids| - 1];
      Payloads(s, ids[..|ids| - 1]) + if id in s.raw then [s.raw[id]] else if id in s.typed then [s.typed[id]] else []
  }

  /** A card's listing has one payload for each indexed id: nothing is skipped. */
  lemma {:induction false} ListingIsComplete(s: Store, ids: seq<string>)
    requires Sound(s) && Rising(s.typed, ids)
    ensures |Payloads(s, ids)| == |ids|
    ensures forall i :: 0 <= i < |ids| ==>
              Payloads(s, ids)[i] == if ids[i] in s.raw then s.raw[ids[i]] else s.typed[ids[i]]
  {
    hide Sound, NumberOf;
    if ids != [] {
      ListingIsComplete(s, ids[..|ids| - 1]);
    }
  }

  lemma NumberIsShown(a: Members, b: Members)
    requires Shown(a, ID) == Shown(b, ID)
    ensures NumberOf(a) == NumberOf(b)
  { }

  /** The listing rises in sequence ids... */
  lemma ListingRises(s: Store, ids: seq<string>)
    requires Sound(s) && Rising(s.typed, ids)
    ensures |Payloads(s, ids)| == |ids|
    ensures forall i, j :: 0 <= i < j < |ids| ==> NumberOf(Payloads(s, ids)[i]) < NumberOf(Payloads(s, ids)[j])
  {
    hide NumberOf, Payloads, Shown, KEPT_FIELDS;
    ListingIsComplete(s, ids);
    IdsAreKept();
    var all := Payloads(s, ids);
    forall i | 0 <= i < |ids| ensures NumberOf(all[i]) == NumberOf(s.typed[ids[i]]) {
      if ids[i] in s.raw { NumberIsShown(all[i], s.typed[ids[i]]); }
    }
  }

  ghost predicate ListedNewestFirst(all: seq<Members>) {
    forall i, j :: 0 <= i < j < |all| ==> NumberOf(all[i]) > NumberOf(all[j])
  }

  /** ...so over this store it is newest first exactly when the card has at most one
      transaction. */
  lemma NewestFirstIffAtMostOne(s: Store, ids: seq<string>)
    requires Sound(s) && Rising(s.typed, ids)
    ensures ListedNewestFirst(Payloads(s, ids)) <==> |ids| <= 1
  {
    hide NumberOf, Payloads, Sound, Rising;
    ListingRises(s, ids);
    if |ids| > 1 { assert NumberOf(Payloads(s, ids)[0]) < NumberOf(Payloads(s, ids)[1]); }
  }
}
