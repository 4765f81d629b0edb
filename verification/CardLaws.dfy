/** What the card store holds after a call and after many: which status is shown,
    what a new transaction shows, and in whose list it stands. */
module CardLaws {
  import opened Wrappers
  import opened Decimal
  import opened WebhookJob
  import opened CardTransactions
  import opened CardStore

  // ----- the status -----

  predicate KnownStatus(status: string) {
    status == "PROCESSING" || status == "COMPLETED" || status == "REVERSED" || status == "DECLINED"
  }

  /** The same members except for the status. */
  ghost predicate SameButStatus(m: Members, m': Members) {
    forall f :: f != "txStatus" ==> (f in m' <==> f in m) && (f in m ==> m'[f] == m[f])
  }

  /** A status change of a known transaction to a known status: record and payload, if
      there is one, show that status, and everything else is as it was. */
  lemma StatusIsStored(s: Store, id: string, status: string)
    requires KnownStatus(status) && id in s.typed
    ensures var (s', code) := SetStatusCall(s, id, status);
            && code == 200
            && s'.typed.Keys == s.typed.Keys && s'.raw.Keys == s.raw.Keys
            && s'.byCard == s.byCard && s'.seqID == s.seqID
            && Shown(s'.typed[id], "txStatus") == Some(Text(status)) && SameButStatus(s.typed[id], s'.typed[id])
            && (id in s.raw ==>
                  Shown(s'.raw[id], "txStatus") == Some(Text(status)) && SameButStatus(s.raw[id], s'.raw[id]))
            && (forall k :: k in s.typed && k != id ==> s'.typed[k] == s.typed[k])
            && (forall k :: k in s.raw && k != id ==> s'.raw[k] == s.raw[k])
  { }

  /** Any other status is refused, and so is any other transaction. */
  lemma OtherStatusesAreRefused(s: Store, id: string, status: string)
    requires !KnownStatus(status) || id !in s.typed
    ensures SetStatusCall(s, id, status) == (s, if KnownStatus(status) then 404 else 400)
  { }

  /** A call that changes the status of this transaction. */
  predicate Restates(op: Op, id: string) { op.SetStatus? && op.id == id && KnownStatus(op.status) }

  /** The known transaction shows this status, in both copies. */
  ghost predicate Shows(s: Store, id: string, status: string) {
    && id in s.typed && Shown(s.typed[id], "txStatus") == Some(Text(status))
    && (id in s.raw ==> Shown(s.raw[id], "txStatus") == Some(Text(status)))
  }

  lemma SimulateKeepsOthers(s: Store, sim: Simulation, keys: seq<string>, id: string)
    requires Enabled(s, Simulate(sim, keys)) && id in s.typed
    ensures var s' := SimulateCall(s, sim, keys).0;
            && id in s'.typed && s'.typed[id] == s.typed[id]
            && (id in s'.raw <==> id in s.raw) && (id in s.raw ==> s'.raw[id] == s.raw[id])
  {
    hide Decode, FieldsOf, IdOf;
  }

  lemma ShowsStep(s: Store, op: Op, id: string, status: string)
    requires Shows(s, id, status) && Enabled(s, op) && !Restates(op, id)
    ensures Shows(Next(s, op), id, status)
  {
    hide SimulateCall, FieldsOf, MarshalOrder, TypedRecord, SetStatusCall;
    match op
    case Simulate(sim, keys) => SimulateKeepsOthers(s, sim, keys, id);
    case Insert(_, _, _, _) =>
    case SetStatus(k, other) =>
      if KnownStatus(other) && k in s.typed { StatusIsStored(s, k, other); }
      else { OtherStatusesAreRefused(s, k, other); }
  }

  lemma {:induction false} ShowsRun(s: Store, ops: seq<Op>, id: string, status: string)
    requires Shows(s, id, status) && Legal(s, ops)
    requires forall i :: 0 <= i < |ops| ==> !Restates(ops[i], id)
    ensures Shows(Run(s, ops), id, status)
    decreases |ops|
  {
    hide Shows, Next, Enabled;
    if ops != [] {
      ShowsStep(s, ops[0], id, status);
      ShowsRun(Next(s, ops[0]), ops[1..], id, status);
    }
  }

  /** The status shown is the last one set: it stays through any further calls until
      another is accepted for the same transaction. */
  lemma LastStatusIsShown(s: Store, id: string, status: string, after: seq<Op>)
    requires KnownStatus(status) && id in s.typed
    requires Legal(SetStatusCall(s, id, status).0, after)
    requires forall i :: 0 <= i < |after| ==> !Restates(after[i], id)
    ensures Shows(Run(SetStatusCall(s, id, status).0, after), id, status)
  {
    hide SetStatusCall, Legal, Run;
    StatusIsStored(s, id, status);
    ShowsRun(SetStatusCall(s, id, status).0, after, id, status);
  }

  // ----- what is filed -----

  /** The card's list has grown by this transaction, and no other list has changed; a
      transaction without a card is in no list. */
  ghost predicate Listed(byCard: map<string, seq<string>>, byCard': map<string, seq<string>>, card: string,
                         id: string) {
    forall c :: ListOf(byCard', c) == if c == card && card != "" then ListOf(byCard, c) + [id] else ListOf(byCard, c)
  }

  /** A simulation whose payload fits the record and is consistent: it is answered 201
      and filed under the generated id. The payload shows that id, the next sequence
      number, the card's number and the time, and for every other name what the
      caller or else the scenario gave. */
  lemma SimulationIsFiled(s: Store, sim: Simulation, keys: seq<string>)
    requires Enabled(s, Simulate(sim, keys))
    requires AllFit(FieldsOf(sim, s.seqID + 1)) && Consistent(FieldsOf(sim, s.seqID + 1))
    ensures var (s', code) := SimulateCall(s, sim, keys);
            && code == 201 && s'.seqID == s.seqID + 1
            && s'.typed.Keys == s.typed.Keys + {sim.txID} && s'.raw.Keys == s.raw.Keys + {sim.txID}
            && (forall k :: k in s.typed ==> s'.typed[k] == s.typed[k])
            && (forall k :: k in s.raw ==> s'.raw[k] == s.raw[k])
            && Listed(s.byCard, s'.byCard, sim.cardID, sim.txID)
            && Shown(s'.typed[sim.txID], "transactionId") == Some(Text(sim.txID))
            && Shown(s'.typed[sim.txID], "id") == Some(Number(Itoa(s.seqID + 1)))
            && Payload(sim, s.seqID + 1, s'.raw[sim.txID])
  {
    hide SCHEMA, FieldsOf, AllFit, Consistent, KEPT_FIELDS, Shown, IdOf, DecodeField;
    PayloadOf(sim, s.seqID + 1);
    SimulatedRecord(s, sim, keys);
    IdsAreKept();
    FilesUnder(s, sim, keys);
    PayloadShowsIds(sim, s.seqID + 1);
  }

  /** A simulation that is refused has used up a number, and nothing else. */
  lemma RefusedSimulationTakesANumber(s: Store, sim: Simulation, keys: seq<string>)
    requires Enabled(s, Simulate(sim, keys))
    ensures var (s', code) := SimulateCall(s, sim, keys);
            code != 201 ==> code == 500 && s' == Store(s.typed, s.raw, s.byCard, s.seqID + 1)
    ensures !AllFit(FieldsOf(sim, s.seqID + 1)) ==> SimulateCall(s, sim, keys).1 == 500
  {
    hide FieldsOf, AllFit, IdOf, MarshalOrder, Index, DecodeField;
  }

  ghost predicate Payload(sim: Simulation, seqID: nat, m: Members) {
    && "transactionId" in m && m["transactionId"] == Text(sim.txID) && "id" in m && m["id"] == Number(Itoa(seqID))
    && "cardId" in m && m["cardId"] == Number(Itoa(sim.cardNumber))
    && "createdAt" in m && m["createdAt"] == Text(sim.createdAt)
    && forall k :: k != "transactionId" && k != "id" && k != "cardId" && k != "createdAt" ==>
         && (k in m <==> k in sim.overrides || k in sim.payload)
         && (k in m ==> m[k] == if k in sim.overrides then sim.overrides[k] else sim.payload[k])
  }

  lemma PayloadOf(sim: Simulation, seqID: nat)
    ensures Payload(sim, seqID, FieldsOf(sim, seqID))
  {
    hide FieldsOf, Itoa;
    IdentityBeatsOverrides(sim, seqID);
  }

  lemma PayloadShowsIds(sim: Simulation, seqID: nat)
    ensures Shown(FieldsOf(sim, seqID), "transactionId") == Some(Text(sim.txID))
    ensures Shown(FieldsOf(sim, seqID), "id") == Some(Number(Itoa(seqID)))
  {
    hide FieldsOf, Itoa;
    PayloadOf(sim, seqID);
  }

  lemma FilesUnder(s: Store, sim: Simulation, keys: seq<string>)
    requires Enabled(s, Simulate(sim, keys)) && Decode(keys, FieldsOf(sim, s.seqID + 1)).Some?
    requires IdOf(Decode(keys, FieldsOf(sim, s.seqID + 1)).value) == sim.txID
    ensures var m := FieldsOf(sim, s.seqID + 1);
            SimulateCall(s, sim, keys)
            == (Store(s.typed[sim.txID := Decode(keys, m).value], s.raw[sim.txID := m],
                      Index(s.byCard, sim.cardID, sim.txID), s.seqID + 1), 201)
  {
    hide FieldsOf, Decode, IdOf, Index;
  }

  /** A transaction created without a scenario: the record alone, completed at once. */
  lemma InsertionIsFiled(s: Store, id: string, card: string, number: nat, at: string)
    requires Enabled(s, Insert(id, card, number, at))
    ensures var (s', code) := InsertCall(s, id, card, number, at);
            && code == 201 && s'.seqID == s.seqID + 1 && s'.raw == s.raw
            && s'.typed.Keys == s.typed.Keys + {id} && (forall k :: k in s.typed ==> s'.typed[k] == s.typed[k])
            && Listed(s.byCard, s'.byCard, card, id)
            && s'.typed[id] == map["transactionId" := Text(id), "id" := Number(Itoa(s.seqID + 1)),
                                   "cardId" := Number(Itoa(number)), "createdAt" := Text(at),
                                   "txStatus" := Text("COMPLETED")]
  {
    hide Itoa;
  }

  // ----- the lists over runs -----

  /** Every id in a list is known, and stands in one list only, once. */
  ghost predicate OneListEach(s: Store) {
    && (forall c, i :: 0 <= i < |ListOf(s.byCard, c)| ==>
          ListOf(s.byCard, c)[i] in s.typed || ListOf(s.byCard, c)[i] in s.raw)
    && (forall c, d, i, j :: 0 <= i < |ListOf(s.byCard, c)| && 0 <= j < |ListOf(s.byCard, d)| ==>
          (ListOf(s.byCard, c)[i] == ListOf(s.byCard, d)[j] <==> c == d && i == j))
  }

  /** The transaction stands in this card's list, and in no other. */
  ghost predicate StandsIn(s: Store, card: string, id: string) {
    forall c :: id in ListOf(s.byCard, c) <==> c == card
  }

  /** A step either leaves all lists alone or appends one new id to one of them. */
  lemma ListsStep(s: Store, op: Op)
    requires Enabled(s, op)
    ensures var s' := Next(s, op);
            && (forall k :: k in s.typed ==> k in s'.typed) && (forall k :: k in s.raw ==> k in s'.raw)
            && (s'.byCard == s.byCard
                || (!op.SetStatus? && var card, id := CardOf(op), NewId(op);
                    && id !in s.typed && id !in s.raw && (id in s'.typed || id in s'.raw)
                    && Listed(s.byCard, s'.byCard, card, id)))
  {
    hide Decode, FieldsOf, IdOf, TypedRecord, MarshalOrder;
  }

  function CardOf(op: Op): string
    requires !op.SetStatus?
  {
    match op case Simulate(sim, _) => sim.cardID case Insert(_, card, _, _) => card
  }

  function NewId(op: Op): string
    requires !op.SetStatus?
  {
    match op case Simulate(sim, _) => sim.txID case Insert(id, _, _, _) => id
  }

  lemma OneListStep(s: Store, op: Op)
    requires OneListEach(s) && Enabled(s, op)
    ensures OneListEach(Next(s, op))
  {
    hide Next, Enabled, ListOf;
    ListsStep(s, op);
  }

  lemma StandsInStep(s: Store, op: Op, card: string, id: string)
    requires OneListEach(s) && Enabled(s, op) && StandsIn(s, card, id) && (id in s.typed || id in s.raw)
    ensures StandsIn(Next(s, op), card, id) && (id in Next(s, op).typed || id in Next(s, op).raw)
  {
    hide Next, Enabled, ListOf;
    ListsStep(s, op);
  }

  lemma {:induction false} StandsInRun(s: Store, ops: seq<Op>, card: string, id: string)
    requires OneListEach(s) && Legal(s, ops) && StandsIn(s, card, id) && (id in s.typed || id in s.raw)
    ensures StandsIn(Run(s, ops), card, id) && OneListEach(Run(s, ops))
    decreases |ops|
  {
    hide OneListEach, Next, Enabled, StandsIn;
    if ops != [] {
      OneListStep(s, ops[0]);
      StandsInStep(s, ops[0], card, id);
      StandsInRun(Next(s, ops[0]), ops[1..], card, id);
    }
  }

  lemma {:induction false} OneListRun(s: Store, ops: seq<Op>)
    requires OneListEach(s) && Legal(s, ops)
    ensures OneListEach(Run(s, ops))
    decreases |ops|
  {
    hide OneListEach, Next, Enabled;
    if ops != [] {
      OneListStep(s, ops[0]);
      OneListRun(Next(s, ops[0]), ops[1..]);
    }
  }

  /** Over any run, shadowed ids included: a transaction that was accepted for a card
      is in that card's list from then on, once, and in no other card's. */
  lemma AcceptedAreListed(before: seq<Op>, op: Op, after: seq<Op>)
    requires Legal(EMPTY, before) && !op.SetStatus? && Enabled(Run(EMPTY, before), op)
    requires Legal(Next(Run(EMPTY, before), op), after)
    requires CardOf(op) != "" && Accepts(Run(EMPTY, before), op)
    ensures var s := Run(Next(Run(EMPTY, before), op), after);
            StandsIn(s, CardOf(op), NewId(op)) && OneListEach(s)
  {
    hide OneListEach, Next, Enabled, StandsIn, Legal, Run;
    var s := Run(EMPTY, before);
    EmptyLists();
    OneListRun(EMPTY, before);
    OneListStep(s, op);
    AcceptedStandsIn(s, op);
    StandsInRun(Next(s, op), after, CardOf(op), NewId(op));
  }

  lemma EmptyLists()
    ensures OneListEach(EMPTY)
  { }

  predicate Accepts(s: Store, op: Op)
    requires Enabled(s, op) && !op.SetStatus?
  {
    match op
    case Simulate(sim, keys) => SimulateCall(s, sim, keys).1 == 201
    case Insert(id, card, number, at) => InsertCall(s, id, card, number, at).1 == 201
  }

  lemma AcceptedStandsIn(s: Store, op: Op)
    requires OneListEach(s) && !op.SetStatus? && Enabled(s, op) && Accepts(s, op) && CardOf(op) != ""
    ensures var s', id := Next(s, op), NewId(op);
            StandsIn(s', CardOf(op), id) && (id in s'.typed || id in s'.raw)
  {
    AcceptedIsAppended(s, op);
    hide Next, Enabled, Accepts, ListOf;
    var id := NewId(op);
    assert forall c :: id !in ListOf(s.byCard, c);
  }

  lemma AcceptedIsAppended(s: Store, op: Op)
    requires !op.SetStatus? && Enabled(s, op) && Accepts(s, op)
    ensures var s', id := Next(s, op), NewId(op);
            && id !in s.typed && id !in s.raw && (id in s'.typed || id in s'.raw)
            && Listed(s.byCard, s'.byCard, CardOf(op), id)
  {
    hide Decode, FieldsOf, IdOf, TypedRecord, MarshalOrder;
  }
}
