/** Card transactions: the typed record and the verbatim payload of a simulated
    transaction, and when the two agree. */
module CardTransactions {
  import opened Wrappers
  import opened Decimal
  import opened WebhookJob

  /** Go types of the typed record's fields; a pointer can be nil. */
  datatype Kind = Str | StrPtr | Whole | WholePtr | Flag | FlagPtr | Record

  const TRANSACTION_ID := "transactionId"
  const ID := "id"
  const CARD_ID := "cardId"
  const CREATED_AT := "createdAt"
  const TX_STATUS := "txStatus"

  const SCHEMA: map<string, Kind> := map[
    ID := WholePtr, "vaultId" := WholePtr, CARD_ID := WholePtr, TRANSACTION_ID := Str, "refTransactionId" := StrPtr,
    "responseCode" := StrPtr, "ghResponseCode" := Str, "ghResponseDescription" := Str, "transactionAmount" := StrPtr,
    "transactionCurrency" := StrPtr, "billingAmount" := StrPtr, "billingCurrency" := StrPtr,
    "isTrxAmountConverted" := Flag, "terminalId" := Str, "cardScheme" := Whole, "type" := Whole, "source" := StrPtr,
    "entryMode" := WholePtr, "authorizationCode" := StrPtr, "splitIntoMultiple" := FlagPtr,
    "authentication" := WholePtr,
    "authenticationProtocol" := WholePtr, "wallet" := WholePtr, "transactionDateTime" := StrPtr,
    "processDateTime" := StrPtr,
    CREATED_AT := Str, TX_STATUS := StrPtr, "operation" := Whole, "mcc" := StrPtr, "merchantStreet" := StrPtr,
    "merchantCity" := StrPtr, "merchantZip" := StrPtr, "merchantCountry" := StrPtr, "merchantName" := StrPtr,
    "merchantId" := StrPtr, "transactionClassification" := StrPtr, "spendExchangeRate" := StrPtr,
    "spendCurrency" := StrPtr,
    "mastercardConversion" := Record]

  type Members = map<string, Json>

  // ----- how encoding/json fills a struct -----

  /** Field names are matched ignoring case; the long s and the Kelvin sign count as
      the letters they fold to. */
  function FoldChar(c: char): char {
    if 'A' <= c <= 'Z' then (c as int + 32) as char
    else if c == '\U{017F}' then 's'
    else if c == '\U{212A}' then 'k'
    else c
  }

  function Fold(s: string): string { seq(|s|, i requires 0 <= i < |s| => FoldChar(s[i])) }

  predicate Less(a: string, b: string) {
    if b == "" then false
    else if a == "" then true
    else a[0] < b[0] || (a[0] == b[0] && Less(a[1..], b[1..]))
  }

  /** The order in which `json.Marshal` writes the members of a map. */
  ghost predicate MarshalOrder(keys: seq<string>, m: Members) {
    && (forall i, j :: 0 <= i < j < |keys| ==> Less(keys[i], keys[j]))
    && (forall k :: k in keys <==> k in m)
  }

  predicate IsWholeText(t: string) {
    var digits := if t != "" && t[0] == '-' then t[1..] else t;
    digits != "" && AllDigits(digits)
  }

  predicate IsPointer(kind: Kind) { kind.StrPtr? || kind.WholePtr? || kind.FlagPtr? || kind.Record? }

  predicate Fits(kind: Kind, v: Json) {
    match v
    case Null => true
    case Bool(_) => kind.Flag? || kind.FlagPtr?
    case Number(t) => (kind.Whole? || kind.WholePtr?) && IsWholeText(t)
    case Text(_) => kind.Str? || kind.StrPtr?
    case Array(_) => false
    case Object(_) => kind.Record?
  }

  /** One field after reading these members in order: null empties a pointer and
      leaves anything else alone; None is the zero value. */
  function DecodeField(keys: seq<string>, m: Members, f: string, kind: Kind): Option<Json>
    requires forall k :: k in keys ==> k in m
  {
    if keys == [] then None
    else
      var k := keys[|keys| - 1];
      var before := DecodeField(keys[..|keys| - 1], m, f, kind);
      if Fold(k) != Fold(f) then before
      else if m[k].Null? then (if IsPointer(kind) then None else before)
      else Some(m[k])
  }

  predicate AllFit(m: Members) {
    forall k, f :: k in m && f in SCHEMA && Fold(k) == Fold(f) ==> Fits(SCHEMA[f], m[k])
  }

  /** The typed record, or None when some member has the wrong type. */
  function Decode(keys: seq<string>, m: Members): Option<Members>
    requires MarshalOrder(keys, m)
  {
    if !AllFit(m) then None
    else
      Some(map f | f in SCHEMA && DecodeField(keys, m, f, SCHEMA[f]).Some?
             :: DecodeField(keys, m, f, SCHEMA[f]).value)
  }

  /** What a field of this type can hold. */
  predicate OfKind(kind: Kind, v: Json) {
    match kind
    case Str => v.Text?
    case StrPtr => v.Text?
    case Whole => v.Number? && IsWholeText(v.text)
    case WholePtr => v.Number? && IsWholeText(v.text)
    case Flag => v.Bool?
    case FlagPtr => v.Bool?
    case Record => v.Object?
  }

  lemma FitsIff(kind: Kind, v: Json)
    ensures Fits(kind, v) <==> v.Null? || OfKind(kind, v)
  { }

  lemma {:induction false} DecodedFrom(keys: seq<string>, m: Members, f: string, kind: Kind) returns (k: string)
    requires forall k :: k in keys ==> k in m
    requires DecodeField(keys, m, f, kind).Some?
    ensures k in m && Fold(k) == Fold(f) && m[k] == DecodeField(keys, m, f, kind).value && !m[k].Null?
  {
    var last, rest := keys[|keys| - 1], keys[..|keys| - 1];
    if Fold(last) == Fold(f) && !m[last].Null? { k := last; } else { k := DecodedFrom(rest, m, f, kind); }
  }

  /** The payload is refused exactly when some member, under any spelling of a field's
      name, is neither null nor of the field's type; and what a record holds is of
      the types of its fields. */
  lemma DecodeRefusesIff(keys: seq<string>, m: Members)
    requires MarshalOrder(keys, m)
    ensures Decode(keys, m) == None <==>
            exists k, f :: k in m && f in SCHEMA && Fold(k) == Fold(f) && !m[k].Null? && !OfKind(SCHEMA[f], m[k])
    ensures Decode(keys, m).Some? ==>
              forall f :: f in Decode(keys, m).value ==> f in SCHEMA && OfKind(SCHEMA[f], Decode(keys, m).value[f])
  {
    hide SCHEMA, Fits, OfKind, DecodeField, Fold;
    forall k, f | k in m && f in SCHEMA ensures Fits(SCHEMA[f], m[k]) <==> m[k].Null? || OfKind(SCHEMA[f], m[k]) {
      FitsIff(SCHEMA[f], m[k]);
    }
    if AllFit(m) {
      forall f | f in Decode(keys, m).value ensures f in SCHEMA && OfKind(SCHEMA[f], Decode(keys, m).value[f]) {
        var k := DecodedFrom(keys, m, f, SCHEMA[f]);
      }
    }
  }

  // ----- the order of keys -----

  lemma {:induction false} LessTransitive(a: string, b: string, c: string)
    requires Less(a, b) && Less(b, c)
    ensures Less(a, c)
    decreases |a|
  {
    if a != "" && a[0] == b[0] && b[0] == c[0] { LessTransitive(a[1..], b[1..], c[1..]); }
  }

  lemma {:induction false} LessIrreflexive(a: string)
    ensures !Less(a, a)
  {
    if a != "" { LessIrreflexive(a[1..]); }
  }

  // ----- when the typed field is the payload's -----

  /** A member that sets the field when it is read: null leaves a field alone that
      is not a pointer. */
  predicate Sets(m: Members, f: string, kind: Kind, k: string) {
    k in m && Fold(k) == Fold(f) && (m[k].Null? ==> IsPointer(kind))
  }

  /** Of the members that set the field, the one whose spelling sorts last. */
  ghost predicate Decides(m: Members, f: string, kind: Kind, g: string) {
    Sets(m, f, kind, g) && forall k :: Sets(m, f, kind, k) ==> !Less(g, k)
  }

  lemma {:induction false} NoneSets(keys: seq<string>, m: Members, f: string, kind: Kind)
    requires forall k :: k in keys ==> k in m && !Sets(m, f, kind, k)
    ensures DecodeField(keys, m, f, kind) == None
  {
    if keys != [] {
      assert keys[|keys| - 1] in keys;
      NoneSets(keys[..|keys| - 1], m, f, kind);
    }
  }

  /** The greatest spelling among the members that set a field decides the field. */
  lemma {:induction false} GreatestSpellingWins(keys: seq<string>, m: Members, f: string, kind: Kind, g: string)
    requires forall i, j :: 0 <= i < j < |keys| ==> Less(keys[i], keys[j])
    requires forall k :: k in keys ==> k in m
    requires g in keys && Sets(m, f, kind, g)
    requires forall k :: k in keys && Sets(m, f, kind, k) ==> !Less(g, k)
    ensures DecodeField(keys, m, f, kind) == if m[g].Null? then None else Some(m[g])
  {
    var last, rest := keys[|keys| - 1], keys[..|keys| - 1];
    if last != g {
      var i :| 0 <= i < |keys| && keys[i] == g;
      assert i < |keys| - 1 && Less(g, last);
      assert rest[i] == g;
      GreatestSpellingWins(rest, m, f, kind, g);
    }
  }

  /** Among keys in order there is a last one that sets the field, or none at all. */
  lemma {:induction false} LastSetter(keys: seq<string>, m: Members, f: string, kind: Kind) returns (g: Option<string>)
    requires forall i, j :: 0 <= i < j < |keys| ==> Less(keys[i], keys[j])
    requires forall k :: k in keys ==> k in m
    ensures g == None ==> forall k :: k in keys ==> !Sets(m, f, kind, k)
    ensures g.Some? ==> g.value in keys && Sets(m, f, kind, g.value)
                        && forall k :: k in keys && Sets(m, f, kind, k) ==> !Less(g.value, k)
  {
    hide Sets, Less;
    if keys == [] { return None; }
    var last, rest := keys[|keys| - 1], keys[..|keys| - 1];
    assert keys == rest + [last];
    if Sets(m, f, kind, last) {
      g := Some(last);
      forall k | k in keys ensures !Less(last, k) {
        var i :| 0 <= i < |keys| && keys[i] == k;
        if i < |keys| - 1 { LessAsymmetric(k, last); } else { LessIrreflexive(last); }
      }
    } else {
      g := LastSetter(rest, m, f, kind);
    }
  }

  /** What a reader of the verbatim payload finds under the name. */
  function Shown(m: Members, f: string): Option<Json> {
    if f in m && !m[f].Null? then Some(m[f]) else None
  }

  /** Whatever member decides the field shows what the payload shows under the name. */
  ghost predicate Agrees(m: Members, f: string)
    requires f in SCHEMA
  {
    forall g :: Decides(m, f, SCHEMA[f], g) ==> Shown(m, g) == Shown(m, f)
  }

  /** No other spelling of the name outranks it: there is none that sorts after it,
      and none at all if the name itself is absent. */
  predicate Unshadowed(m: Members, f: string) {
    forall k :: k in m && Fold(k) == Fold(f) && k != f ==> f in m && Less(k, f)
  }

  lemma {:induction false} LessAfterPrefix(p: string, a: string, b: string)
    requires Less(a, b)
    ensures Less(p + a, p + b)
  {
    if p == "" {
      assert p + a == a && p + b == b;
    } else {
      LessAfterPrefix(p[1..], a, b);
      assert (p + a)[1..] == p[1..] + a && (p + b)[1..] == p[1..] + b;
    }
  }

  lemma LessAsymmetric(a: string, b: string)
    requires Less(a, b)
    ensures !Less(b, a)
  {
    if Less(b, a) {
      LessTransitive(a, b, a);
      LessIrreflexive(a);
    }
  }

  /** Two different strings are in order one way or the other, so only one decides. */
  lemma {:induction false} LessTotal(a: string, b: string)
    requires a != b
    ensures Less(a, b) || Less(b, a)
  {
    if a != "" && b != "" && a[0] == b[0] {
      assert a == [a[0]] + a[1..] && b == [b[0]] + b[1..];
      LessTotal(a[1..], b[1..]);
    }
  }

  /** For every payload, with any spellings and any nulls in it: the typed field is
      what the payload shows under the name exactly when the member that decides the
      field, if there is one, shows the same. */
  lemma TypedAgreesIff(keys: seq<string>, m: Members, f: string)
    requires MarshalOrder(keys, m) && f in SCHEMA
    ensures DecodeField(keys, m, f, SCHEMA[f]) == Shown(m, f) <==> Agrees(m, f)
  {
    hide SCHEMA, Less, Fold, DecodeField, IsPointer;
    var kind := SCHEMA[f];
    var g := LastSetter(keys, m, f, kind);
    if g == None {
      NoneSets(keys, m, f, kind);
      assert forall k :: !Decides(m, f, kind, k);
      assert Sets(m, f, kind, f) || Shown(m, f) == None;
    } else {
      GreatestSpellingWins(keys, m, f, kind, g.value);
      assert Decides(m, f, kind, g.value);
      forall h | Decides(m, f, kind, h) ensures h == g.value {
        if h != g.value { LessTotal(h, g.value); }
      }
    }
  }

  /** A name that no other spelling outranks, and that is not null where null means
      nothing, agrees. */
  lemma UnshadowedAgrees(m: Members, f: string)
    requires f in SCHEMA && Unshadowed(m, f)
    requires f in m && m[f].Null? ==> IsPointer(SCHEMA[f])
    ensures Agrees(m, f)
  {
    hide SCHEMA, Less, Fold, IsPointer;
    forall g | Decides(m, f, SCHEMA[f], g) ensures Shown(m, g) == Shown(m, f) {
      if g != f { LessAsymmetric(g, f); }
    }
  }

  lemma TypedIsShown(keys: seq<string>, m: Members, f: string)
    requires MarshalOrder(keys, m) && f in SCHEMA && Unshadowed(m, f)
    requires f in m && m[f].Null? ==> IsPointer(SCHEMA[f])
    ensures DecodeField(keys, m, f, SCHEMA[f]) == Shown(m, f)
  {
    UnshadowedAgrees(m, f);
    TypedAgreesIff(keys, m, f);
  }

  lemma {:induction false} FieldIsNotNull(keys: seq<string>, m: Members, f: string, kind: Kind)
    requires forall k :: k in keys ==> k in m
    ensures DecodeField(keys, m, f, kind) != Some(Null)
  {
    if keys != [] { FieldIsNotNull(keys[..|keys| - 1], m, f, kind); }
  }

  /** The decoded record shows each of its fields. */
  lemma DecodedShows(keys: seq<string>, m: Members, f: string)
    requires MarshalOrder(keys, m) && Decode(keys, m).Some? && f in SCHEMA
    ensures Shown(Decode(keys, m).value, f) == DecodeField(keys, m, f, SCHEMA[f])
  {
    hide SCHEMA, DecodeField, AllFit;
    FieldIsNotNull(keys, m, f, SCHEMA[f]);
  }

  // ----- materialising a scenario -----

  datatype Simulation = Simulation(payload: Members, overrides: Members, cardID: string, cardNumber: nat,
                                   txID: string, createdAt: string)

  /** Overrides replace fixture fields; the identity fields beat both. */
  function FieldsOf(sim: Simulation, seqID: nat): Members {
    (sim.payload + sim.overrides)
      [TRANSACTION_ID := Text(sim.txID)][ID := Number(Itoa(seqID))]
      [CARD_ID := Number(Itoa(sim.cardNumber))][CREATED_AT := Text(sim.createdAt)]
  }

  lemma NamesDiffer()
    ensures TRANSACTION_ID != ID && TRANSACTION_ID != CARD_ID && TRANSACTION_ID != CREATED_AT && ID != CARD_ID
            && ID != CREATED_AT && CARD_ID != CREATED_AT
    ensures TX_STATUS !in {TRANSACTION_ID, ID, CARD_ID, CREATED_AT}
  {
    assert |TRANSACTION_ID| == 13 && |ID| == 2 && |CARD_ID| == 6 && |CREATED_AT| == 9 && |TX_STATUS| == 8;
  }

  /** Identity fields always beat caller and fixture; every other field is the
      override if there is one and the fixture's otherwise. */
  lemma IdentityBeatsOverrides(sim: Simulation, seqID: nat)
    ensures var m := FieldsOf(sim, seqID);
            && TRANSACTION_ID in m && ID in m && CARD_ID in m && CREATED_AT in m
            && m[TRANSACTION_ID] == Text(sim.txID) && m[ID] == Number(Itoa(seqID))
            && m[CARD_ID] == Number(Itoa(sim.cardNumber)) && m[CREATED_AT] == Text(sim.createdAt)
    ensures forall k :: k !in {TRANSACTION_ID, ID, CARD_ID, CREATED_AT} ==>
              var m := FieldsOf(sim, seqID);
              && (k in m <==> k in sim.payload || k in sim.overrides)
              && (k in m ==> m[k] == if k in sim.overrides then sim.overrides[k] else sim.payload[k])
  {
    NamesDiffer();
  }

  lemma OneOverrideMore(payload: Members, overrides: Members, left: set<string>, k: string)
    requires k in left && left <= overrides.Keys
    ensures (payload + (overrides - left))[k := overrides[k]] == payload + (overrides - (left - {k}))
  { }

  /** The loop over the overrides, in whatever order the map yields them. */
  method ApplyOverrides(payload: Members, overrides: Members) returns (fields: Members)
    ensures fields == payload + overrides
  {
    fields := payload;
    var left := overrides.Keys;
    assert overrides - left == map[] && payload + map[] == payload;
    while left != {}
      invariant left <= overrides.Keys
      invariant fields == payload + (overrides - left)
      decreases |left|
    {
      var k :| k in left;
      OneOverrideMore(payload, overrides, left, k);
      fields := fields[k := overrides[k]];
      left := left - {k};
    }
    assert overrides - {} == overrides;
  }

  method Materialise(sim: Simulation, seqID: nat) returns (fields: Members)
    ensures fields == FieldsOf(sim, seqID)
  {
    fields := ApplyOverrides(sim.payload, sim.overrides);
    fields := fields[TRANSACTION_ID := Text(sim.txID)];
    fields := fields[ID := Number(Itoa(seqID))];
    fields := fields[CARD_ID := Number(Itoa(sim.cardNumber))];
    fields := fields[CREATED_AT := Text(sim.createdAt)];
  }

  const SHADOW := "transactionid"

  /** The lower-case spelling is the same field to the decoder... */
  lemma ShadowFolds()
    ensures Fold(SHADOW) == Fold(TRANSACTION_ID) && SHADOW !in {TRANSACTION_ID, ID, CARD_ID, CREATED_AT}
    ensures Fold(ID) != Fold(SHADOW) && Fold(CARD_ID) != Fold(SHADOW) && Fold(CREATED_AT) != Fold(SHADOW)
  {
    assert TRANSACTION_ID[11] == 'I' && SHADOW[11] == 'i';
    assert |SHADOW| == 13 && |ID| == 2 && |CARD_ID| == 6 && |CREATED_AT| == 9;
    assert Fold(SHADOW) == Fold(TRANSACTION_ID);
    assert |Fold(ID)| == 2 && |Fold(CARD_ID)| == 6 && |Fold(CREATED_AT)| == 9;
  }

  /** ...and sorts after the field's own name. */
  lemma ShadowSorts()
    ensures !Less(SHADOW, TRANSACTION_ID) && !Less(SHADOW, SHADOW)
  {
    var upper, lower := "Id", "id";
    assert Less(upper, lower);
    assert "transaction" + upper == TRANSACTION_ID && "transaction" + lower == SHADOW;
    hide Less;
    LessAfterPrefix("transaction", upper, lower);
    LessAsymmetric(TRANSACTION_ID, SHADOW);
    LessIrreflexive(SHADOW);
  }

  /** A fixture spells the name of the id in one way only. */
  predicate SpellsIdOnce(payload: Members) {
    forall k :: k in payload && Fold(k) == Fold(TRANSACTION_ID) ==> k == TRANSACTION_ID
  }

  /** An override that differs from `transactionId` in one capital letter gives the
      typed record, and so the store's key, an id other than the payload's. */
  lemma ShadowedIdDisagrees(keys: seq<string>, sim: Simulation, seqID: nat)
    requires MarshalOrder(keys, FieldsOf(sim, seqID))
    requires sim.overrides == map[SHADOW := Text("x")] && SpellsIdOnce(sim.payload)
    ensures DecodeField(keys, FieldsOf(sim, seqID), TRANSACTION_ID, Str) == Some(Text("x"))
    ensures Shown(FieldsOf(sim, seqID), TRANSACTION_ID) == Some(Text(sim.txID))
  {
    hide SCHEMA, SHADOW, TRANSACTION_ID, ID, CARD_ID, CREATED_AT, Less, Fold, FieldsOf, DecodeField;
    var m := FieldsOf(sim, seqID);
    ShadowFolds();
    ShadowSorts();
    IdentityBeatsOverrides(sim, seqID);
    assert m[SHADOW] == Text("x");
    forall k | k in keys && Sets(m, TRANSACTION_ID, Str, k) ensures !Less(SHADOW, k) {
      assert k == TRANSACTION_ID || k == SHADOW;
    }
    GreatestSpellingWins(keys, m, TRANSACTION_ID, Str, SHADOW);
  }
}
