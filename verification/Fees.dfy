/** Fee percentages: global values, per-user overrides, and the administration
    calls that change them (internal/handler/fees.go). */
module Fees {
  import opened Wrappers

  /** A field that is None falls back to the global value. */
  datatype Override = Override(deposit: Option<real>, withdrawal: Option<real>)

  datatype FeeState = FeeState(deposit: real, withdrawal: real, overrides: map<string, Override>)

  datatype FeeOp =
    | SetFees(deposit: real, withdrawal: real)
    | SetUserFees(userID: string, depositPct: Option<real>, withdrawalPct: Option<real>)
    | ClearUserFees(userID: string)

  predicate Percent(p: real) { 0.0 <= p <= 100.0 }

  predicate OptionalPercent(p: Option<real>) { p.Some? ==> Percent(p.value) }

  /** Whether the handler answers 200 rather than 400. */
  predicate Accepted(op: FeeOp) {
    match op
    case SetFees(d, w) => Percent(d) && Percent(w)
    case SetUserFees(u, d, w) => u != "" && (d.Some? || w.Some?) && OptionalPercent(d) && OptionalPercent(w)
    case ClearUserFees(u) => u != ""
  }

  function OverrideOf(s: FeeState, userID: string): Override {
    if userID in s.overrides then s.overrides[userID] else Override(None, None)
  }

  function Apply(s: FeeState, op: FeeOp): FeeState {
    if !Accepted(op) then s
    else
      match op
      case SetFees(d, w) => s.(deposit := d, withdrawal := w)
      case SetUserFees(u, d, w) =>
        var was := OverrideOf(s, u);
        var changed := Override(if d.Some? then d else was.deposit, if w.Some? then w else was.withdrawal);
        s.(overrides := s.overrides[u := changed])
      case ClearUserFees(u) => s.(overrides := s.overrides - {u})
  }

  function DepositFeeFor(s: FeeState, userID: string): real {
    var o := OverrideOf(s, userID).deposit;
    if o.Some? then o.value else s.deposit
  }

  function WithdrawalFeeFor(s: FeeState, userID: string): real {
    var o := OverrideOf(s, userID).withdrawal;
    if o.Some? then o.value else s.withdrawal
  }

  // ----- what a history of calls amounts to, read backwards -----

  function ApplyAll(s: FeeState, ops: seq<FeeOp>): FeeState {
    if ops == [] then s else Apply(ApplyAll(s, ops[..|ops| - 1]), ops[|ops| - 1])
  }

  /** The user's own deposit percentage: the last one set and not cleared since. */
  function LastUserDeposit(ops: seq<FeeOp>, userID: string): Option<real> {
    if ops == [] then None
    else
      var op := ops[|ops| - 1];
      if Accepted(op) && op.ClearUserFees? && op.userID == userID then None
      else if Accepted(op) && op.SetUserFees? && op.userID == userID && op.depositPct.Some? then op.depositPct
      else LastUserDeposit(ops[..|ops| - 1], userID)
  }

  function LastUserWithdrawal(ops: seq<FeeOp>, userID: string): Option<real> {
    if ops == [] then None
    else
      var op := ops[|ops| - 1];
      if Accepted(op) && op.ClearUserFees? && op.userID == userID then None
      else if Accepted(op) && op.SetUserFees? && op.userID == userID && op.withdrawalPct.Some? then op.withdrawalPct
      else LastUserWithdrawal(ops[..|ops| - 1], userID)
  }

  /** The last global pair set, or the initial one. */
  function LastGlobal(ops: seq<FeeOp>): (real, real) {
    if ops == [] then (0.0, 0.0)
    else
      var op := ops[|ops| - 1];
      if Accepted(op) && op.SetFees? then (op.deposit, op.withdrawal) else LastGlobal(ops[..|ops| - 1])
  }

  const NEW_FEES := FeeState(0.0, 0.0, map[])

  /** After any calls, refused ones included, a user pays what was last set for him
      and not cleared, otherwise what was last set for all. */
  lemma {:induction false} LastWriterWins(ops: seq<FeeOp>, userID: string)
    ensures var s := ApplyAll(NEW_FEES, ops);
            && OverrideOf(s, userID) == Override(LastUserDeposit(ops, userID), LastUserWithdrawal(ops, userID))
            && (s.deposit, s.withdrawal) == LastGlobal(ops)
  {
    if ops != [] { LastWriterWins(ops[..|ops| - 1], userID); }
  }

  /** What a user pays after these calls, as a percentage: for deposits... */
  function DepositPercent(ops: seq<FeeOp>, userID: string): real {
    match LastUserDeposit(ops, userID) case Some(p) => p case None => LastGlobal(ops).0
  }

  /** ...and for withdrawals. */
  function WithdrawalPercent(ops: seq<FeeOp>, userID: string): real {
    match LastUserWithdrawal(ops, userID) case Some(p) => p case None => LastGlobal(ops).1
  }

  /** After any calls the effective percentage of a user is his own, if one was set
      and not cleared since, and otherwise the last global one of the same kind. */
  lemma UsersPayWhatWasLastSet(ops: seq<FeeOp>, userID: string)
    ensures DepositFeeFor(ApplyAll(NEW_FEES, ops), userID) == DepositPercent(ops, userID)
    ensures WithdrawalFeeFor(ApplyAll(NEW_FEES, ops), userID) == WithdrawalPercent(ops, userID)
  {
    LastWriterWins(ops, userID);
  }

  /** What one call changes for a user: percentages from 0 to 100 are taken over,
      for all who have none of their own or for the one user named, and a call with
      any other percentage changes nothing for anybody. */
  lemma WhatAFeeCallChanges(s: FeeState, op: FeeOp, u: string)
    ensures var s' := Apply(s, op);
            var own := OverrideOf(s, u);
            match op
            case SetFees(d, w) =>
              var valid := 0.0 <= d <= 100.0 && 0.0 <= w <= 100.0;
              && DepositFeeFor(s', u) == (if valid && own.deposit == None then d else DepositFeeFor(s, u))
              && WithdrawalFeeFor(s', u) == (if valid && own.withdrawal == None then w else WithdrawalFeeFor(s, u))
            case SetUserFees(v, d, w) =>
              var valid := && (d.Some? ==> 0.0 <= d.value <= 100.0) && (w.Some? ==> 0.0 <= w.value <= 100.0)
                           && v != "" && u == v;
              && DepositFeeFor(s', u) == (if valid && d.Some? then d.value else DepositFeeFor(s, u))
              && WithdrawalFeeFor(s', u) == (if valid && w.Some? then w.value else WithdrawalFeeFor(s, u))
            case ClearUserFees(v) =>
              && DepositFeeFor(s', u) == (if v != "" && u == v then s.deposit else DepositFeeFor(s, u))
              && WithdrawalFeeFor(s', u) == (if v != "" && u == v then s.withdrawal else WithdrawalFeeFor(s, u))
  { }

  lemma {:induction false} ApplyFirst(s: FeeState, op: FeeOp, ops: seq<FeeOp>)
    ensures ApplyAll(s, [op] + ops) == ApplyAll(Apply(s, op), ops)
  {
    var all := [op] + ops;
    if ops == [] {
      assert all[..|all| - 1] == [] && all[|all| - 1] == op;
    } else {
      ApplyFirst(s, op, ops[..|ops| - 1]);
      assert all[..|all| - 1] == [op] + ops[..|ops| - 1] && all[|all| - 1] == ops[|ops| - 1];
    }
  }

  ghost predicate InRange(s: FeeState) {
    && Percent(s.deposit) && Percent(s.withdrawal)
    && forall u :: u in s.overrides ==>
         OptionalPercent(s.overrides[u].deposit) && OptionalPercent(s.overrides[u].withdrawal)
  }

  /** No call can put an effective percentage outside 0..100. */
  lemma ApplyKeepsRange(s: FeeState, op: FeeOp)
    requires InRange(s)
    ensures InRange(Apply(s, op))
    ensures forall u :: Percent(DepositFeeFor(Apply(s, op), u)) && Percent(WithdrawalFeeFor(Apply(s, op), u))
  { }

  /** FeeConfig and its handlers, over fields updated in place. */
  class FeeConfig {
    var depositFeePercent: real
    var withdrawalFeePercent: real
    var userOverrides: map<string, Override>

    function State(): FeeState
      reads this
    {
      FeeState(depositFeePercent, withdrawalFeePercent, userOverrides)
    }

    constructor ()
      ensures State() == NEW_FEES
    {
      depositFeePercent, withdrawalFeePercent, userOverrides := 0.0, 0.0, map[];
    }

    method GetDepositFeeForUser(userID: string) returns (percent: real, overridden: bool)
      ensures percent == DepositFeeFor(State(), userID)
      ensures overridden <==> OverrideOf(State(), userID).deposit.Some?
    {
      if userID in userOverrides && userOverrides[userID].deposit != None {
        return userOverrides[userID].deposit.value, true;
      }
      return depositFeePercent, false;
    }

    method GetWithdrawalFeeForUser(userID: string) returns (percent: real, overridden: bool)
      ensures percent == WithdrawalFeeFor(State(), userID)
      ensures overridden <==> OverrideOf(State(), userID).withdrawal.Some?
    {
      if userID in userOverrides && userOverrides[userID].withdrawal != None {
        return userOverrides[userID].withdrawal.value, true;
      }
      return withdrawalFeePercent, false;
    }

    method HandleSetFees(deposit: real, withdrawal: real) returns (status: nat)
      modifies this
      ensures State() == Apply(old(State()), SetFees(deposit, withdrawal))
      ensures status == if Accepted(SetFees(deposit, withdrawal)) then 200 else 400
    {
      if deposit < 0.0 || deposit > 100.0 { return 400; }
      if withdrawal < 0.0 || withdrawal > 100.0 { return 400; }
      depositFeePercent := deposit;
      withdrawalFeePercent := withdrawal;
      return 200;
    }

    method HandleSetUserFees(userID: string, deposit: Option<real>, withdrawal: Option<real>) returns (status: nat)
      modifies this
      ensures State() == Apply(old(State()), SetUserFees(userID, deposit, withdrawal))
      ensures status == if Accepted(SetUserFees(userID, deposit, withdrawal)) then 200 else 400
    {
      if userID == "" { return 400; }
      if deposit == None && withdrawal == None { return 400; }
      if deposit != None && (deposit.value < 0.0 || deposit.value > 100.0) { return 400; }
      if withdrawal != None && (withdrawal.value < 0.0 || withdrawal.value > 100.0) { return 400; }
      var o := if userID in userOverrides then userOverrides[userID] else Override(None, None);
      if deposit != None { o := o.(deposit := deposit); }
      if withdrawal != None { o := o.(withdrawal := withdrawal); }
      userOverrides := userOverrides[userID := o];
      return 200;
    }

    method HandleClearUserFees(userID: string) returns (status: nat)
      modifies this
      ensures State() == Apply(old(State()), ClearUserFees(userID))
      ensures status == if userID == "" then 400 else 200
    {
      if userID == "" { return 400; }
      userOverrides := userOverrides - {userID};
      return 200;
    }
  }
}
