/** The payment dapp's deposit modal: APP coins are bought with a token in
    two phases, an approval of the token while the allowance is below the
    amount and then the deposit itself. */
module Deposit {
  import opened Common

  /** The OK button's `type`: 0 deposits, 1 approves first. */
  datatype Phase = ConfirmPhase | ApprovePhase

  function PhaseCode(p: Phase): (code: nat)
    ensures code <= 1
    ensures code == 1 <==> p == ApprovePhase
  {
    if p.ConfirmPhase? then 0 else 1
  }

  /** The entered amount, `toValue || '0'`: no value and an empty text both
      count as zero. */
  function AmountOrZero(toValue: Option<Amount>): (units: int)
    ensures toValue.None? || toValue.value.text == "" ==> units == 0
    ensures toValue.Some? && toValue.value.text != "" ==> units == toValue.value.units
  {
    if toValue.Some? && toValue.value.text != "" then toValue.value.units else 0
  }

  /** The phase `checkAllowance` picks: approve exactly when the allowance
      is below the amount. */
  function PhaseFor(allowance: nat, toValue: Option<Amount>): (p: Phase)
    ensures p == ApprovePhase <==> allowance < AmountOrZero(toValue)
  {
    if allowance < AmountOrZero(toValue) then ApprovePhase else ConfirmPhase
  }

  const INSUFFICIENT_BALANCE: string := "Insufficient Balance"

  /** The error message after the amount or the balance changes: with both
      present it says whether the amount exceeds the balance; with either
      missing the previous message stays. */
  function ErrMsgFor(toValue: Option<Amount>, balance: Option<nat>, previous: string): (msg: string)
    ensures balance.None? || toValue.None? || toValue.value.text == "" ==> msg == previous
    ensures balance.Some? && toValue.Some? && toValue.value.text != "" ==>
      (msg == INSUFFICIENT_BALANCE <==> toValue.value.units > balance.value)
      && (msg == "" <==> toValue.value.units <= balance.value)
  {
    if balance.Some? && toValue.Some? && toValue.value.text != "" then
      if toValue.value.units > balance.value then INSUFFICIENT_BALANCE else ""
    else previous
  }

  /** The view refreshed after a deposit. */
  datatype Refresh = PaidApps | Apps | BillingResource | NoRefresh

  /** `sub` occurs in `s`, as `String.prototype.includes` tests. */
  predicate Contains(s: string, sub: string)
    decreases |s|
  {
    (|sub| <= |s| && s[..|sub|] == sub) || (s != [] && Contains(s[1..], sub))
  }

  /** Exactly one view is refreshed, chosen by the first rule that applies:
      the paid-apps path, then the apps path, then a route `type` (which
      counts only when non-empty). */
  function RefreshFor(pathname: string, appType: Option<string>): (r: Refresh)
    ensures r == PaidApps <==> Contains(pathname, "/consumer/paid-apps")
    ensures r == Apps <==> !Contains(pathname, "/consumer/paid-apps") && Contains(pathname, "/consumer/apps")
    ensures r == BillingResource <==>
      !Contains(pathname, "/consumer/paid-apps") && !Contains(pathname, "/consumer/apps")
      && appType.Some? && appType.value != ""
  {
    if Contains(pathname, "/consumer/paid-apps") then PaidApps
    else if Contains(pathname, "/consumer/apps") then Apps
    else if appType.Some? && appType.value != "" then BillingResource
    else NoRefresh
  }

  /** What the modal asks of the outside world, in order. */
  datatype Effect =
    | SetLoading(on: bool)
    | GetAllowance
    | ApproveCall
    | DepositCall(amount: Option<string>)
    | Toast(text: string)
    | Refreshed(view: Refresh)

  function TextOf(toValue: Option<Amount>): Option<string> {
    if toValue.Some? then Some(toValue.value.text) else None
  }

  function RefreshEffects(r: Refresh): (es: seq<Effect>)
    ensures r == NoRefresh <==> es == []
    ensures r != NoRefresh ==> es == [Refreshed(r)]
  {
    if r == NoRefresh then [] else [Refreshed(r)]
  }

  /** The OK button is disabled for the amount "0", for no amount at all,
      and while an error message shows. */
  function OkDisabled(toValue: Option<Amount>, errMsg: string): (disabled: bool)
    ensures disabled <==> toValue.None? || toValue.value.text == "0" || errMsg != ""
  {
    toValue.None? || toValue.value.text == "0" || errMsg != ""
  }

  function OkText(p: Phase): (t: string)
    ensures t == "Confirm" <==> PhaseCode(p) == 0
    ensures t == "Approve" <==> PhaseCode(p) == 1
  {
    if p.ConfirmPhase? then "Confirm" else "Approve"
  }

  /** The amount "10" the modal opens with, in minimal units. */
  const INITIAL_AMOUNT: Amount := Amount("10", 10 * ONE_STANDARD_UNIT)

  class DepositModal {
    var loading: bool
    var visible: bool
    var errMsg: string
    var toValue: Option<Amount>
    var phase: Phase

    /** A fresh modal: hidden, confirming, with the amount "10" already
        checked against the balance. */
    constructor (balance: Option<nat>)
      ensures !loading && !visible && phase == ConfirmPhase && toValue == Some(INITIAL_AMOUNT)
      ensures errMsg == ErrMsgFor(Some(INITIAL_AMOUNT), balance, "")
    {
      loading, visible, phase := false, false, ConfirmPhase;
      toValue := Some(INITIAL_AMOUNT);
      errMsg := ErrMsgFor(Some(INITIAL_AMOUNT), balance, "");
    }

    /** The balance check, run whenever the balance or the amount changes. */
    method SyncErrMsg(balance: Option<nat>)
      modifies this
      ensures errMsg == ErrMsgFor(toValue, balance, old(errMsg))
      ensures loading == old(loading) && visible == old(visible) && toValue == old(toValue) && phase == old(phase)
    {
      errMsg := ErrMsgFor(toValue, balance, errMsg);
    }

    /** A new amount from the input, followed by the balance check. An
        amount known to exceed the balance disables OK. */
    method ChangeAmount(v: Option<Amount>, balance: Option<nat>)
      modifies this
      ensures toValue == v && errMsg == ErrMsgFor(v, balance, old(errMsg))
      ensures loading == old(loading) && visible == old(visible) && phase == old(phase)
      ensures balance.Some? && v.Some? && v.value.text != "" && v.value.units > balance.value ==> OkDisabled(toValue, errMsg)
    {
      toValue := v;
      SyncErrMsg(balance);
    }

    /** `checkAllowance`: a failed query leaves the phase alone. */
    method CheckAllowance(allowance: Option<nat>)
      modifies this
      ensures allowance.Some? ==> phase == PhaseFor(allowance.value, toValue)
      ensures allowance.None? ==> phase == old(phase)
      ensures loading == old(loading) && visible == old(visible) && toValue == old(toValue) && errMsg == old(errMsg)
    {
      if allowance.Some? {
        phase := PhaseFor(allowance.value, toValue);
      }
    }

    /** Opening the modal; the allowance is checked only when the modal goes
        from hidden to visible. */
    method ShowModal(allowance: Option<nat>) returns (effects: seq<Effect>)
      modifies this
      ensures visible
      ensures effects == (if old(visible) then [] else [GetAllowance])
      ensures !old(visible) && allowance.Some? ==> phase == PhaseFor(allowance.value, toValue)
      ensures old(visible) || allowance.None? ==> phase == old(phase)
      ensures loading == old(loading) && toValue == old(toValue) && errMsg == old(errMsg)
    {
      effects := [];
      if !visible {
        visible := true;
        effects := [GetAllowance];
        CheckAllowance(allowance);
      }
    }

    method Cancel()
      modifies this
      ensures !visible
      ensures loading == old(loading) && toValue == old(toValue) && errMsg == old(errMsg) && phase == old(phase)
    {
      visible := false;
    }

    /** `handleOk`. In the approve phase it approves, re-checks the
        allowance and never deposits; in the confirm phase it deposits the
        amount, closes the modal and refreshes one view. Each call's
        outcome is a parameter: a failed call ends the attempt, the error
        is swallowed, and `loading` is cleared on every path. */
    method HandleOk(approveOk: bool, allowanceAfter: Option<nat>, depositOk: bool,
                    pathname: string, appType: Option<string>) returns (effects: seq<Effect>)
      modifies this
      ensures !loading
      ensures |effects| >= 3 && effects[0] == SetLoading(true) && effects[|effects| - 1] == SetLoading(false)
      ensures toValue == old(toValue) && errMsg == old(errMsg)
      ensures old(phase) == ApprovePhase ==> forall i :: 0 <= i < |effects| ==> !effects[i].DepositCall?
      ensures old(phase) == ApprovePhase ==>
        && visible == old(visible)
        && effects == [SetLoading(true), ApproveCall]
                      + (if approveOk then [GetAllowance] else [])
                      + (if approveOk && allowanceAfter.Some? then [Toast("Approve success")] else [])
                      + [SetLoading(false)]
        && phase == (if approveOk && allowanceAfter.Some? then PhaseFor(allowanceAfter.value, toValue) else old(phase))
      ensures old(phase) == ConfirmPhase ==>
        && phase == old(phase)
        && visible == (old(visible) && !depositOk)
        && effects == [SetLoading(true), DepositCall(TextOf(toValue))]
                      + (if depositOk then [Toast("Deposit success")] + RefreshEffects(RefreshFor(pathname, appType)) else [])
                      + [SetLoading(false)]
    {
      loading := true;
      effects := [SetLoading(true)];
      if phase == ApprovePhase {
        effects := effects + [ApproveCall];
        if approveOk {
          effects := effects + [GetAllowance];
          if allowanceAfter.Some? {
            CheckAllowance(allowanceAfter);
            effects := effects + [Toast("Approve success")];
          }
        }
      } else {
        effects := effects + [DepositCall(TextOf(toValue))];
        if depositOk {
          visible := false;
          effects := effects + [Toast("Deposit success")] + RefreshEffects(RefreshFor(pathname, appType));
        }
      }
      loading := false;
      effects := effects + [SetLoading(false)];
    }
  }
}
