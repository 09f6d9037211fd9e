/** The eSpace-to-Core screen of the cross-space bridge: step 1 transfers a
    token to the bridge on eSpace (normal mode through the form, advanced mode
    by self-transfer to a mirror address), step 2 withdraws it on Core. */
module ESpace2Core {
  import opened Common
  import opened AmountNormalization
  import opened AuthConnectButton

  // ---- which wallets gate which step ----

  /** The withdraw step needs Fluent for the native token and both wallets,
      Fluent named first, for any other token. */
  function WithdrawGate(isNative: bool): (req: RequiredWallet)
    ensures isNative ==> req == FluentOnly
    ensures !isNative ==> req == BothFluentFirst
    ensures forall env :: GateOpen(req, env) <==>
      if isNative then Ready(env, Fluent) else Ready(env, Fluent) && Ready(env, MetaMask)
  {
    if isNative then FluentOnly else BothFluentFirst
  }

  datatype Mode = Normal | Advanced

  /** In normal mode the transfer form needs both wallets, MetaMask named
      first; in advanced mode only the mirror address is shown, behind Fluent. */
  function TransferGate(mode: Mode): (req: RequiredWallet)
    ensures mode == Normal ==> req == BothMetaMaskFirst
    ensures mode == Normal ==> forall env :: GateOpen(req, env) <==> Ready(env, Fluent) && Ready(env, MetaMask)
    ensures mode == Advanced ==> req == FluentOnly
  {
    if mode == Normal then BothMetaMaskFirst else FluentOnly
  }

  // ---- the transfer form ----

  /** What a blur on the amount input decides. */
  datatype BlurVerdict = Ignore | Reject | Accept

  /** The blur check: an empty input is ignored, a negative amount is
      rejected, an unknown maximum ignores the input, and an amount above
      the maximum is rejected; the rest is accepted. */
  function BlurCheck(entry: Amount, maxAvailable: Option<nat>): (v: BlurVerdict)
    ensures v == Accept <==> entry.text != "" && 0 <= entry.units && maxAvailable.Some? && entry.units <= maxAvailable.value
    ensures v == Reject <==> entry.text != "" && (entry.units < 0 || (maxAvailable.Some? && entry.units > maxAvailable.value))
  {
    if entry.text == "" then Ignore
    else if entry.units < 0 then Reject
    else if maxAvailable.None? then Ignore
    else if entry.units > maxAvailable.value then Reject
    else Accept
  }

  /** The "will receive" text for a normalised amount. */
  function ReceivedText(amount: string, symbol: string): (t: string)
    ensures amount == "" ==> t == "--"
    ensures amount != "" ==> t == amount + " " + symbol
  {
    if amount != "" then amount + " " + symbol else "--"
  }

  /** The transfer form's state: the form's `amount` value, the transfer
      balance kept in the store, and the text of the "will receive" line,
      which exists only once its element is mounted. */
  class TransferForm {
    var amountValue: string
    var transferBalance: string
    var receivedText: string
    const receivedMounted: bool

    constructor (receivedMounted: bool)
      ensures this.receivedMounted == receivedMounted
      ensures amountValue == "" && transferBalance == "" && receivedText == ""
    {
      this.receivedMounted := receivedMounted;
      amountValue, transferBalance, receivedText := "", "", "";
    }

    /** `setAmount`: with an error only the "will receive" text changes;
        otherwise the normalised amount goes to the form and the store. */
    method SetAmount(val: string, error: string, symbol: string)
      modifies this
      ensures !receivedMounted ==> unchanged(this)
      ensures receivedMounted && error != "" ==>
        receivedText == error && amountValue == old(amountValue) && transferBalance == old(transferBalance)
      ensures receivedMounted && error == "" ==>
        && amountValue == Normalize(val) && transferBalance == Normalize(val)
        && receivedText == ReceivedText(Normalize(val), symbol)
    {
      if !receivedMounted {
        return;
      }
      if error != "" {
        receivedText := error;
        return;
      }
      var v := Normalize(val);
      amountValue := v;
      transferBalance := v;
      receivedText := ReceivedText(v, symbol);
    }

    /** `handleCheckAmount`, run when the amount input loses focus. */
    method CheckAmount(entry: Amount, maxAvailable: Option<nat>, symbol: string)
      modifies this
      ensures amountValue == old(amountValue) || amountValue == Normalize(entry.text)
      ensures !receivedMounted || BlurCheck(entry, maxAvailable) == Ignore ==> unchanged(this)
      ensures receivedMounted && BlurCheck(entry, maxAvailable) == Accept ==>
        && amountValue == Normalize(entry.text) && transferBalance == Normalize(entry.text)
        && receivedText == ReceivedText(Normalize(entry.text), symbol)
      ensures receivedMounted && BlurCheck(entry, maxAvailable) == Reject ==>
        amountValue == old(amountValue) && transferBalance == old(transferBalance) && receivedText == "--"
    {
      if entry.text == "" {
        return;
      }
      if entry.units < 0 {
        SetAmount("", "--", symbol);
        return;
      }
      if maxAvailable.None? {
        return;
      }
      if entry.units > maxAvailable.value {
        SetAmount("", "--", symbol);
        return;
      }
      SetAmount(entry.text, "", symbol);
    }

    /** MAX: the maximum, as decimal text, becomes the amount when known. */
    method ClickMax(maxText: Option<string>, symbol: string)
      modifies this
      ensures maxText.None? || !receivedMounted ==> unchanged(this)
      ensures maxText.Some? && receivedMounted ==>
        && amountValue == Normalize(maxText.value) && transferBalance == Normalize(maxText.value)
        && receivedText == ReceivedText(Normalize(maxText.value), symbol)
    {
      if maxText.None? {
        return;
      }
      SetAmount(maxText.value, "", symbol);
    }

    /** Clears the amount; run when the MetaMask account or the current
        token changes, and after a transfer that asks for it. */
    method ClearAmount(symbol: string)
      modifies this
      ensures receivedMounted ==> amountValue == "" && transferBalance == "" && receivedText == "--"
      ensures !receivedMounted ==> unchanged(this)
    {
      NoPointUnchanged("");
      SetAmount("", "", symbol);
    }

    /** After a submitted transfer settles: the amount is cleared only when
        the transfer handler asks for it. */
    method AfterTransfer(needClearAmount: bool, symbol: string)
      modifies this
      ensures !needClearAmount || !receivedMounted ==> unchanged(this)
      ensures needClearAmount && receivedMounted ==>
        amountValue == "" && transferBalance == "" && receivedText == "--"
    {
      if needClearAmount {
        ClearAmount(symbol);
      }
    }
  }

  /** What a click on the transfer button does before the form submits. */
  datatype SubmitGuard = Proceed | BlockWithWarning

  /** `checkNeedWithdraw`: a known, positive withdrawable balance blocks
      the submission (and shows a warning) until it has been withdrawn. */
  function CheckNeedWithdraw(withdrawable: Option<nat>): (g: SubmitGuard)
    ensures g == BlockWithWarning <==> withdrawable.Some? && withdrawable.value > 0
  {
    if withdrawable.Some? && withdrawable.value > 0 then BlockWithWarning else Proceed
  }

  /** The maximum available balance is known and positive. */
  predicate BalanceGreaterThanZero(maxAvailable: Option<nat>) {
    maxAvailable.Some? && maxAvailable.value > 0
  }

  /** The transfer button can be clicked when an approval is needed, or when
      none is needed and there is something to transfer; while the approval
      check is pending (`needApprove` unknown) it cannot. */
  function CanClickButton(needApprove: Option<bool>, maxAvailable: Option<nat>): (ok: bool)
    ensures needApprove == Some(true) ==> ok
    ensures needApprove.None? ==> !ok
    ensures needApprove == Some(false) ==> (ok <==> BalanceGreaterThanZero(maxAvailable))
  {
    needApprove == Some(true) || (needApprove == Some(false) && BalanceGreaterThanZero(maxAvailable))
  }

  /** The amount input and its MAX button are disabled unless the maximum is
      known and positive. */
  function AmountInputDisabled(maxAvailable: Option<nat>): (disabled: bool)
    ensures disabled <==> maxAvailable.None? || maxAvailable.value == 0
  {
    !BalanceGreaterThanZero(maxAvailable)
  }

  function TransferButtonText(needApprove: Option<bool>): (t: string)
    ensures t == "Approve" <==> needApprove == Some(true)
    ensures t == "Transfer" <==> needApprove == Some(false)
    ensures t == "Checking Approval..." <==> needApprove.None?
  {
    match needApprove
    case Some(b) => if b then "Approve" else "Transfer"
    case None => "Checking Approval..."
  }

  /** The form's own validation of the `amount` field on submit: required
      unless an approval is pending, and, when filled in, at least one
      minimal unit and at most the maximum available when that is known. */
  function AmountFieldValid(needApprove: Option<bool>, entry: Amount, maxAvailable: Option<nat>): (valid: bool)
    ensures needApprove == Some(true) && entry.text == "" ==> valid
    ensures valid && needApprove != Some(true) ==> entry.text != "" && entry.units >= 1
    ensures valid && entry.text != "" && maxAvailable.Some? ==> 1 <= entry.units <= maxAvailable.value
    ensures entry.text != "" ==>
      (valid <==> entry.units >= 1 && (maxAvailable.None? || entry.units <= maxAvailable.value))
  {
    && (needApprove != Some(true) ==> entry.text != "")
    && (entry.text != "" ==> entry.units >= 1)
    && (entry.text != "" && maxAvailable.Some? ==> entry.units <= maxAvailable.value)
  }

  /** What one click on the transfer button leads to. */
  datatype TransferClick = Inert | WithdrawFirstWarning | Invalid | Submitted(amount: string)

  /** A click on the transfer button: nothing while the button is disabled,
      the withdraw-first warning (and no submission) while a withdrawable
      balance is pending, then the form's validation, and finally the
      transfer handler with the field's text. */
  function ClickTransfer(needApprove: Option<bool>, maxAvailable: Option<nat>, withdrawable: Option<nat>,
                         entry: Amount): (c: TransferClick)
    ensures c.Submitted? <==> (CanClickButton(needApprove, maxAvailable)
      && CheckNeedWithdraw(withdrawable) == Proceed && AmountFieldValid(needApprove, entry, maxAvailable))
    ensures c.Submitted? ==> c.amount == entry.text
    ensures c == WithdrawFirstWarning <==> CanClickButton(needApprove, maxAvailable) && withdrawable.Some? && withdrawable.value > 0
    ensures c.Submitted? && needApprove == Some(false) ==> maxAvailable.Some? && 1 <= entry.units <= maxAvailable.value
  {
    if !CanClickButton(needApprove, maxAvailable) then Inert
    else if CheckNeedWithdraw(withdrawable) == BlockWithWarning then WithdrawFirstWarning
    else if !AmountFieldValid(needApprove, entry, maxAvailable) then Invalid
    else Submitted(entry.text)
  }

  /** The hint under the transfer button appears while Fluent is active and
      an approval is needed. */
  function ApproveTipShown(fluentStatus: WalletStatus, needApprove: Option<bool>): (shown: bool)
    ensures shown <==> fluentStatus == Active && needApprove == Some(true)
  {
    fluentStatus == Active && needApprove == Some(true)
  }

  /** How the eSpace balance line shows the current token's balance. */
  datatype BalanceDisplay = BalanceLoading | BelowMillionth | FullBalance(units: nat)

  /** One millionth of a standard unit, in minimal units. */
  const MILLIONTH: nat := ONE_STANDARD_UNIT / 1_000_000

  /** An unknown balance shows "loading...", a positive balance below one
      millionth of a unit shows "＜0.000001" with the exact figure in a
      tooltip, and any other balance (zero included) is shown in full. */
  function ShowBalance(balance: Option<nat>): (d: BalanceDisplay)
    ensures d == BalanceLoading <==> balance.None?
    ensures d == BelowMillionth <==> balance.Some? && 0 < balance.value < MILLIONTH
    ensures d.FullBalance? ==> d.units == balance.value && (d.units == 0 || d.units >= MILLIONTH)
  {
    match balance
    case None => BalanceLoading
    case Some(b) => if b != 0 && b < MILLIONTH then BelowMillionth else FullBalance(b)
  }

  /** How the "Withdrawable:" line shows the pending balance. */
  datatype WithdrawableDisplay = InFlight | Known(units: nat) | WithdrawableLoading | Unknown

  /** A withdrawal in flight shows "...", a known balance (zero included) is
      shown, and an unknown one shows "loading..." for the native token once
      the mirror address is known and "--" otherwise. */
  function ShowWithdrawable(inWithdraw: bool, withdrawable: Option<nat>, isNative: bool, hasMirrorAddress: bool): (d: WithdrawableDisplay)
    ensures d == InFlight <==> inWithdraw
    ensures d.Known? <==> !inWithdraw && withdrawable.Some?
    ensures d.Known? ==> d.units == withdrawable.value
    ensures d == WithdrawableLoading <==> !inWithdraw && withdrawable.None? && isNative && hasMirrorAddress
  {
    if inWithdraw then InFlight
    else if withdrawable.Some? then Known(withdrawable.value)
    else if isNative && hasMirrorAddress then WithdrawableLoading
    else Unknown
  }

  /** The withdraw button's `disabled`. With the wallets it needs active it
      is disabled exactly when the withdrawable balance is unknown or zero
      or a withdrawal is in flight; otherwise it is enabled only when one of
      those wallets is `not-active` (so a click can connect it). */
  function WithdrawDisabled(isNative: bool, fluentStatus: WalletStatus, metaMaskStatus: WalletStatus,
                            withdrawable: Option<nat>, inWithdraw: bool): (disabled: bool)
    ensures var walletsActive := fluentStatus == Active && (isNative || metaMaskStatus == Active);
      && (walletsActive ==> (disabled <==> withdrawable.None? || withdrawable.value == 0 || inWithdraw))
      && (!walletsActive ==> (disabled <==> fluentStatus != NotActive && (isNative || metaMaskStatus != NotActive)))
  {
    if isNative then
      if fluentStatus == Active then withdrawable.None? || withdrawable.value == 0 || inWithdraw
      else fluentStatus != NotActive
    else
      if fluentStatus == Active && metaMaskStatus == Active then
        withdrawable.None? || withdrawable.value == 0 || inWithdraw
      else fluentStatus != NotActive && metaMaskStatus != NotActive
  }

  function WithdrawButtonText(inWithdraw: bool): (t: string)
    ensures t == "Withdrawing..." <==> inWithdraw
    ensures t == "Withdraw" <==> !inWithdraw
  {
    if inWithdraw then "Withdrawing..." else "Withdraw"
  }

  // ---- the persisted transfer mode ----

  function ModeText(m: Mode): string {
    if m == Normal then "normal" else "advanced"
  }

  function Toggle(m: Mode): (t: Mode)
    ensures t != m
  {
    if m == Normal then Advanced else Normal
  }

  /** The transfer mode and the record `eSpace-transfer2bridge-mode` of the
      `cross-space` namespace that keeps it. */
  class TransferModeState {
    var mode: Mode
    var stored: Option<string>

    /** A stored "normal" or "advanced" is honoured; anything else (nothing
        included) is overwritten with "normal". */
    constructor (stored: Option<string>)
      ensures stored == Some("normal") || stored == Some("advanced") ==>
        this.stored == stored && ModeText(mode) == stored.value
      ensures !(stored == Some("normal") || stored == Some("advanced")) ==>
        mode == Normal && this.stored == Some("normal")
    {
      if stored == Some("normal") {
        mode, this.stored := Normal, stored;
      } else if stored == Some("advanced") {
        mode, this.stored := Advanced, stored;
      } else {
        mode, this.stored := Normal, Some("normal");
      }
    }

    /** The mode and the stored record always agree after a change. */
    method SwitchMode()
      modifies this
      ensures mode == Toggle(old(mode)) && stored == Some(ModeText(mode))
    {
      var next := Toggle(mode);
      stored := Some(ModeText(next));
      mode := next;
    }

    /** A token that is not native forces, and persists, normal mode; the
        native token leaves the mode alone. */
    method OnCurrentTokenChange(isNative: bool)
      modifies this
      ensures !isNative ==> mode == Normal && stored == Some("normal")
      ensures isNative ==> unchanged(this)
    {
      if !isNative {
        stored := Some("normal");
        mode := Normal;
      }
    }
  }

  /** The mode switch is offered for the native token only, and names the
      mode it switches to. */
  function ModeSwitchCaption(isNative: bool, m: Mode): (caption: Option<string>)
    ensures caption.Some? <==> isNative
    ensures caption == Some("Advanced Mode") <==> isNative && m == Normal
    ensures caption == Some("Normal Mode") <==> isNative && m == Advanced
  {
    if !isNative then None
    else match m
      case Normal => Some("Advanced Mode")
      case Advanced => assert "Normal Mode"[0] != "Advanced Mode"[0]; Some("Normal Mode")
  }
}
