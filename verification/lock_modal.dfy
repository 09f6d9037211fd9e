/** The governance dashboard's lock modal: lock CFX for voting rights, add
    to a locked amount, or extend the locking period, with a notice to
    confirm before the lock is sent. */
module LockModal {
  import opened Common

  datatype LockType = Lock | Add | Extend

  function Title(t: LockType): (s: string)
    ensures t == Lock ==> s == "Lock"
    ensures t == Add ==> s == "Add locking amount"
    ensures t == Extend ==> s == "Extend locking period"
  {
    match t
    case Lock => "Lock"
    case Add => "Add locking amount"
    case Extend => "Extend locking period"
  }

  // ---- estimates ----

  /** The gap, in blocks, the estimates use: adding keeps the current gap,
      the other kinds use the gap of the chosen period. */
  function EstimateGapBlockNumber(t: LockType, currentGap: Option<nat>, chosenGap: Option<nat>): (gap: Option<nat>)
    ensures t == Add ==> gap == currentGap
    ensures t != Add ==> gap == chosenGap
  {
    if t == Add then currentGap else chosenGap
  }

  /** The entered amount, an empty field counting as zero. */
  function EnteredUnits(amount: Amount): (units: int)
    ensures amount.text == "" ==> units == 0
    ensures amount.text != "" ==> units == amount.units
  {
    if amount.text == "" then 0 else amount.units
  }

  /** The balance the voting rights are estimated on: the locked balance
      when extending, otherwise the entered amount on top of the locked
      balance (an unknown locked balance counting as zero). */
  function EstimateBalance(t: LockType, amount: Amount, locked: Option<nat>): (b: Option<int>)
    ensures t == Extend ==> b == (if locked.Some? then Some(locked.value as int) else None)
    ensures t != Extend ==> b == Some(EnteredUnits(amount) + locked.GetOr(0))
  {
    if t == Extend then (if locked.Some? then Some(locked.value as int) else None)
    else Some(EnteredUnits(amount) + locked.GetOr(0))
  }

  /** Voting rights per CFX for a gap; `ratePerCfx` stands for the store's
      conversion, which is not part of this model. */
  function EstimateVotingRightsPerCfx(gap: Option<nat>, ratePerCfx: nat -> nat): (r: Option<nat>)
    ensures r.Some? <==> gap.Some?
    ensures r.Some? ==> r.value == ratePerCfx(gap.value)
  {
    if gap.Some? then Some(ratePerCfx(gap.value)) else None
  }

  /** The final voting rights: defined exactly when both the rate and the
      balance are, and then their product. */
  function EstimateVotingRights(perCfx: Option<nat>, balance: Option<int>): (r: Option<int>)
    ensures r.Some? <==> perCfx.Some? && balance.Some?
    ensures r.Some? ==> r.value == perCfx.value * balance.value
  {
    if perCfx.Some? && balance.Some? then Some(perCfx.value * balance.value) else None
  }

  /** The whole estimate chain: no gap, no voting rights; when extending,
      no known locked balance, no voting rights either. */
  lemma VotingRightsNeedGap(t: LockType, currentGap: Option<nat>, chosenGap: Option<nat>,
                            amount: Amount, locked: Option<nat>, ratePerCfx: nat -> nat)
    ensures var gap := EstimateGapBlockNumber(t, currentGap, chosenGap);
      var rights := EstimateVotingRights(EstimateVotingRightsPerCfx(gap, ratePerCfx), EstimateBalance(t, amount, locked));
      && (rights.Some? <==> gap.Some? && (t != Extend || locked.Some?))
      && (t == Add && currentGap.Some? ==>
            rights == Some(ratePerCfx(currentGap.value) * (EnteredUnits(amount) + locked.GetOr(0))))
  {
  }

  // ---- the form ----

  /** The amount section is absent when extending, the period section when
      adding; the line repeating the available balance appears when adding. */
  predicate AmountSectionShown(t: LockType) { t != Extend }
  predicate PeriodSectionShown(t: LockType) { t != Add }
  predicate AvailableLineShown(t: LockType) { t == Add }

  /** Every kind shows at least one section; only locking shows both, and
      the available line appears only under an amount section that stands
      alone. */
  lemma SectionsPerKind(t: LockType)
    ensures AmountSectionShown(t) || PeriodSectionShown(t)
    ensures AmountSectionShown(t) && PeriodSectionShown(t) <==> t == Lock
    ensures AvailableLineShown(t) ==> AmountSectionShown(t) && !PeriodSectionShown(t)
  {
  }

  /** The amount input is disabled unless the available balance is known and
      positive. */
  function AmountInputDisabled(available: Option<nat>): (disabled: bool)
    ensures disabled <==> available.None? || available.value == 0
  {
    !(available.Some? && available.value > 0)
  }

  /** The form's validation: an amount is required, of at least one minimal
      unit and at most the available balance when that is known, in the
      amount section; a period is required in the period section. */
  function FormValid(t: LockType, amount: Amount, period: string, available: Option<nat>): (valid: bool)
    ensures t == Extend ==> (valid <==> period != "")
    ensures t == Add ==>
      (valid <==> amount.text != "" && amount.units >= 1 && (available.None? || amount.units <= available.value))
    ensures t == Lock ==> (valid <==> period != "" && amount.text != "" && amount.units >= 1 &&
                                      (available.None? || amount.units <= available.value))
  {
    && (AmountSectionShown(t) ==>
          amount.text != "" && amount.units >= 1 && (available.Some? ==> amount.units <= available.value))
    && (PeriodSectionShown(t) ==> period != "")
  }

  /** The arguments of one `handleLock` call. */
  datatype LockRequest = LockRequest(increasedLockBalance: Option<int>, gapBlockNumber: Option<nat>)

  /** The request a confirmed submission sends: an increase only for a
      non-empty amount field (there is none when extending), and the gap of
      the submitted period (there is none when adding); `periodToGap` stands
      for the slider's conversion, which is not part of this model. */
  function RequestFor(t: LockType, amount: Amount, period: string, periodToGap: Option<string> -> Option<nat>): (r: LockRequest)
    ensures r.increasedLockBalance.Some? <==> t != Extend && amount.text != ""
    ensures r.increasedLockBalance.Some? ==> r.increasedLockBalance.value == amount.units
    ensures r.gapBlockNumber == periodToGap(if t != Add then Some(period) else None)
  {
    var amountField := if t != Extend then Some(amount) else None;
    var periodField := if t != Add then Some(period) else None;
    LockRequest(
      if amountField.Some? && amountField.value.text != "" then Some(amountField.value.units) else None,
      periodToGap(periodField))
  }

  /** The state of one open lock modal: whether the confirmation notice is
      up, and the form's amount and period fields. */
  class LockForm {
    const kind: LockType
    var inDoubleConfirm: bool
    var amount: Amount
    var period: string

    constructor (kind: LockType, period: string)
      ensures this.kind == kind && !inDoubleConfirm && amount.text == "" && this.period == period
    {
      this.kind := kind;
      inDoubleConfirm := false;
      amount := Amount("", 0);
      this.period := period;
    }

    method EnterAmount(a: Amount)
      modifies this
      ensures amount == a && inDoubleConfirm == old(inDoubleConfirm) && period == old(period)
    {
      amount := a;
    }

    method ChoosePeriod(p: string)
      modifies this
      ensures period == p && inDoubleConfirm == old(inDoubleConfirm) && amount == old(amount)
    {
      period := p;
    }

    /** A submission of the form. An invalid form changes nothing. The first
        valid submission only puts up the notice; a valid submission from
        the notice sends the lock, and the amount is cleared exactly when
        the lock resolves to `true` (`lockOutcome` is that resolution, or
        `None` while it never resolves). */
    method Submit(available: Option<nat>, periodToGap: Option<string> -> Option<nat>, lockOutcome: Option<bool>)
      returns (sent: Option<LockRequest>)
      modifies this
      ensures !FormValid(kind, old(amount), old(period), available) ==> sent.None? && unchanged(this)
      ensures FormValid(kind, old(amount), old(period), available) && !old(inDoubleConfirm) ==>
        sent.None? && inDoubleConfirm && amount == old(amount) && period == old(period)
      ensures FormValid(kind, old(amount), old(period), available) && old(inDoubleConfirm) ==>
        && sent == Some(RequestFor(kind, old(amount), old(period), periodToGap))
        && inDoubleConfirm && period == old(period)
        && (lockOutcome == Some(true) ==> amount.text == "")
        && (lockOutcome != Some(true) ==> amount == old(amount))
      ensures sent.Some? ==> old(inDoubleConfirm)
    {
      sent := None;
      if !FormValid(kind, amount, period, available) {
        return;
      }
      if !inDoubleConfirm {
        inDoubleConfirm := true;
        return;
      }
      sent := Some(RequestFor(kind, amount, period, periodToGap));
      if lockOutcome == Some(true) {
        amount := Amount("", 0);
      }
    }

    /** Cancel on the notice returns to the form. */
    method CancelConfirm()
      modifies this
      ensures !inDoubleConfirm && amount == old(amount) && period == old(period)
    {
      inDoubleConfirm := false;
    }
  }

  /** The module-level `hasInit` flag shared by every lock modal. */
  class Lifecycle {
    var hasInit: bool

    constructor ()
      ensures !hasInit
    {
      hasInit := false;
    }

    /** Mounting runs the account effect before setting the flag, so the
        modal hides itself on mount only when the flag was already set. */
    method Mount() returns (shouldHide: bool)
      modifies this
      ensures shouldHide == old(hasInit) && hasInit
    {
      shouldHide := hasInit;
      hasInit := true;
    }

    method Unmount()
      modifies this
      ensures !hasInit
    {
      hasInit := false;
    }

    /** A change of Fluent account hides the modal once it is initialised. */
    method AccountChanged() returns (shouldHide: bool)
      modifies this
      ensures shouldHide == hasInit && hasInit == old(hasInit)
    {
      shouldHide := hasInit;
    }
  }

  /** A first mount does not hide the modal, and any account change after
      it does; after unmounting, an account change hides nothing. */
  method MountThenAccountChange() returns (hideOnMount: bool, hideOnChange: bool, hideAfterUnmount: bool)
    ensures !hideOnMount && hideOnChange && !hideAfterUnmount
  {
    var l := new Lifecycle();
    hideOnMount := l.Mount();
    hideOnChange := l.AccountChanged();
    l.Unmount();
    hideAfterUnmount := l.AccountChanged();
  }
}
