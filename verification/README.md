# conflux-hub wallet gate and bridge flows, modelled in Dafny

This project models the decision and flow logic of the conflux-hub web dapps.
Conflux has two spaces: Core, reached through the Fluent wallet, and eSpace,
reached through MetaMask. The model covers these parts:

- **The wallet/network gate** (`AuthConnectButton`, with `HexChainId`).
  - Picks the one wallet an action needs.
  - Decides between showing the protected content and showing a
    connect/switch button.
  - Runs the connect and switch-chain flows, driven by the EIP-1193 error
    codes 4001 (user rejected) and 4902 (chain not added). The 4902 case
    leads to the `wallet_addEthereumChain` request of EIP-3085.
- **The cross-space current-token store** (`CurrentToken`).
  - The selected token, persisted under `currentToken` in the `cross-space`
    namespace.
  - A cache of recently selected tokens, keyed by native address and bounded
    at 9, one fewer than the number of common tokens.
  - The list of common tokens built from both.
- **The eSpace-to-Core screen** (`ESpace2Core`, with `AmountNormalization`).
  - The amount normalisation regex.
  - The blur check of the amount.
  - The guard for a pending withdrawable balance.
  - The transfer and withdraw buttons.
  - The persisted normal/advanced mode.
- **The payment deposit modal** (`Deposit`): approve first, then deposit, plus
  the balance check and the OK button.
- **The governance lock modal** (`LockModal`).
  - The estimates.
  - Submission with a confirmation step.
  - The module-level `hasInit` flag.
- **The dapp box routing hook** (`CurrentDapp`).

Each wallet or network call (connect, switch chain, add chain, allowance,
approve, deposit, lock) is a parameter giving its outcome. Amounts are integers
in minimal units, where one standard unit is 10^18. A decimal text and its value
travel together as `Amount(text, units)`. State that the source changes in place
is modelled as classes:

- the token store and its cache;
- the transfer form;
- the mode record;
- the deposit modal;
- the lock form;
- the `hasInit` flag.

Requests and toasts are returned as sequences.

Notes on the code's behaviour:

- **Wallet resolution for `Both-*`.** The code acts on the first-named wallet
  until that wallet is active and on its network. Only then does it move to the
  other wallet.
- **The common-token list.**
  - After a change the list is `[FansCoin, native token, ...cache]`.
  - At start-up it is `[native token, ...cache]`.
  - FansCoin is not native, so selecting it caches it.
- **The withdraw-first guard.** The guard blocks a transfer whenever the
  withdrawable balance is known and positive. It does not check whether the
  token is native.
- **The persisted current token.** Only a missing record falls back to
  FansCoin. There is no check for a corrupt record.

## Model

| member | source | states |
|---|---|---|
| HexChainId.TargetChainId | packages/common/modules/AuthConnectButton/index.tsx:45 | the chain id is "0x" followed by lower-case hex digits that read back as the network id, with no leading zero ("0x0" for zero) |
| HexChainId.FromHexToHex | packages/common/modules/AuthConnectButton/index.tsx:45 | reading back the digits of `toString(16)` gives the number again |
| HexChainId.TargetChainIdInjective | packages/common/modules/AuthConnectButton/index.tsx:45 | distinct network ids never share a target chain id |
| AuthConnectButton.ResolveWallet | packages/common/modules/AuthConnectButton/index.tsx:99-108 | a single tag resolves to itself; `Both-MetaMaskFirst` resolves to MetaMask iff MetaMask is not active or not on the eSpace network, and `Both-FluentFirst` works the same way with Fluent and the Core network |
| AuthConnectButton.Evaluate | packages/common/modules/AuthConnectButton/index.tsx:110-114 | Fluent is checked against the Core network and MetaMask against eSpace; `chainMatched` is equality of the optional chain id and the optional network id |
| AuthConnectButton.BothGateOpen | packages/common/modules/AuthConnectButton/index.tsx:99-108 | a `Both-*` gate is open iff both wallets are active and on their networks |
| AuthConnectButton.ButtonLabel | packages/common/modules/AuthConnectButton/index.tsx:145-150 | the caption for each status: an active wallet on its chain shows the content's own text (when it is a string), on the wrong chain "switch to" the network, not-active the Specific or Concise connect caption as `textType` picks, in-activating "connecting", not-installed "not installed" |
| AuthConnectButton.Render | packages/common/modules/AuthConnectButton/index.tsx:128-141 | content is shown iff the gate is open and the content is not a string; with a `Both-*` tag that means both wallets are ready; an explicit `disabled` wins, and otherwise the button is disabled iff the status is in-activating or not-installed; error style iff not-installed; the button's caption is `ButtonLabel` of the evaluated gate |
| AuthConnectButton.NoticeText | packages/common/modules/AuthConnectButton/index.tsx:34-71 | the toast texts of a connect success or cancel, a switch success or cancel, and an add-chain cancel |
| AuthConnectButton.NoticeTextInjective | packages/common/modules/AuthConnectButton/index.tsx:34-71 | different notices never share a text: the text tells the outcome, the wallet and the network |
| AuthConnectButton.AddChainParams | packages/common/modules/AuthConnectButton/index.tsx:54-64 | the add-chain request carries the target chain id, the network name, the currency "Conflux" with symbol CFX and 18 decimals, `[url]` and `[scan]` |
| AuthConnectButton.ConnectToWallet | packages/common/modules/AuthConnectButton/index.tsx:30-40 | one connect request; success notice iff it resolves, cancel notice iff rejected with 4001, no notice for any other rejection |
| AuthConnectButton.SwitchToChain | packages/common/modules/AuthConnectButton/index.tsx:42-74 | the switch goes to the target chain id; add-chain follows iff the switch is rejected with 4902, and the switch is never retried; each notice appears iff its condition holds, and any other rejection (of the switch, or of the add-chain request) shows no notice at all |
| AuthConnectButton.HandleClick | packages/common/modules/AuthConnectButton/index.tsx:116-126 | default is prevented and the wallet connected iff it is not active; an active wallet on the wrong chain is switched unless its network is unknown, with the add-chain request following iff the switch is rejected with 4902; the notices are those of the connect or switch flow, and none otherwise; `onClick` runs iff the wallet is ready |
| CurrentToken.Without | dapps/cross-space/src/store/currentToken.ts:92 | removing a key drops only that key, keeps the keys distinct, shrinks the cache by one iff the key was present, and leaves it unchanged otherwise |
| CurrentToken.Put | dapps/cross-space/src/store/currentToken.ts:82 | the stored token is found under its key; the capacity holds; no key gains another token; nothing else is lost while there is room or the key was already present |
| CurrentToken.TokensOf | dapps/cross-space/src/store/currentToken.ts:57 | the cache listed as tokens, entry by entry |
| CurrentToken.LookupIn | dapps/cross-space/src/store/currentToken.ts:82-83 | a token stored under some key appears in the listed cache |
| CurrentToken.CommonTokens | dapps/cross-space/src/store/currentToken.ts:83 | FansCoin, then the native token, then the cache in order |
| CurrentToken.TokenCache.constructor | dapps/cross-space/src/store/currentToken.ts:52-53 | the cache is bounded by its capacity and restores entries that fit its shape |
| CurrentToken.TokenCache.Set | dapps/cross-space/src/store/currentToken.ts:82 | the cache becomes `Put` of its old entries and keeps its invariant |
| CurrentToken.TokenCache.Delete | dapps/cross-space/src/store/currentToken.ts:92 | reports true iff the key was present, and the cache becomes `Without` the key |
| CurrentToken.TokenCache.ToArr | dapps/cross-space/src/store/currentToken.ts:57 | the cached tokens in entry order, one per entry |
| CurrentToken.TokenStore.constructor | dapps/cross-space/src/store/currentToken.ts:55-58 | needs a cache of capacity 9 (`CommonTokenCount - 1`); the current token is the persisted `currentToken` record, or FansCoin when none is stored; the list is the native token followed by the cache, without FansCoin |
| CurrentToken.TokenStore.SetCurrentToken | dapps/cross-space/src/store/currentToken.ts:77-85 | always replaces and persists the current token; a native token leaves the cache and the list alone; any other token is put in the cache under its native address and the list is rebuilt and contains it; the cache stays within 9 entries and the list within 11 |
| CurrentToken.TokenStore.DeleteFromCommonTokens | dapps/cross-space/src/store/currentToken.ts:91-94 | an absent key changes nothing; otherwise the cache loses exactly that entry and the list is rebuilt; the current token and storage are never touched; the cache stays within 9 entries and the list within 11 |
| CurrentToken.TokenStore.OnMetaMaskStatus | dapps/cross-space/src/store/currentToken.ts:65-74 | not-installed resets the current token to FansCoin and persists it; any other status changes nothing |
| CurrentToken.TokenStore.GetCurrentToken | dapps/cross-space/src/store/currentToken.ts:99 | reads the current token |
| AmountNormalization.LazyGroupEnd | dapps/cross-space/src/modules/ESpace2Core/index.tsx:206 | the lazy group `(\.\d+?)` stops at the first digit after which only zeros are left, and that digit is not a zero |
| AmountNormalization.FirstMatch | dapps/cross-space/src/modules/ESpace2Core/index.tsx:206 | the match found is the leftmost position at which the pattern matches to the end |
| AmountNormalization.Normalize | dapps/cross-space/src/modules/ESpace2Core/index.tsx:206 | the result is a prefix of the input |
| AmountNormalization.TrimZeros | dapps/cross-space/src/modules/ESpace2Core/index.tsx:206 | trailing zeros are removed and nothing else |
| AmountNormalization.NormalizeDecimal | dapps/cross-space/src/modules/ESpace2Core/index.tsx:206 | for `whole.frac`: an all-zero fraction drops the point and fraction, otherwise the trailing zeros of the fraction are dropped |
| AmountNormalization.NoPointUnchanged | dapps/cross-space/src/modules/ESpace2Core/index.tsx:206 | a string without a point is left as it is |
| AmountNormalization.NormalizeIdempotent | dapps/cross-space/src/modules/ESpace2Core/index.tsx:206 | normalising twice is normalising once, for any text with at most one point |
| AmountNormalization.ExampleTrailingZeros | dapps/cross-space/src/modules/ESpace2Core/index.tsx:206 | "1.500" becomes "1.5" |
| AmountNormalization.ExampleZeroFraction | dapps/cross-space/src/modules/ESpace2Core/index.tsx:206 | "2.000" becomes "2" |
| AmountNormalization.ExampleInteger | dapps/cross-space/src/modules/ESpace2Core/index.tsx:206 | "10" stays "10" |
| AmountNormalization.TwoPointsNotIdempotent | dapps/cross-space/src/modules/ESpace2Core/index.tsx:206 | with two points the regex is not idempotent: "1.0.0" becomes "1.0", which becomes "1" |
| ESpace2Core.WithdrawGate | dapps/cross-space/src/modules/ESpace2Core/index.tsx:84 | withdraw is gated by Fluent for the native token and by `Both-FluentFirst` otherwise, so it opens iff Fluent (and, for other tokens, MetaMask too) is ready |
| ESpace2Core.TransferGate | dapps/cross-space/src/modules/ESpace2Core/index.tsx:166-178 | normal mode is gated by `Both-MetaMaskFirst` and opens iff both wallets are ready; advanced mode goes through a Fluent gate |
| ESpace2Core.BlurCheck | dapps/cross-space/src/modules/ESpace2Core/index.tsx:215-227 | accepted iff non-empty, non-negative, the maximum is known and not exceeded; rejected iff non-empty and negative or above a known maximum; ignored otherwise |
| ESpace2Core.ReceivedText | dapps/cross-space/src/modules/ESpace2Core/index.tsx:210 | "--" for an empty amount, else the amount, a space and the symbol |
| ESpace2Core.TransferForm.constructor | dapps/cross-space/src/modules/ESpace2Core/index.tsx:185-196 | the form starts with an empty amount, transfer balance and text; whether the "will receive" element is mounted is fixed |
| ESpace2Core.TransferForm.SetAmount | dapps/cross-space/src/modules/ESpace2Core/index.tsx:198-211 | nothing before the element is mounted; an error writes only the error text; otherwise the normalised amount goes to the form and the store |
| ESpace2Core.TransferForm.CheckAmount | dapps/cross-space/src/modules/ESpace2Core/index.tsx:215-227 | before the element is mounted nothing changes; an accepted amount is normalised into the form and the store and shown with the symbol; a rejected one leaves the form value and writes "--"; an ignored one changes nothing |
| ESpace2Core.TransferForm.ClickMax | dapps/cross-space/src/modules/ESpace2Core/index.tsx:229-232 | a known maximum becomes the normalised amount in the form and the store and is shown with the symbol; an unknown one, or an unmounted element, changes nothing |
| ESpace2Core.TransferForm.ClearAmount | dapps/cross-space/src/modules/ESpace2Core/index.tsx:213 | the amount and the transfer balance become empty and the text becomes "--" |
| ESpace2Core.TransferForm.AfterTransfer | dapps/cross-space/src/modules/ESpace2Core/index.tsx:247-255 | when the transfer handler asks for it and the element is mounted, the amount and the transfer balance become empty and the text "--"; otherwise nothing changes |
| ESpace2Core.CheckNeedWithdraw | dapps/cross-space/src/modules/ESpace2Core/index.tsx:234-245 | submission is blocked with a warning iff the withdrawable balance is known and positive |
| ESpace2Core.CanClickButton | dapps/cross-space/src/modules/ESpace2Core/index.tsx:257-258 | enabled iff `needApprove` is true, or it is false and the maximum is known and positive |
| ESpace2Core.AmountInputDisabled | dapps/cross-space/src/modules/ESpace2Core/index.tsx:270-276 | the input and MAX are disabled iff the maximum is unknown or zero |
| ESpace2Core.TransferButtonText | dapps/cross-space/src/modules/ESpace2Core/index.tsx:292 | Approve, Transfer or "Checking Approval..." for true, false and unknown |
| ESpace2Core.AmountFieldValid | dapps/cross-space/src/modules/ESpace2Core/index.tsx:268-271 | an empty field passes only while an approval is needed; a filled-in field passes iff it is at least one minimal unit and at most a known maximum |
| ESpace2Core.ClickTransfer | dapps/cross-space/src/modules/ESpace2Core/index.tsx:234-292 | a click submits iff the button is enabled, no withdrawable balance is pending and the field validates; with no approval pending a submitted amount lies between one minimal unit and the maximum |
| ESpace2Core.ApproveTipShown | dapps/cross-space/src/modules/ESpace2Core/index.tsx:294 | the approval hint shows iff Fluent is active and an approval is needed |
| ESpace2Core.ShowBalance | dapps/cross-space/src/modules/ESpace2Core/index.tsx:305-319 | loading iff unknown; "＜0.000001" iff positive and below one millionth; otherwise the balance itself |
| ESpace2Core.ShowWithdrawable | dapps/cross-space/src/modules/ESpace2Core/index.tsx:417-424 | "..." iff in flight; the balance iff known; "loading..." iff unknown for the native token with a mirror address |
| ESpace2Core.WithdrawDisabled | dapps/cross-space/src/modules/ESpace2Core/index.tsx:399-406 | with the required wallets active, disabled iff the withdrawable balance is unknown or zero or a withdrawal is in flight; otherwise disabled unless a required wallet is not-active |
| ESpace2Core.WithdrawButtonText | dapps/cross-space/src/modules/ESpace2Core/index.tsx:434 | "Withdrawing..." iff in flight |
| ESpace2Core.Toggle | dapps/cross-space/src/modules/ESpace2Core/index.tsx:133 | the mode always changes |
| ESpace2Core.TransferModeState.constructor | dapps/cross-space/src/modules/ESpace2Core/index.tsx:121-128 | a stored "normal" or "advanced" is honoured; anything else is persisted as "normal" and yields normal |
| ESpace2Core.TransferModeState.SwitchMode | dapps/cross-space/src/modules/ESpace2Core/index.tsx:130-135 | toggles the mode and persists the new one |
| ESpace2Core.TransferModeState.OnCurrentTokenChange | dapps/cross-space/src/modules/ESpace2Core/index.tsx:137-142 | a non-native token forces and persists normal; the native token changes nothing |
| ESpace2Core.ModeSwitchCaption | dapps/cross-space/src/modules/ESpace2Core/index.tsx:152-159 | the switch exists iff the token is native and names the other mode |
| Deposit.PhaseCode | dapps/payment/src/modules/Common/Deposit/index.tsx:51 | `type` is 1 exactly in the approve phase |
| Deposit.AmountOrZero | dapps/payment/src/modules/Common/Deposit/index.tsx:73 | a missing or empty amount counts as zero |
| Deposit.PhaseFor | dapps/payment/src/modules/Common/Deposit/index.tsx:73-77 | approve iff the allowance is below the amount |
| Deposit.ErrMsgFor | dapps/payment/src/modules/Common/Deposit/index.tsx:56-64 | with amount and balance present, "Insufficient Balance" iff the amount exceeds the balance and empty otherwise; with either missing the message is unchanged |
| Deposit.RefreshFor | dapps/payment/src/modules/Common/Deposit/index.tsx:109-115 | exactly one refresh, by precedence: paid-apps path, apps path, non-empty route type |
| Deposit.RefreshEffects | dapps/payment/src/modules/Common/Deposit/index.tsx:109-115 | no refresh request iff no rule applies, otherwise exactly one request for the chosen view |
| Deposit.OkDisabled | dapps/payment/src/modules/Common/Deposit/index.tsx:128 | OK is disabled iff the amount is "0" or null or an error shows |
| Deposit.OkText | dapps/payment/src/modules/Common/Deposit/index.tsx:129 | Confirm for `type` 0, Approve for `type` 1 |
| Deposit.DepositModal.constructor | dapps/payment/src/modules/Common/Deposit/index.tsx:46-64 | hidden, not loading, confirm phase, amount "10" checked against the balance |
| Deposit.DepositModal.SyncErrMsg | dapps/payment/src/modules/Common/Deposit/index.tsx:56-64 | the message is recomputed from the amount and the balance; nothing else changes |
| Deposit.DepositModal.ChangeAmount | dapps/payment/src/modules/Common/Deposit/index.tsx:89 | a new amount is checked at once; an amount above a known balance disables OK |
| Deposit.DepositModal.CheckAllowance | dapps/payment/src/modules/Common/Deposit/index.tsx:66-80 | the phase follows the allowance; a failed query leaves it |
| Deposit.DepositModal.ShowModal | dapps/payment/src/modules/Common/Deposit/index.tsx:83-87 | the allowance is re-checked iff the modal goes from hidden to visible |
| Deposit.DepositModal.Cancel | dapps/payment/src/modules/Common/Deposit/index.tsx:123-125 | hides the modal and changes nothing else |
| Deposit.DepositModal.HandleOk | dapps/payment/src/modules/Common/Deposit/index.tsx:93-121 | loading is set first and cleared last on every path; the approve phase approves, re-checks and never deposits or closes; the confirm phase deposits the amount and, on success, closes and refreshes one view |
| LockModal.Title | dapps/governance/src/modules/Dashboard/Lock/LockModal.tsx:27-31 | the fixed title of each kind of modal |
| LockModal.EstimateGapBlockNumber | dapps/governance/src/modules/Dashboard/Lock/LockModal.tsx:43-44 | the current gap when adding, the chosen period's gap otherwise |
| LockModal.EnteredUnits | dapps/governance/src/modules/Dashboard/Lock/LockModal.tsx:58 | an empty amount counts as zero |
| LockModal.EstimateBalance | dapps/governance/src/modules/Dashboard/Lock/LockModal.tsx:58 | the locked balance when extending; otherwise the amount plus the locked balance, unknown counting as zero |
| LockModal.EstimateVotingRightsPerCfx | dapps/governance/src/modules/Dashboard/Lock/LockModal.tsx:53-56 | defined iff the gap is, and then the rate of the gap |
| LockModal.EstimateVotingRights | dapps/governance/src/modules/Dashboard/Lock/LockModal.tsx:59-63 | defined iff the rate and the balance are, and then their product |
| LockModal.VotingRightsNeedGap | dapps/governance/src/modules/Dashboard/Lock/LockModal.tsx:43-63 | the estimate exists iff the gap is known and, when extending, the locked balance is known; when adding it is the current gap's rate times amount plus locked |
| LockModal.SectionsPerKind | dapps/governance/src/modules/Dashboard/Lock/LockModal.tsx:116-164 | every kind shows a section; only locking shows both; the available line appears only when adding, under the amount section alone |
| LockModal.FormValid | dapps/governance/src/modules/Dashboard/Lock/LockModal.tsx:119-162 | extending needs only a period; adding needs only an amount of at least one minimal unit and at most a known available balance; locking needs both |
| LockModal.AmountInputDisabled | dapps/governance/src/modules/Dashboard/Lock/LockModal.tsx:40 | the amount input is disabled iff the available balance is unknown or zero |
| LockModal.RequestFor | dapps/governance/src/modules/Dashboard/Lock/LockModal.tsx:82-86 | an increase iff the amount field exists and is non-empty, equal to the amount in minimal units; the gap of the submitted period, which is absent when adding |
| LockModal.LockForm.constructor | dapps/governance/src/modules/Dashboard/Lock/LockModal.tsx:35-36 | no notice up and an empty amount |
| LockModal.LockForm.EnterAmount | dapps/governance/src/modules/Dashboard/Lock/LockModal.tsx:119-125 | only the amount field changes |
| LockModal.LockForm.ChoosePeriod | dapps/governance/src/modules/Dashboard/Lock/LockModal.tsx:156-162 | only the period field changes |
| LockModal.LockForm.Submit | dapps/governance/src/modules/Dashboard/Lock/LockModal.tsx:77-92 | an invalid form changes nothing; the first valid submit only raises the notice; the lock is sent only from the notice, and the amount is cleared iff the lock resolves true |
| LockModal.LockForm.CancelConfirm | dapps/governance/src/modules/Dashboard/Lock/LockModal.tsx:195 | leaves the notice and keeps the fields |
| LockModal.Lifecycle.constructor | dapps/governance/src/modules/Dashboard/Lock/LockModal.tsx:33 | the shared flag starts unset |
| LockModal.Lifecycle.Mount | dapps/governance/src/modules/Dashboard/Lock/LockModal.tsx:65-75 | hides on mount iff the flag was already set, then sets it |
| LockModal.Lifecycle.Unmount | dapps/governance/src/modules/Dashboard/Lock/LockModal.tsx:72-74 | clears the flag |
| LockModal.Lifecycle.AccountChanged | dapps/governance/src/modules/Dashboard/Lock/LockModal.tsx:65-69 | an account change hides iff the flag is set |
| LockModal.MountThenAccountChange | dapps/governance/src/modules/Dashboard/Lock/LockModal.tsx:65-75 | a first mount does not hide, a later account change does, and after unmount nothing hides |
| CurrentDapp.Split | dapps/dapp-box/src/hooks/useCurrentDapp.ts:6 | at least one piece, none containing the separator |
| CurrentDapp.JoinSplit | dapps/dapp-box/src/hooks/useCurrentDapp.ts:6 | joining the pieces gives back the path |
| CurrentDapp.SplitAfterSegment | dapps/dapp-box/src/hooks/useCurrentDapp.ts:6 | a leading piece free of separators heads the first part |
| CurrentDapp.CurrentDappPath | dapps/dapp-box/src/hooks/useCurrentDapp.ts:6 | the second piece if present and non-empty, else "cross-space" |
| CurrentDapp.FirstSegmentDecides | dapps/dapp-box/src/hooks/useCurrentDapp.ts:6 | only the first segment after "/" matters, and an empty one gives "cross-space" |
| CurrentDapp.RootShowsDefault | dapps/dapp-box/src/hooks/useCurrentDapp.ts:6 | "" and "/" both give "cross-space" |
| CurrentDapp.DeepPathSameDapp | dapps/dapp-box/src/hooks/useCurrentDapp.ts:6 | "/payment/x/y" and "/payment" give the same key |
| CurrentDapp.FindByPath | dapps/dapp-box/src/hooks/useCurrentDapp.ts:7 | the first index whose path equals the key, or none iff no dapp has it |
| CurrentDapp.UseCurrentDapp | dapps/dapp-box/src/hooks/useCurrentDapp.ts:6-7 | the first dapp in list order with the key as path, absent iff none has it |

## Left out

- The wallet library, the RPC helpers and the toast component are not part of
  this model. Their answers are parameters. The helpers left out are
  `approve`, `deposit`, `getAllowance`, `handleLock`, `handleWithdraw` and
  `handleTransferSubmit`.
  - The approve amount is decided inside the request helper, so the model
    does not fix it.
  - The withdraw and transfer steps after the button are not modelled, and
    neither is the single-flight protection they may add.
- Rendering, styling, icons, tab indices, clipboard and animations are not
  modelled. Neither are the Chinese captions or `useI18n` template
  interpolation: captions are datatypes carrying the wallet and network
  names.
- `Unit` arithmetic, `ethers.parseUnits` and JavaScript `Number` are modelled
  by the integer in `Amount`.
  - The text of an amount and its value are independent inputs.
  - `Number(text) < 0` is a sign check.
  - `Number(networkId)` is exact, so precision loss for ids above 2^53 is not
    modelled.
- Chain ids are compared as numbers. The source compares the library's values
  with `===`.
- The persistence of the LRU cache and the LocalStorage library itself are
  left out. The storage is a map from (key, namespace) to token.
- The Slider conversions, `calVotingRightsPerCfx` and `calRemainTime` are
  function parameters. The time-to-unlock text is not modelled.
- React scheduling, zustand subscriptions and the unsubscribe of
  `startSubToken` are left out. An effect is modelled as the method the event
  triggers.
- The interaction of the form library with disabled inputs is left out. The
  form's validation is modelled by `AmountFieldValid` and `FormValid`. The
  DoubleConfirm button's click and the form's submit are modelled as one
  submission.
- The governance Pos page and the icon field of `Token` are left out.
- CurrentToken.Put: does not state which entry is evicted on overflow or the
  order of the cache. The cache's implementation is not part of this model.
- AmountNormalization.NormalizeIdempotent: holds only for text with at most
  one point. `TwoPointsNotIdempotent` shows the source's regex is not
  idempotent otherwise. The input field is numeric, so two points do not
  occur there.
- ESpace2Core.TransferForm.ClickMax: takes the maximum's decimal text as
  given. Its agreement with the maximum's value is not stated.
- LockModal.EstimateVotingRights: the voting rights are the plain product of
  the rate and the balance. `Unit.mul`'s own scaling is not part of this
  model.
- CurrentDapp.UseCurrentDapp: the source asserts a match exists. The model
  returns `None` when none does.
