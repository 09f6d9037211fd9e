/** The wallet/network gate placed in front of every action: it picks the one
    wallet the action needs, shows the protected content when that wallet is
    active and on its network, and otherwise shows a button whose click
    connects the wallet or switches its chain. */
module AuthConnectButton {
  import opened Common
  import opened HexChainId

  /** Fluent serves the Core space, MetaMask the eSpace. */
  datatype Wallet = Fluent | MetaMask

  /** The `wallet` property: one wallet, or both with one named first. */
  datatype RequiredWallet = FluentOnly | MetaMaskOnly | BothFluentFirst | BothMetaMaskFirst

  datatype Network = Network(networkId: nat, name: string, url: string, scan: string)

  /** What the gate reads from both providers and from the network store. */
  datatype WalletEnv = WalletEnv(
    fluentStatus: WalletStatus,
    metaMaskStatus: WalletStatus,
    fluentChainId: Option<nat>,
    metaMaskChainId: Option<nat>,
    coreNetwork: Option<Network>,
    eSpaceNetwork: Option<Network>)

  function StatusOf(env: WalletEnv, w: Wallet): WalletStatus {
    if w == Fluent then env.fluentStatus else env.metaMaskStatus
  }

  function ChainIdOf(env: WalletEnv, w: Wallet): Option<nat> {
    if w == Fluent then env.fluentChainId else env.metaMaskChainId
  }

  /** The network a wallet must be on: Core for Fluent, eSpace for MetaMask. */
  function NetworkOf(env: WalletEnv, w: Wallet): Option<Network> {
    if w == Fluent then env.coreNetwork else env.eSpaceNetwork
  }

  /** `network?.networkId`: absent when the network is not known yet. */
  function NetworkIdOf(n: Option<Network>): Option<nat> {
    if n.Some? then Some(n.value.networkId) else None
  }

  /** A wallet is ready when it is active and its chain id is that of its
      network; an absent chain id matches an absent network. */
  predicate Ready(env: WalletEnv, w: Wallet) {
    StatusOf(env, w) == Active && ChainIdOf(env, w) == NetworkIdOf(NetworkOf(env, w))
  }

  /** The one wallet the gate acts on. For the `Both-*` tags this is the
      first-named wallet until it is ready, and the other one afterwards. */
  function ResolveWallet(req: RequiredWallet, env: WalletEnv): (w: Wallet)
    ensures req == FluentOnly ==> w == Fluent
    ensures req == MetaMaskOnly ==> w == MetaMask
    ensures req == BothMetaMaskFirst ==> (w == MetaMask <==> !Ready(env, MetaMask))
    ensures req == BothFluentFirst ==> (w == Fluent <==> !Ready(env, Fluent))
  {
    match req
    case FluentOnly => Fluent
    case MetaMaskOnly => MetaMask
    case BothMetaMaskFirst =>
      if env.metaMaskStatus != Active || env.metaMaskChainId != NetworkIdOf(env.eSpaceNetwork) then MetaMask
      else Fluent
    case BothFluentFirst =>
      if env.fluentStatus != Active || env.fluentChainId != NetworkIdOf(env.coreNetwork) then Fluent
      else MetaMask
  }

  /** What the gate derives for the resolved wallet. */
  datatype Gate = Gate(wallet: Wallet, status: WalletStatus, network: Option<Network>, chainMatched: bool)

  function Evaluate(req: RequiredWallet, env: WalletEnv): (g: Gate)
    ensures g.wallet == ResolveWallet(req, env)
    ensures g.wallet == Fluent ==> g.status == env.fluentStatus && g.network == env.coreNetwork
    ensures g.wallet == MetaMask ==> g.status == env.metaMaskStatus && g.network == env.eSpaceNetwork
    ensures g.chainMatched <==> ChainIdOf(env, g.wallet) == NetworkIdOf(g.network)
    ensures g.status == Active && g.chainMatched <==> Ready(env, g.wallet)
  {
    var w := ResolveWallet(req, env);
    var network := if w == Fluent then env.coreNetwork else env.eSpaceNetwork;
    var chain := if w == Fluent then env.fluentChainId else env.metaMaskChainId;
    Gate(w, if w == Fluent then env.fluentStatus else env.metaMaskStatus, network, chain == NetworkIdOf(network))
  }

  /** The protected content is rendered for `req` in `env` (given that the
      content is not a plain string). */
  predicate GateOpen(req: RequiredWallet, env: WalletEnv) {
    Ready(env, ResolveWallet(req, env))
  }

  /** A `Both-*` gate is open exactly when both wallets are ready. */
  lemma BothGateOpen(req: RequiredWallet, env: WalletEnv)
    requires req == BothFluentFirst || req == BothMetaMaskFirst
    ensures GateOpen(req, env) <==> Ready(env, Fluent) && Ready(env, MetaMask)
  {
  }

  /** `authContent`: a string is shown as the button's text; anything else
      (an element or a function producing one) replaces the button. */
  datatype AuthContent = Text(text: string) | Element

  datatype ConnectTextType = Concise | Specific

  datatype Label =
    | AuthText(text: string)
    | SwitchTo(wallet: Wallet, networkName: string)
    | ConnectSpecific(space: string, wallet: Wallet)
    | ConnectConcise(wallet: Wallet)
    | Connecting(wallet: Wallet)
    | NotInstalledLabel(wallet: Wallet)
    | NoLabel

  datatype View = ShowContent | ShowButton(caption: Label, disabled: bool, errorStyle: bool)

  function SpaceName(w: Wallet): string {
    if w == Fluent then "Conflux Core" else "Conflux eSpace"
  }

  /** The text inside the button; the conditions in the source are mutually
      exclusive, so at most one piece of text shows. */
  function ButtonLabel(g: Gate, content: AuthContent, textType: ConnectTextType): (l: Label)
    ensures l.AuthText? <==> g.status == Active && g.chainMatched && content.Text?
    ensures l.AuthText? ==> l.text == content.text
    ensures l.SwitchTo? <==> g.status == Active && !g.chainMatched && g.network.Some?
    ensures l.SwitchTo? ==> l == SwitchTo(g.wallet, g.network.value.name)
    ensures l.ConnectSpecific? || l.ConnectConcise? <==> g.status == NotActive
    ensures g.status == NotActive ==>
      l == (if textType == Specific then ConnectSpecific(SpaceName(g.wallet), g.wallet) else ConnectConcise(g.wallet))
    ensures l == Connecting(g.wallet) <==> g.status == InActivating
    ensures l == NotInstalledLabel(g.wallet) <==> g.status == NotInstalled
    ensures l == NoLabel <==> g.status == Active && ((g.chainMatched && !content.Text?) || (!g.chainMatched && g.network.None?))
  {
    match g.status
    case Active =>
      if g.chainMatched then (if content.Text? then AuthText(content.text) else NoLabel)
      else if g.network.Some? then SwitchTo(g.wallet, g.network.value.name)
      else NoLabel
    case NotActive =>
      if textType == Specific then ConnectSpecific(SpaceName(g.wallet), g.wallet) else ConnectConcise(g.wallet)
    case InActivating => Connecting(g.wallet)
    case NotInstalled => NotInstalledLabel(g.wallet)
  }

  /** What the gate renders: the content itself when the resolved wallet is
      ready and the content is not a string, else a button. */
  function Render(req: RequiredWallet, env: WalletEnv, content: AuthContent, textType: ConnectTextType, disabled: Option<bool>): (v: View)
    ensures v == ShowContent <==> GateOpen(req, env) && !content.Text?
    ensures (req == BothFluentFirst || req == BothMetaMaskFirst) ==>
      (v == ShowContent <==> Ready(env, Fluent) && Ready(env, MetaMask) && !content.Text?)
    ensures v.ShowButton? && disabled.Some? ==> v.disabled == disabled.value
    ensures v.ShowButton? && disabled.None? ==>
      (v.disabled <==> StatusOf(env, ResolveWallet(req, env)) in {InActivating, NotInstalled})
    ensures v.ShowButton? ==> (v.errorStyle <==> StatusOf(env, ResolveWallet(req, env)) == NotInstalled)
    ensures v.ShowButton? ==> v.caption == ButtonLabel(Evaluate(req, env), content, textType)
  {
    var g := Evaluate(req, env);
    if g.status == Active && g.chainMatched && !content.Text? then ShowContent
    else
      ShowButton(
        ButtonLabel(g, content, textType),
        if disabled.Some? then disabled.value else g.status != Active && g.status != NotActive,
        g.status == NotInstalled)
  }

  // ---- the connect and switch-chain flows ----

  /** How a wallet request ended: it resolved, or it was rejected with an
      error that may carry a numeric code. */
  datatype CallResult = Resolved | Rejected(code: Option<int>)

  /** EIP-1193: the user rejected the request. */
  const USER_REJECTED: int := 4001
  /** EIP-3326: the chain is not known to the wallet. */
  const UNRECOGNIZED_CHAIN: int := 4902

  predicate RejectedWith(r: CallResult, code: int) {
    r.Rejected? && r.code == Some(code)
  }

  /** The `wallet_addEthereumChain` parameter object of EIP-3085. */
  datatype ChainParams = ChainParams(
    chainId: string,
    chainName: string,
    currencyName: string,
    currencySymbol: string,
    currencyDecimals: nat,
    rpcUrls: seq<string>,
    blockExplorerUrls: seq<string>)

  datatype WalletRequest =
    | Connect(wallet: Wallet)
    | SwitchChain(wallet: Wallet, chainId: string)
    | AddChain(wallet: Wallet, params: ChainParams)

  /** The toasts the flows show. */
  datatype Notice =
    | ConnectSucceeded(wallet: Wallet)
    | ConnectCancelled
    | SwitchSucceeded(wallet: Wallet, networkName: string)
    | SwitchCancelled
    | AddChainCancelled

  function WalletName(w: Wallet): string {
    if w == Fluent then "Fluent" else "MetaMask"
  }

  /** The toast text of a notice; every outcome has its own text. */
  function NoticeText(n: Notice): (t: string)
    ensures n.ConnectSucceeded? ==> t == "Connect to " + WalletName(n.wallet) + " Success!"
    ensures n.SwitchSucceeded? ==> t == "Switch " + WalletName(n.wallet) + " to " + n.networkName + " Success!"
    ensures n == ConnectCancelled ==> t == "You cancel the connection reqeust."
    ensures n == SwitchCancelled ==> t == "You cancel the switch chain reqeust."
    ensures n == AddChainCancelled ==> t == "You cancel the add chain reqeust."
  {
    match n
    case ConnectSucceeded(w) => "Connect to " + WalletName(w) + " Success!"
    case ConnectCancelled => "You cancel the connection reqeust."
    case SwitchSucceeded(w, name) => "Switch " + WalletName(w) + " to " + name + " Success!"
    case SwitchCancelled => "You cancel the switch chain reqeust."
    case AddChainCancelled => "You cancel the add chain reqeust."
  }

  /** Different notices never show the same text, so a toast tells which
      outcome it reports, and for which wallet and network. */
  lemma NoticeTextInjective(a: Notice, b: Notice)
    requires NoticeText(a) == NoticeText(b)
    ensures a == b
  {
    NoticeTextShape(a);
    NoticeTextShape(b);
    if a.SwitchSucceeded? {
      SwitchTextInjective(a, b);
    }
  }

  /** The characters that tell the notices apart: the first one, the
      wallet's initial, and the word after "You cancel the ". */
  lemma NoticeTextShape(n: Notice)
    ensures |NoticeText(n)| > 15
    ensures NoticeText(n)[0] == (if n.ConnectSucceeded? then 'C' else if n.SwitchSucceeded? then 'S' else 'Y')
    ensures n == ConnectCancelled ==> NoticeText(n)[15] == 'c'
    ensures n == SwitchCancelled ==> NoticeText(n)[15] == 's'
    ensures n == AddChainCancelled ==> NoticeText(n)[15] == 'a'
    ensures n.ConnectSucceeded? ==> NoticeText(n)[11] == (if n.wallet == Fluent then 'F' else 'M')
  {
  }

  lemma SwitchTextInjective(a: Notice, b: Notice)
    requires a.SwitchSucceeded? && b.SwitchSucceeded? && NoticeText(a) == NoticeText(b)
    ensures a == b
  {
    var t := NoticeText(a);
    assert WalletName(a.wallet)[0] == t[7] == WalletName(b.wallet)[0];
    var head := "Switch " + WalletName(a.wallet) + " to ";
    assert t == head + a.networkName + " Success!";
    assert t == head + b.networkName + " Success!";
    assert a.networkName == t[|head|..|t| - 9] == b.networkName;
  }

  /** The parameters of the add-chain request for `net`. */
  function AddChainParams(net: Network): (p: ChainParams)
    ensures p.chainId == TargetChainId(net.networkId) && FromHex(p.chainId[2..]) == net.networkId
    ensures p.chainName == net.name
    ensures p.currencyName == "Conflux" && p.currencySymbol == "CFX" && p.currencyDecimals == DECIMALS
    ensures p.rpcUrls == [net.url] && p.blockExplorerUrls == [net.scan]
  {
    ChainParams(TargetChainId(net.networkId), net.name, "Conflux", "CFX", 18, [net.url], [net.scan])
  }

  /** The notice of a connect attempt: success, a cancel on 4001, and
      nothing for any other rejection. */
  function ConnectNotices(w: Wallet, result: CallResult): (ns: seq<Notice>)
    ensures |ns| <= 1
  {
    if result == Resolved then [ConnectSucceeded(w)]
    else if RejectedWith(result, USER_REJECTED) then [ConnectCancelled]
    else []
  }

  /** The notice of a switch attempt: success, a cancel of the add-chain
      request on 4001 after a 4902, a cancel of the switch on 4001, and
      nothing for any other rejection. */
  function SwitchNotices(w: Wallet, net: Network, switchResult: CallResult, addResult: CallResult): (ns: seq<Notice>)
    ensures |ns| <= 1
  {
    if switchResult == Resolved then [SwitchSucceeded(w, net.name)]
    else if RejectedWith(switchResult, UNRECOGNIZED_CHAIN) then
      (if RejectedWith(addResult, USER_REJECTED) then [AddChainCancelled] else [])
    else if RejectedWith(switchResult, USER_REJECTED) then [SwitchCancelled]
    else []
  }

  /** Asks `w` to connect. Only a resolved request shows a success notice,
      only a 4001 rejection shows a cancel notice, and any other rejection
      is swallowed. */
  method ConnectToWallet(w: Wallet, result: CallResult) returns (requests: seq<WalletRequest>, notices: seq<Notice>)
    ensures requests == [Connect(w)]
    ensures |notices| <= 1
    ensures ConnectSucceeded(w) in notices <==> result == Resolved
    ensures ConnectCancelled in notices <==> RejectedWith(result, USER_REJECTED)
    ensures notices == [] <==> result.Rejected? && !RejectedWith(result, USER_REJECTED)
    ensures notices == ConnectNotices(w, result)
  {
    requests := [Connect(w)];
    notices := [];
    if result == Resolved {
      notices := notices + [ConnectSucceeded(w)];
    } else if result.code == Some(USER_REJECTED) {
      notices := notices + [ConnectCancelled];
    }
  }

  /** Asks `w` to switch to `net`; when the wallet does not know the chain
      (4902) it is asked to add it, and the switch is not tried again. */
  method SwitchToChain(w: Wallet, net: Network, switchResult: CallResult, addResult: CallResult)
    returns (requests: seq<WalletRequest>, notices: seq<Notice>)
    ensures 1 <= |requests| <= 2
    ensures requests[0] == SwitchChain(w, TargetChainId(net.networkId))
    ensures |requests| == 2 <==> RejectedWith(switchResult, UNRECOGNIZED_CHAIN)
    ensures |requests| == 2 ==> requests[1] == AddChain(w, AddChainParams(net))
    ensures |notices| <= 1
    ensures SwitchSucceeded(w, net.name) in notices <==> switchResult == Resolved
    ensures SwitchCancelled in notices <==> RejectedWith(switchResult, USER_REJECTED)
    ensures AddChainCancelled in notices <==>
      RejectedWith(switchResult, UNRECOGNIZED_CHAIN) && RejectedWith(addResult, USER_REJECTED)
    ensures notices == [] <==>
      !(|| switchResult == Resolved
        || RejectedWith(switchResult, USER_REJECTED)
        || (RejectedWith(switchResult, UNRECOGNIZED_CHAIN) && RejectedWith(addResult, USER_REJECTED)))
    ensures forall n :: n in notices ==> n in [SwitchSucceeded(w, net.name), SwitchCancelled, AddChainCancelled]
    ensures notices == SwitchNotices(w, net, switchResult, addResult)
  {
    var targetChainId := TargetChainId(net.networkId);
    requests := [SwitchChain(w, targetChainId)];
    notices := [];
    if switchResult == Resolved {
      notices := notices + [SwitchSucceeded(w, net.name)];
    } else if switchResult.code == Some(UNRECOGNIZED_CHAIN) {
      requests := requests + [AddChain(w, AddChainParams(net))];
      if addResult.Rejected? && addResult.code == Some(USER_REJECTED) {
        notices := notices + [AddChainCancelled];
      }
    } else if switchResult.code == Some(USER_REJECTED) {
      notices := notices + [SwitchCancelled];
    }
  }

  /** The effect of one click on the gate's button. */
  datatype ClickOutcome = ClickOutcome(
    defaultPrevented: bool,
    requests: seq<WalletRequest>,
    notices: seq<Notice>,
    onClickCalled: bool)

  /** A click connects the resolved wallet when it is not active, switches
      its chain when it is active on the wrong chain (doing nothing when its
      network is unknown), and otherwise calls `onClick` when one is given.
      The wallet library's answers are the `...Result` parameters. */
  method HandleClick(req: RequiredWallet, env: WalletEnv, hasOnClick: bool,
                     connectResult: CallResult, switchResult: CallResult, addResult: CallResult)
    returns (out: ClickOutcome)
    ensures var w := ResolveWallet(req, env);
      && (out.defaultPrevented <==> StatusOf(env, w) != Active)
      && (StatusOf(env, w) != Active ==> out.requests == [Connect(w)])
      && (StatusOf(env, w) == Active && !Ready(env, w) && NetworkOf(env, w).Some? ==>
            && 1 <= |out.requests| <= 2
            && out.requests[0] == SwitchChain(w, TargetChainId(NetworkOf(env, w).value.networkId))
            && (|out.requests| == 2 <==> RejectedWith(switchResult, UNRECOGNIZED_CHAIN))
            && (|out.requests| == 2 ==> out.requests[1] == AddChain(w, AddChainParams(NetworkOf(env, w).value)))
            && out.notices == SwitchNotices(w, NetworkOf(env, w).value, switchResult, addResult))
      && (StatusOf(env, w) != Active ==> out.notices == ConnectNotices(w, connectResult))
      && (StatusOf(env, w) == Active && (Ready(env, w) || NetworkOf(env, w).None?) ==> out.notices == [])
      && (out.requests == [] <==> StatusOf(env, w) == Active && (Ready(env, w) || NetworkOf(env, w).None?))
      && (out.onClickCalled <==> Ready(env, w) && hasOnClick)
  {
    var g := Evaluate(req, env);
    if g.status != Active {
      var requests, notices := ConnectToWallet(g.wallet, connectResult);
      out := ClickOutcome(true, requests, notices, false);
    } else if !g.chainMatched {
      if g.network.None? {
        out := ClickOutcome(false, [], [], false);
      } else {
        var requests, notices := SwitchToChain(g.wallet, g.network.value, switchResult, addResult);
        out := ClickOutcome(false, requests, notices, false);
      }
    } else {
      out := ClickOutcome(false, [], [], hasOnClick);
    }
  }
}
