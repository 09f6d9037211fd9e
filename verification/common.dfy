/** Values shared by the wallet gate, the cross-space bridge screens, the
    payment deposit modal and the governance lock modal. */
module Common {

  /** An optional value: the `undefined`/`null` of the TypeScript code. */
  datatype Option<+T> = None | Some(value: T) {
    /** The value, or `default` when absent (the `?? default` idiom). */
    function GetOr(default: T): T {
      if Some? then value else default
    }
  }

  /** Connection status a wallet provider reports; owned by the provider. */
  datatype WalletStatus = NotInstalled | NotActive | InActivating | Active

  /** Number of decimals of every token amount handled here (CFX, FC, APP coin). */
  const DECIMALS: nat := 18

  /** One standard unit expressed in minimum units, 10^18. */
  const ONE_STANDARD_UNIT: nat := 1_000_000_000_000_000_000

  /** A decimal amount as it was typed into an input (`text`) together with
      the signed value that text denotes, in minimum units. Parsing the
      decimal text is not modelled: `units` is what the unit library makes
      of `text`, and the empty text stands for an empty input. */
  datatype Amount = Amount(text: string, units: int)
}
