/** The `0x`-prefixed hexadecimal chain id handed to a wallet's
    switch-chain and add-chain requests: `'0x' + Number(id).toString(16)`. */
module HexChainId {

  predicate IsHexDigit(c: char) {
    ('0' <= c <= '9') || ('a' <= c <= 'f')
  }

  predicate AllHexDigits(s: string) {
    forall i :: 0 <= i < |s| ==> IsHexDigit(s[i])
  }

  /** The lower-case digit of a value below sixteen. */
  function HexDigit(d: nat): (c: char)
    requires d < 16
    ensures IsHexDigit(c)
    ensures d != 0 ==> c != '0'
  {
    if d < 10 then (('0' as int) + d) as char else (('a' as int) + d - 10) as char
  }

  /** The value of one hexadecimal digit. */
  function DigitValue(c: char): (d: nat)
    requires IsHexDigit(c)
    ensures d < 16
  {
    if c <= '9' then (c as int) - ('0' as int) else (c as int) - ('a' as int) + 10
  }

  lemma DigitRoundTrip(d: nat)
    requires d < 16
    ensures DigitValue(HexDigit(d)) == d
  {
  }

  /** `n.toString(16)`: lower-case digits, most significant first, no
      leading zero, and "0" for zero. */
  function ToHex(n: nat): (s: string)
    decreases n
    ensures |s| >= 1 && AllHexDigits(s)
    ensures n > 0 ==> s[0] != '0'
    ensures n < 16 <==> |s| == 1
  {
    if n < 16 then [HexDigit(n)] else ToHex(n / 16) + [HexDigit(n % 16)]
  }

  /** Reads a string of hexadecimal digits back as a number. */
  function FromHex(s: string): nat
    requires AllHexDigits(s)
    decreases |s|
  {
    if s == [] then 0 else FromHex(s[..|s| - 1]) * 16 + DigitValue(s[|s| - 1])
  }

  /** Reading back the digits `ToHex` writes gives the number again. */
  lemma {:induction false} FromHexToHex(n: nat)
    ensures FromHex(ToHex(n)) == n
  {
    var s := ToHex(n);
    if n < 16 {
      DigitRoundTrip(n);
    } else {
      FromHexToHex(n / 16);
      DigitRoundTrip(n % 16);
      assert s[..|s| - 1] == ToHex(n / 16);
    }
  }

  /** The chain id the switch and add-chain requests carry. */
  function TargetChainId(networkId: nat): (id: string)
    ensures |id| >= 3 && id[..2] == "0x"
    ensures AllHexDigits(id[2..]) && FromHex(id[2..]) == networkId
    ensures networkId == 0 ==> id == "0x0"
    ensures networkId > 0 ==> id[2] != '0'
  {
    FromHexToHex(networkId);
    assert ("0x" + ToHex(networkId))[2..] == ToHex(networkId);
    "0x" + ToHex(networkId)
  }

  /** Distinct networks never share a target chain id. */
  lemma TargetChainIdInjective(a: nat, b: nat)
    requires TargetChainId(a) == TargetChainId(b)
    ensures a == b
  {
  }
}
