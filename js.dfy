/**
 * The JavaScript built-ins the generator leans on, on integers and strings:
 * the pass count of a counting `for` loop, `String.prototype.substring`,
 * `Number.prototype.toString(16)` and `parseInt(s, 16)`.
 */
module JsText {
  import opened Wrappers

  /** How many times `for (i = from; i < bound; i++)` runs its body. */
  function Passes(from: int, bound: int): (k: nat)
  {
    if bound > from then bound - from else 0
  }

  /** `s.substring(a, b)`: both ends are clamped to [0, |s|] and swapped when out of order. */
  function Substring(s: string, a: int, b: int): (r: string)
    ensures 0 <= a <= b <= |s| ==> r == s[a..b]
    ensures |r| <= |s|
  {
    var lo := if a < 0 then 0 else if a > |s| then |s| else a;
    var hi := if b < 0 then 0 else if b > |s| then |s| else b;
    if lo <= hi then s[lo..hi] else s[hi..lo]
  }

  predicate IsHexDigit(c: char)
  {
    '0' <= c <= '9' || 'a' <= c <= 'f' || 'A' <= c <= 'F'
  }

  predicate IsLowerHex(c: char)
  {
    '0' <= c <= '9' || 'a' <= c <= 'f'
  }

  predicate AllHex(s: string)
  {
    forall i :: 0 <= i < |s| ==> IsHexDigit(s[i])
  }

  predicate AllLowerHex(s: string)
  {
    forall i :: 0 <= i < |s| ==> IsLowerHex(s[i])
  }

  /** The value of one hex digit, either case. */
  function DigitValue(c: char): (d: nat)
    requires IsHexDigit(c)
    ensures d < 16
  {
    if c <= '9' then c as int - '0' as int
    else if c >= 'a' then c as int - 'a' as int + 10
    else c as int - 'A' as int + 10
  }

  /** The lower-case digit `toString(16)` writes for `d`. */
  function HexChar(d: nat): (c: char)
    requires d < 16
    ensures IsLowerHex(c) && IsHexDigit(c)
    ensures DigitValue(c) == d
  {
    if d < 10 then ('0' as int + d) as char else ('a' as int + d - 10) as char
  }

  /** `n.toString(16)` for a non-negative integer: lower-case digits, no leading zero. */
  function ToHex(n: nat): (s: string)
    ensures 1 <= |s| && AllLowerHex(s) && AllHex(s)
    ensures n < 16 ==> |s| == 1
    ensures n < 256 ==> |s| <= 2
    ensures |s| > 1 ==> s[0] != '0'
  {
    if n < 16 then [HexChar(n)] else ToHex(n / 16) + [HexChar(n % 16)]
  }

  /** The number a run of hex digits denotes, most significant digit first. */
  function DigitsValue(ds: string): (v: nat)
    requires AllHex(ds)
  {
    if ds == [] then 0 else DigitsValue(ds[..|ds| - 1]) * 16 + DigitValue(ds[|ds| - 1])
  }

  /** The longest prefix of `s` made of hex digits. */
  function LeadingDigits(s: string): (ds: string)
    ensures ds <= s && AllHex(ds)
    ensures |ds| < |s| ==> !IsHexDigit(s[|ds|])
  {
    if s == [] || !IsHexDigit(s[0]) then [] else [s[0]] + LeadingDigits(s[1..])
  }

  /** What `parseInt` reads after an optional leading sign. */
  function Unsigned(s: string): (u: string)
  {
    if |s| > 0 && (s[0] == '-' || s[0] == '+') then s[1..] else s
  }

  /** What `parseInt` with radix 16 reads after an optional `0x`/`0X` prefix. */
  function WithoutHexPrefix(s: string): (b: string)
  {
    if |s| >= 2 && s[0] == '0' && (s[1] == 'x' || s[1] == 'X') then s[2..] else s
  }

  /**
   * `parseInt(s, 16)`: an optional sign, an optional `0x`/`0X` prefix, then the
   * longest run of hex digits; NaN (`None`) when that run is empty.
   */
  function ParseInt16(s: string): (r: Option<int>)
    ensures s == [] ==> r.None?
    ensures r.Some? && r.value < 0 ==> |s| > 0 && s[0] == '-'
  {
    var ds := LeadingDigits(WithoutHexPrefix(Unsigned(s)));
    if ds == [] then None
    else if |s| > 0 && s[0] == '-' then Some(-(DigitsValue(ds) as int))
    else Some(DigitsValue(ds))
  }

  /** Reading back what `toString(16)` wrote gives the number again. */
  lemma {:induction false} ToHexValue(n: nat)
    ensures DigitsValue(ToHex(n)) == n
  {
    if n >= 16 {
      var s := ToHex(n);
      assert s[..|s| - 1] == ToHex(n / 16);
      ToHexValue(n / 16);
    }
  }

  /** Leading zeros do not change the value of a run of digits. */
  lemma {:induction false} ZeroPrefixValue(zs: string, ds: string)
    requires forall i :: 0 <= i < |zs| ==> zs[i] == '0'
    requires AllHex(ds)
    ensures AllHex(zs + ds)
    ensures DigitsValue(zs + ds) == DigitsValue(ds)
  {
    var s := zs + ds;
    assert AllHex(s) by {
      forall i | 0 <= i < |s| ensures IsHexDigit(s[i]) {
        if i < |zs| { assert s[i] == zs[i]; } else { assert s[i] == ds[i - |zs|]; }
      }
    }
    if ds == [] {
      if zs != [] {
        assert s[..|s| - 1] == zs[..|zs| - 1];
        ZeroPrefixValue(zs[..|zs| - 1], []);
        assert zs[..|zs| - 1] + [] == zs[..|zs| - 1];
      }
    } else {
      assert s[..|s| - 1] == zs + ds[..|ds| - 1];
      ZeroPrefixValue(zs, ds[..|ds| - 1]);
    }
  }

  /** `parseInt(s, 16)` of a non-empty run of lower-case hex digits is its value. */
  lemma ParseInt16OfDigits(s: string)
    requires |s| >= 1 && AllLowerHex(s)
    ensures AllHex(s) && ParseInt16(s) == Some(DigitsValue(s))
  {
    assert AllHex(s) by {
      forall i | 0 <= i < |s| ensures IsHexDigit(s[i]) { assert IsLowerHex(s[i]); }
    }
    assert IsLowerHex(s[0]);
    assert Unsigned(s) == s;
    assert |s| >= 2 ==> IsLowerHex(s[1]);
    assert WithoutHexPrefix(s) == s;
    var ds := LeadingDigits(s);
    assert |ds| == |s|;
    assert ds == s;
  }
}
