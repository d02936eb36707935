/**
 * The two helpers the generator calls but that are defined outside mandala.js.
 * Randomness is injected: each draw consumes one raw value `u` of a supply.
 */
module Random {
  /** The raw values of successive draws, by position. */
  type Supply = imap<nat, nat>

  /** The raw value of draw k; a position the supply does not list reads as its own index. */
  function At(s: Supply, k: nat): nat
  {
    if k in s then s[k] else k
  }

  /** `randomIntBetween(lo, hi)`: the raw value `u` picks an integer of the closed range [lo, hi]. */
  function IntBetween(lo: int, hi: int, u: nat): (r: int)
    requires lo <= hi
    ensures lo <= r <= hi
  {
    lo + u % (hi - lo + 1)
  }

  /** Every integer of the range is the draw of some raw value. */
  lemma IntBetweenReaches(lo: int, hi: int, v: int)
    requires lo <= v <= hi
    ensures IntBetween(lo, hi, v - lo) == v
  {
    assert (v - lo) % (hi - lo + 1) == v - lo;
  }

  /** `zeroPad(s, width)`: left-pads `s` with '0' up to `width`; a no-op when already that long. */
  function ZeroPad(s: string, width: nat): string
  {
    if |s| >= width then s else seq(width - |s|, _ => '0') + s
  }

  /** The padded string is at least `width` long, ends with `s`, and is '0' before it. */
  lemma ZeroPadShape(s: string, width: nat)
    ensures var r := ZeroPad(s, width);
      && |r| == (if |s| >= width then |s| else width)
      && r[|r| - |s|..] == s
      && forall i :: 0 <= i < |r| - |s| ==> r[i] == '0'
  {
    var r := ZeroPad(s, width);
    assert r[|r| - |s|..] == s;
  }
}
