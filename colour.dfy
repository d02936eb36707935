/**
 * Stroke colours: `randomColour` writes '#' and three two-digit lower-case hex
 * channels; `contrastingColour` starts by reading the three channels back with
 * `parseInt(…, 16)`. The two halves form an encode/parse pair.
 */
module Colour {
  import opened Wrappers
  import opened JsText
  import Random

  /** `randomIntBetween(0, 255)` on the raw draw `u`. */
  function Channel(u: nat): (n: nat)
    ensures n < 256
  {
    u % 256
  }

  /** That is the draw `randomIntBetween(0, 255)` makes of the raw value u. */
  lemma ChannelIsDraw(u: nat)
    ensures Channel(u) == Random.IntBetween(0, 255, u)
  {
  }

  /** Padding a run of lower-case hex digits with '0' keeps it one. */
  lemma PadKeepsHex(t: string, width: nat)
    requires AllLowerHex(t)
    ensures AllLowerHex(Random.ZeroPad(t, width))
  {
    var s := Random.ZeroPad(t, width);
    var d := |s| - |t|;
    Random.ZeroPadShape(t, width);
    forall i | 0 <= i < |s| ensures IsLowerHex(s[i]) {
      if i >= d {
        assert s[i] == s[d..][i - d];
      }
    }
  }

  /** A channel value as two lower-case hex digits, high digit first. */
  function HexByte(n: nat): string
    requires n < 256
  {
    [HexChar(n / 16), HexChar(n % 16)]
  }

  /** What `randomColour` writes for a channel, `zeroPad(n.toString(16), 2)`, is those two digits. */
  lemma HexBytePadded(n: nat)
    requires n < 256
    ensures Random.ZeroPad(ToHex(n), 2) == HexByte(n)
  {
    if n < 16 {
      assert HexChar(0) == '0';
      assert Random.ZeroPad(ToHex(n), 2) == ['0'] + ToHex(n);
    } else {
      assert ToHex(n / 16) == [HexChar(n / 16)];
    }
  }

  /** A channel is written as exactly two lower-case hex digits. */
  lemma HexByteShape(n: nat)
    requires n < 256
    ensures |HexByte(n)| == 2 && AllLowerHex(HexByte(n))
  {
  }

  /** The colour string `randomColour` builds from three channel values. */
  function RgbHex(r: nat, g: nat, b: nat): string
    requires r < 256 && g < 256 && b < 256
  {
    "#" + HexByte(r) + HexByte(g) + HexByte(b)
  }

  /** '#' followed by three two-digit runs of lower-case hex digits. */
  lemma HashThenHex(hr: string, hg: string, hb: string)
    requires |hr| == 2 && |hg| == 2 && |hb| == 2
    requires AllLowerHex(hr) && AllLowerHex(hg) && AllLowerHex(hb)
    ensures var c := "#" + hr + hg + hb; |c| == 7 && c[0] == '#' && AllLowerHex(c[1..])
  {
    var c := "#" + hr + hg + hb;
    var t := c[1..];
    assert t == hr + hg + hb;
    forall i | 0 <= i < 6 ensures IsLowerHex(t[i]) {
      if i < 2 { assert t[i] == hr[i]; }
      else if i < 4 { assert t[i] == hg[i - 2]; }
      else { assert t[i] == hb[i - 4]; }
    }
  }

  /** A colour of `randomColour` is 7 characters: '#' and six lower-case hex digits. */
  lemma RgbHexFormat(r: nat, g: nat, b: nat)
    requires r < 256 && g < 256 && b < 256
    ensures var c := RgbHex(r, g, b); |c| == 7 && c[0] == '#' && AllLowerHex(c[1..])
  {
    HexByteShape(r);
    HexByteShape(g);
    HexByteShape(b);
    HashThenHex(HexByte(r), HexByte(g), HexByte(b));
  }

  /** '#' and the two digits of each of the first `parts` channels drawn from position k. */
  function ChannelsText(src: Random.Supply, k: nat, parts: nat): string
    decreases parts
  {
    if parts == 0 then "#" else ChannelsText(src, k, parts - 1) + HexByte(Channel(Random.At(src, k + parts - 1)))
  }

  /** `randomColour()` when the supply holds the raw draws at k, k + 1 and k + 2. */
  function ColourAt(src: Random.Supply, k: nat): string
  {
    ChannelsText(src, k, 3)
  }

  /** That colour is the one written from the three channels those draws give. */
  lemma ColourAtChannels(src: Random.Supply, k: nat)
    ensures ColourAt(src, k) == RgbHex(Channel(Random.At(src, k)), Channel(Random.At(src, k + 1)), Channel(Random.At(src, k + 2)))
  {
    assert ChannelsText(src, k, 1) == "#" + HexByte(Channel(Random.At(src, k)));
    assert ChannelsText(src, k, 2) == "#" + HexByte(Channel(Random.At(src, k))) + HexByte(Channel(Random.At(src, k + 1)));
  }

  /** The three channels `contrastingColour` parses; `None` is NaN. */
  datatype Channels = Channels(red: Option<int>, green: Option<int>, blue: Option<int>)

  /**
   * The hex-parse step of `contrastingColour`: characters [1,3), [3,5) and [5,7)
   * through `parseInt(…, 16)`. Nothing checks the format, so a short string
   * yields NaN channels rather than an error.
   */
  function ParseChannels(c: string): (ch: Channels)
    ensures |c| <= 1 ==> ch.red.None?
    ensures |c| <= 3 ==> ch.green.None?
    ensures |c| <= 5 ==> ch.blue.None?
  {
    Channels(
      ParseInt16(Substring(c, 1, 3)),
      ParseInt16(Substring(c, 3, 5)),
      ParseInt16(Substring(c, 5, 7)))
  }

  /** A '0'-padded run of lower-case hex digits parses to the run's value. */
  lemma PaddedHexParses(t: string, width: nat)
    requires |t| >= 1 && AllLowerHex(t)
    ensures AllHex(t) && ParseInt16(Random.ZeroPad(t, width)) == Some(DigitsValue(t))
  {
    var s := Random.ZeroPad(t, width);
    Random.ZeroPadShape(t, width);
    var zs := s[..|s| - |t|];
    assert s == zs + t;
    assert AllHex(t) by {
      forall i | 0 <= i < |t| ensures IsHexDigit(t[i]) { assert IsLowerHex(t[i]); }
    }
    ZeroPrefixValue(zs, t);
    PadKeepsHex(t, width);
    ParseInt16OfDigits(s);
  }

  /** A written channel parses back to its value. */
  lemma HexByteParses(n: nat)
    requires n < 256
    ensures ParseInt16(HexByte(n)) == Some(n)
  {
    HexBytePadded(n);
    PaddedHexParses(ToHex(n), 2);
    ToHexValue(n);
  }

  /** The three substrings `contrastingColour` parses are the three runs after '#'. */
  lemma ChannelsOfJoin(hr: string, hg: string, hb: string)
    requires |hr| == 2 && |hg| == 2 && |hb| == 2
    ensures ParseChannels("#" + hr + hg + hb) == Channels(ParseInt16(hr), ParseInt16(hg), ParseInt16(hb))
  {
    var c := "#" + hr + hg + hb;
    assert c[1..3] == hr;
    assert c[3..5] == hg;
    assert c[5..7] == hb;
  }

  /** Parsing the colour `randomColour` wrote gives back exactly its three channels. */
  lemma ChannelsRoundTrip(r: nat, g: nat, b: nat)
    requires r < 256 && g < 256 && b < 256
    ensures ParseChannels(RgbHex(r, g, b)) == Channels(Some(r), Some(g), Some(b))
  {
    HexByteShape(r);
    HexByteShape(g);
    HexByteShape(b);
    ChannelsOfJoin(HexByte(r), HexByte(g), HexByte(b));
    HexByteParses(r);
    HexByteParses(g);
    HexByteParses(b);
  }
}
