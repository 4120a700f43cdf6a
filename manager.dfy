/**
 * WGPlayerManager.swift: the process-wide configuration object, the top-bar policy, the
 * hexadecimal colour initialiser and the integer-range string subscript it relies on.
 */
module Manager {
  import opened Text

  /** `WGPlayerTopBarShowCase`, an `Int` raw-value enum. */
  datatype TopBarShowCase = Always | HorizantalOnly | None
  {
    function RawValue(): int
    {
      match this
      case Always => 0
      case HorizantalOnly => 1
      case None => 2
    }
  }

  lemma TopBarRawValues()
    ensures Always.RawValue() == 0 && HorizantalOnly.RawValue() == 1 && None.RawValue() == 2
  {
  }

  /** `self[r]` on a `String` for an integer `Range` `lower..<upper`; out-of-range offsets trap in Swift. */
  function Subscript(s: string, lower: int, upper: int): (r: string)
    requires 0 <= lower <= upper <= |s|
    ensures |r| == upper - lower
    ensures forall i :: 0 <= i < |r| ==> r[i] == s[lower + i]
  {
    s[lower..upper]
  }

  /** The local `colorString` after `if colorString.hasPrefix("#") { colorString.removeFirst() }`. */
  function StripHash(s: string): (r: string)
    ensures HasPrefix(s, "#") ==> "#" + r == s
    ensures !HasPrefix(s, "#") ==> r == s
    ensures |r| == if |s| > 0 && s[0] == '#' then |s| - 1 else |s|
  {
    if HasPrefix(s, "#") then s[1..] else s
  }

  lemma StripHashOnce(t: string)
    ensures StripHash("#" + t) == t
  {
  }

  function HexDigitValue(c: char): (v: int)
    ensures -1 <= v < 16
  {
    if '0' <= c <= '9' then c as int - '0' as int
    else if 'a' <= c <= 'f' then c as int - 'a' as int + 10
    else if 'A' <= c <= 'F' then c as int - 'A' as int + 10
    else -1
  }

  predicate IsHexDigit(c: char)
  {
    HexDigitValue(c) >= 0
  }

  /** What `Scanner.scanHexInt32` leaves in a variable that starts at `acc`: the value of the leading hex digits. */
  function ScanHexFrom(s: string, acc: nat): (r: nat)
    ensures acc <= r < (acc + 1) * Pow16(|s|)
  {
    if s == [] || !IsHexDigit(s[0]) then
      PowPositive(|s|);
      acc
    else
      var next := 16 * acc + HexDigitValue(s[0]);
      var r := ScanHexFrom(s[1..], next);
      ScanStepBound(acc, HexDigitValue(s[0]), Pow16(|s| - 1));
      r
  }

  /** 16 to the power k: one more than the largest value k hex digits can hold. */
  function Pow16(k: nat): nat
  {
    if k == 0 then 1 else 16 * Pow16(k - 1)
  }

  lemma {:induction false} PowPositive(k: nat)
    ensures Pow16(k) >= 1
  {
    if k > 0 {
      PowPositive(k - 1);
    }
  }

  /** One more digit below 16 keeps the bound: (16 * acc + d + 1) * p <= (acc + 1) * (16 * p). */
  lemma ScanStepBound(acc: nat, d: nat, p: nat)
    requires d < 16
    ensures (16 * acc + d + 1) * p <= (acc + 1) * (16 * p)
  {
    calc {
      (16 * acc + d + 1) * p;
    <= { assert 16 * acc + d + 1 <= 16 * (acc + 1); }
      (16 * (acc + 1)) * p;
    ==
      (acc + 1) * (16 * p);
    }
  }

  /** A two-character component always fits in a byte, and two hex digits give their value. */
  lemma ScanHexPair(p: string)
    requires |p| == 2
    ensures ScanHexFrom(p, 0) <= 255
    ensures IsHexDigit(p[0]) && IsHexDigit(p[1]) ==>
      ScanHexFrom(p, 0) == 16 * HexDigitValue(p[0]) + HexDigitValue(p[1])
  {
    if IsHexDigit(p[0]) {
      var hi := HexDigitValue(p[0]);
      assert ScanHexFrom(p, 0) == ScanHexFrom(p[1..], hi);
      if IsHexDigit(p[1]) {
        assert p[1..][1..] == [];
        assert ScanHexFrom(p[1..], hi) == ScanHexFrom(p[1..][1..], 16 * hi + HexDigitValue(p[1]));
      }
    }
  }

  /** Red, green and blue read from character ranges 0..<2, 2..<4 and 4..<6 of the stripped text. */
  function HexComponents(hexColor: string): (rgb: (nat, nat, nat))
    requires |StripHash(hexColor)| >= 6
    ensures rgb.0 <= 255 && rgb.1 <= 255 && rgb.2 <= 255
  {
    var c := StripHash(hexColor);
    ScanHexPair(Subscript(c, 0, 2));
    ScanHexPair(Subscript(c, 2, 4));
    ScanHexPair(Subscript(c, 4, 6));
    (ScanHexFrom(Subscript(c, 0, 2), 0), ScanHexFrom(Subscript(c, 2, 4), 0), ScanHexFrom(Subscript(c, 4, 6), 0))
  }

  /** A colour as `UIColor(red:green:blue:alpha:)` receives it, with each component still over 255. */
  datatype Rgba = Rgba(red: nat, green: nat, blue: nat, alpha: real)

  /** `UIColor.init(_ hexColor: String, _ alpha: CGFloat = 1)`. */
  method HexColor(hexColor: string, alpha: real := 1.0) returns (color: Rgba)
    requires |StripHash(hexColor)| >= 6
    ensures (color.red, color.green, color.blue) == HexComponents(hexColor) && color.alpha == alpha
    ensures color.red <= 255 && color.green <= 255 && color.blue <= 255
  {
    var colorString := hexColor;
    if HasPrefix(colorString, "#") {
      colorString := colorString[1..];
    }
    var red, green, blue := 0, 0, 0;
    red := ScanHexFrom(Subscript(colorString, 0, 2), red);
    green := ScanHexFrom(Subscript(colorString, 2, 4), green);
    blue := ScanHexFrom(Subscript(colorString, 4, 6), blue);
    color := Rgba(red, green, blue, alpha);
  }

  function HexChar(d: nat): (c: char)
    requires d < 16
    ensures IsHexDigit(c) && HexDigitValue(c) == d
  {
    "0123456789ABCDEF"[d]
  }

  /** A byte as two upper-case hex digits. */
  function HexByte(n: nat): (s: string)
    requires n < 256
    ensures |s| == 2 && IsHexDigit(s[0]) && IsHexDigit(s[1])
  {
    [HexChar(n / 16), HexChar(n % 16)]
  }

  /** Writing three bytes as six hex digits, with or without a leading "#", and reading them back gives the bytes. */
  lemma HexRoundTrip(r: nat, g: nat, b: nat)
    requires r < 256 && g < 256 && b < 256
    ensures HexComponents(HexByte(r) + HexByte(g) + HexByte(b)) == (r, g, b)
    ensures HexComponents("#" + HexByte(r) + HexByte(g) + HexByte(b)) == (r, g, b)
  {
    var s := HexByte(r) + HexByte(g) + HexByte(b);
    assert !HasPrefix(s, "#") by { assert s[0] == HexChar(r / 16); }
    assert "#" + HexByte(r) + HexByte(g) + HexByte(b) == "#" + s;
    assert StripHash("#" + s) == s by { StripHashOnce(s); }
    assert Subscript(s, 0, 2) == HexByte(r);
    assert Subscript(s, 2, 4) == HexByte(g);
    assert Subscript(s, 4, 6) == HexByte(b);
    ScanHexPair(HexByte(r));
    ScanHexPair(HexByte(g));
    ScanHexPair(HexByte(b));
  }

  /** The default tint "FF6E27". */
  lemma DefaultTint()
    ensures HexComponents("FF6E27") == (255, 110, 39)
  {
    HexRoundTrip(255, 110, 39);
    assert HexByte(255) + HexByte(110) + HexByte(39) == "FF6E27";
  }

  /** `WGPlayerManager`: the configuration that `WGPlayerConf` names, shared and mutable. */
  class PlayerManager {
    var tintColor: Rgba
    var shouldAutoPlay: bool
    var topBarShowInCase: TopBarShowCase
    var animateDelayTimeInterval: real
    var allowLog: bool
    var enableBrightnessGestures: bool
    var enableVolumeGestures: bool
    var enablePlaytimeGestures: bool
    var enableChooseDefinition: bool

    constructor ()
      ensures tintColor == Rgba(255, 110, 39, 1.0)
      ensures shouldAutoPlay && topBarShowInCase == Always
      ensures animateDelayTimeInterval == 5.0 && !allowLog
      ensures enableBrightnessGestures && enableVolumeGestures
      ensures enablePlaytimeGestures && enableChooseDefinition
    {
      DefaultTint();
      var tint := HexColor("FF6E27");
      tintColor := tint;
      shouldAutoPlay := true;
      topBarShowInCase := Always;
      animateDelayTimeInterval := 5.0;
      allowLog := false;
      enableBrightnessGestures := true;
      enableVolumeGestures := true;
      enablePlaytimeGestures := true;
      enableChooseDefinition := true;
    }
  }
}
