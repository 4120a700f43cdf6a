/**
 * WGPlayerProtocols.swift: the tags of the control view's buttons and the `mm:ss`
 * rendering of a play time.
 */
module Protocols {
  import opened Wrappers
  import opened Time
  import opened Text

  /** `WGPlayerControlView.ButtonType`, an `Int` raw-value enum. */
  datatype ButtonType = Play | Pause | Back | Fullscreen | Replay
  {
    function RawValue(): int
    {
      match this
      case Play => 101
      case Pause => 102
      case Back => 103
      case Fullscreen => 105
      case Replay => 106
    }
  }

  /** `ButtonType(rawValue:)`: the failable initialiser. */
  function ButtonTypeFromRaw(raw: int): (b: Option<ButtonType>)
    ensures b.Some? ==> b.value.RawValue() == raw
    ensures b.None? <==> raw !in {101, 102, 103, 105, 106}
  {
    match raw
    case 101 => Some(Play)
    case 102 => Some(Pause)
    case 103 => Some(Back)
    case 105 => Some(Fullscreen)
    case 106 => Some(Replay)
    case _ => None
  }

  lemma ButtonTypeRoundTrip(b: ButtonType)
    ensures ButtonTypeFromRaw(b.RawValue()) == Some(b)
  {
  }

  lemma ButtonRawValuesDistinct(a: ButtonType, b: ButtonType)
    requires a != b
    ensures a.RawValue() != b.RawValue()
  {
  }

  /** 104 sits in the gap of the numbering and names no button. */
  lemma NoButtonAt104()
    ensures ButtonTypeFromRaw(104) == None
  {
  }

  /** `String(format: "%02d", n)`: at least two characters, zero-padded; a minus sign counts toward the width. */
  function Pad2(n: int): (r: string)
    ensures |r| >= 2
    ensures r[0] == '-' <==> n < 0
  {
    if n < 0 then "-" + Digits(-n)
    else if n < 10 then "0" + Digits(n)
    else Digits(n)
  }

  /** `WGPlayer.formatSecondsToString`. */
  function FormatSeconds(s: TimeInterval): (r: string)
    ensures s.NaN? ==> r == "00:00"
  {
    match s
    case NaN => "00:00"
    case Finite(x) =>
      var minutes := Trunc(x / 60.0);
      var seconds := Trunc(TruncatingRemainder(x, 60.0));
      Pad2(minutes) + ":" + Pad2(seconds)
  }

  /** On a non-negative time the two fields are the whole seconds divided by 60 and their remainder. */
  lemma FormatNonNegative(x: real)
    requires 0.0 <= x
    ensures FormatSeconds(Finite(x)) == Pad2(x.Floor / 60) + ":" + Pad2(x.Floor % 60)
    ensures 0 <= x.Floor % 60 < 60
  {
    var k := x.Floor;
    var q, r := k / 60, k % 60;
    assert k == 60 * q + r;
    assert q as real <= x / 60.0 < q as real + 1.0;
    assert Trunc(x / 60.0) == q;
    var rem := TruncatingRemainder(x, 60.0);
    assert rem == x - 60.0 * q as real;
    assert r as real <= rem < r as real + 1.0;
    assert Trunc(rem) == r;
  }

  lemma {:induction false} Pad2Reads(n: nat)
    ensures AllDigits(Pad2(n)) && ParseNat(Pad2(n)) == n
    ensures |Pad2(n)| >= 2
    ensures |Pad2(n)| == 2 <==> n < 100
  {
    DigitsLength(n);
    ParseDigits(n);
    if n < 10 {
      var p := Pad2(n);
      assert p[..1] == "0";
    }
  }

  /** Reads an `m…m:ss` clock back as whole seconds; `None` when the text has another shape. */
  function ParseClock(t: string): Option<nat>
  {
    if |t| >= 4 && t[|t| - 3] == ':' && AllDigits(t[..|t| - 3]) && AllDigits(t[|t| - 2..]) then
      Some(60 * ParseNat(t[..|t| - 3]) + ParseNat(t[|t| - 2..]))
    else
      None
  }

  /** Reading the rendering of a non-negative time gives back its whole seconds. */
  lemma ClockRoundTrip(x: real)
    requires 0.0 <= x
    ensures ParseClock(FormatSeconds(Finite(x))) == Some(x.Floor)
  {
    FormatNonNegative(x);
    var mm, ss := Pad2(x.Floor / 60), Pad2(x.Floor % 60);
    Pad2Reads(x.Floor / 60);
    Pad2Reads(x.Floor % 60);
    var t := mm + ":" + ss;
    assert t[..|t| - 3] == mm;
    assert t[|t| - 2..] == ss;
  }

  /** The rendering is exactly five characters ("MM:SS") below 6000 seconds, and longer from there on. */
  lemma ClockWidth(x: real)
    requires 0.0 <= x
    ensures |FormatSeconds(Finite(x))| == 5 <==> x < 6000.0
    ensures |FormatSeconds(Finite(x))| >= 5
  {
    FormatNonNegative(x);
    Pad2Reads(x.Floor / 60);
    Pad2Reads(x.Floor % 60);
  }

  /** Minutes are not capped at 59. */
  lemma FormatExamples()
    ensures FormatSeconds(Finite(65.0)) == "01:05"
    ensures FormatSeconds(Finite(3661.0)) == "61:01"
    ensures FormatSeconds(NaN) == "00:00"
  {
    FormatNonNegative(65.0);
    FormatNonNegative(3661.0);
  }

  /** A negative time truncates both fields toward zero, so each carries its own minus sign. */
  lemma FormatNegative()
    ensures FormatSeconds(Finite(-65.0)) == "-1:-5"
  {
    assert Trunc(-65.0 / 60.0) == -1;
    assert Trunc(TruncatingRemainder(-65.0, 60.0)) == -5;
  }
}
