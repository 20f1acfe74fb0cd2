/**
 * Duration and size formatting used in progress messages and thumbnails:
 * `TimeFormatter`, `hhmmss`, the thumbnail seek time and the unit selection of `humanbytes`.
 */
module MediaUtils {
  import opened Text

  // ---------------------------------------------------------------- TimeFormatter

  datatype Parts = Parts(days: int, hours: int, minutes: int, seconds: int, millis: int)

  /** The divmod chain by 1000, 60, 60 and 24 (floor division, as Python's `divmod` for positive divisors). */
  function Split(ms: int): (p: Parts)
    ensures 0 <= p.millis < 1000 && 0 <= p.seconds < 60 && 0 <= p.minutes < 60 && 0 <= p.hours < 24
    ensures (((p.days * 24 + p.hours) * 60 + p.minutes) * 60 + p.seconds) * 1000 + p.millis == ms
  {
    var seconds, millis := ms / 1000, ms % 1000;
    var minutes, seconds' := seconds / 60, seconds % 60;
    var hours, minutes' := minutes / 60, minutes % 60;
    var days, hours' := hours / 24, hours % 24;
    Parts(days, hours', minutes', seconds', millis)
  }

  /** `(str(v) + suffix + ", ") if v else ""`. */
  function Piece(v: int, suffix: string): string {
    if v != 0 then IntToString(v) + suffix + ", " else ""
  }

  /** Python `tmp[:-2]`. */
  function DropLast2(s: string): string {
    if |s| >= 2 then s[..|s| - 2] else []
  }

  /** `TimeFormatter(milliseconds)`. */
  function TimeFormatter(ms: int): string {
    var p := Split(ms);
    DropLast2(Piece(p.days, "d") + Piece(p.hours, "h") + Piece(p.minutes, "m")
      + Piece(p.seconds, "s") + Piece(p.millis, "ms"))
  }

  /** The labelled non-zero parts, largest unit first. */
  function Labels(ms: int): (r: seq<string>)
    ensures |r| <= 5
  {
    var p := Split(ms);
    (if p.days != 0 then [IntToString(p.days) + "d"] else [])
    + (if p.hours != 0 then [IntToString(p.hours) + "h"] else [])
    + (if p.minutes != 0 then [IntToString(p.minutes) + "m"] else [])
    + (if p.seconds != 0 then [IntToString(p.seconds) + "s"] else [])
    + (if p.millis != 0 then [IntToString(p.millis) + "ms"] else [])
  }

  /** Every part followed by `", "`. */
  function Terminated(ps: seq<string>): string
    decreases |ps|
  {
    if ps == [] then [] else ps[0] + ", " + Terminated(ps[1..])
  }

  lemma {:induction false} TerminatedAppend(a: seq<string>, b: seq<string>)
    ensures Terminated(a + b) == Terminated(a) + Terminated(b)
    decreases |a|
  {
    if a != [] {
      assert (a + b)[1..] == a[1..] + b;
      TerminatedAppend(a[1..], b);
    } else {
      assert a + b == b;
    }
  }

  /** Cutting the final `", "` of the terminated parts is joining them with `", "`. */
  lemma {:induction false} DropLast2Terminated(ps: seq<string>)
    ensures DropLast2(Terminated(ps)) == Join(ps, ", ")
    decreases |ps|
  {
    if |ps| == 1 {
      assert Terminated(ps) == ps[0] + ", " + [];
    } else if |ps| > 1 {
      DropLast2Terminated(ps[1..]);
      var t := Terminated(ps[1..]);
      assert |t| >= 2 by { assert t == ps[1] + ", " + Terminated(ps[2..]); }
      assert Terminated(ps) == ps[0] + ", " + t;
      assert (ps[0] + ", " + t)[..|ps[0] + ", " + t| - 2] == ps[0] + ", " + t[..|t| - 2];
    }
  }

  lemma PieceTerminated(v: int, suffix: string)
    ensures Piece(v, suffix) == Terminated(if v != 0 then [IntToString(v) + suffix] else [])
  {
    if v != 0 {
      assert Terminated([IntToString(v) + suffix]) == IntToString(v) + suffix + ", " + Terminated([]);
    }
  }

  /** `TimeFormatter` lists exactly the non-zero parts, largest unit first, separated by `", "`. */
  lemma TimeFormatterIsJoin(ms: int)
    ensures TimeFormatter(ms) == Join(Labels(ms), ", ")
  {
    var p := Split(ms);
    var d := if p.days != 0 then [IntToString(p.days) + "d"] else [];
    var h := if p.hours != 0 then [IntToString(p.hours) + "h"] else [];
    var m := if p.minutes != 0 then [IntToString(p.minutes) + "m"] else [];
    var s := if p.seconds != 0 then [IntToString(p.seconds) + "s"] else [];
    var l := if p.millis != 0 then [IntToString(p.millis) + "ms"] else [];
    PieceTerminated(p.days, "d");
    PieceTerminated(p.hours, "h");
    PieceTerminated(p.minutes, "m");
    PieceTerminated(p.seconds, "s");
    PieceTerminated(p.millis, "ms");
    TerminatedAppend(d, h);
    TerminatedAppend(d + h, m);
    TerminatedAppend(d + h + m, s);
    TerminatedAppend(d + h + m + s, l);
    DropLast2Terminated(Labels(ms));
  }

  /** The output is empty exactly for zero, and otherwise ends with a unit letter, never with `", "`. */
  lemma TimeFormatterShape(ms: int)
    ensures TimeFormatter(ms) == [] <==> ms == 0
    ensures TimeFormatter(ms) != [] ==> TimeFormatter(ms)[|TimeFormatter(ms)| - 1] in "dhms"
  {
    TimeFormatterIsJoin(ms);
    LabelsEmpty(ms);
    var ls := Labels(ms);
    if ls != [] {
      LastLabelUnit(ms);
      JoinLast(ls, ", ");
    }
  }

  /** No part is labelled exactly for zero milliseconds. */
  lemma LabelsEmpty(ms: int)
    ensures Labels(ms) == [] <==> ms == 0
  {
    var p := Split(ms);
    if Labels(ms) == [] {
      assert p.days == 0 && p.hours == 0 && p.minutes == 0 && p.seconds == 0 && p.millis == 0;
    }
  }

  /** The last label ends with the letter of its unit. */
  lemma LastLabelUnit(ms: int)
    requires Labels(ms) != []
    ensures var last := Labels(ms)[|Labels(ms)| - 1]; |last| >= 1 && last[|last| - 1] in "dhms"
  {
    var p := Split(ms);
    var ls := Labels(ms);
    var last := ls[|ls| - 1];
    if p.millis != 0 {
      assert last == IntToString(p.millis) + "ms";
    } else if p.seconds != 0 {
      assert last == IntToString(p.seconds) + "s";
    } else if p.minutes != 0 {
      assert last == IntToString(p.minutes) + "m";
    } else if p.hours != 0 {
      assert last == IntToString(p.hours) + "h";
    } else {
      assert last == IntToString(p.days) + "d";
    }
  }

  /** The join of non-empty parts ends with the end of the last part. */
  lemma {:induction false} JoinLast(ps: seq<string>, sep: string)
    requires ps != [] && |ps[|ps| - 1]| >= 1
    ensures var j := Join(ps, sep); |j| >= 1 && j[|j| - 1] == ps[|ps| - 1][|ps[|ps| - 1]| - 1]
    decreases |ps|
  {
    if |ps| > 1 {
      JoinLast(ps[1..], sep);
    }
  }

  // ---------------------------------------------------------------- hhmmss

  function Pad2(n: nat): (s: string)
    requires n < 100
    ensures |s| == 2 && AllDigits(s) && DigitsValue(s) == n
  {
    var s := [DigitChar(n / 10), DigitChar(n % 10)];
    assert s[..1] == [DigitChar(n / 10)] && s[..1][..0] == [];
    assert DigitsValue(s[..1]) == n / 10;
    s
  }

  /** `strftime('%H:%M:%S', gmtime(seconds))`: the time of day, so the hours wrap at 24. */
  function Hhmmss(seconds: int): (r: string)
    ensures |r| == 8 && r[2] == ':' && r[5] == ':'
    ensures AllDigits(r[0..2]) && AllDigits(r[3..5]) && AllDigits(r[6..8])
  {
    var t := seconds % 86400;
    Pad2(t / 3600) + ":" + Pad2(t % 3600 / 60) + ":" + Pad2(t % 60)
  }

  /** Reading the clock face back gives the seconds since midnight; hours stay below 24, minutes and seconds below 60. */
  lemma HhmmssReadBack(seconds: int)
    ensures var r := Hhmmss(seconds);
      DigitsValue(r[0..2]) < 24 && DigitsValue(r[3..5]) < 60 && DigitsValue(r[6..8]) < 60
      && DigitsValue(r[0..2]) * 3600 + DigitsValue(r[3..5]) * 60 + DigitsValue(r[6..8]) == seconds % 86400
  {
    var t := seconds % 86400;
    var r := Hhmmss(seconds);
    ClockFace(t);
    assert r == Pad2(t / 3600) + ":" + Pad2(t % 3600 / 60) + ":" + Pad2(t % 60);
    assert r[0..2] == Pad2(t / 3600);
    assert r[3..5] == Pad2(t % 3600 / 60);
    assert r[6..8] == Pad2(t % 60);
  }

  /** Hours, minutes and seconds of a time of day put together give the time back. */
  lemma ClockFace(t: int)
    requires 0 <= t < 86400
    ensures t / 3600 < 24 && t % 3600 / 60 < 60
    ensures t / 3600 * 3600 + t % 3600 / 60 * 60 + t % 60 == t
  {
    assert t % 3600 == t % 3600 / 60 * 60 + t % 3600 % 60;
    assert t % 3600 % 60 == t % 60;
  }

  /** The seek time of `screenshot`: the middle of the video, `hhmmss(duration // 2)`. */
  function SeekTime(duration: int): (r: string)
    ensures |r| == 8
  {
    Hhmmss(duration / 2)
  }

  lemma SeekTimeIsMiddle(duration: int)
    ensures var r := SeekTime(duration);
      DigitsValue(r[0..2]) * 3600 + DigitsValue(r[3..5]) * 60 + DigitsValue(r[6..8]) == (duration / 2) % 86400
  {
    HhmmssReadBack(duration / 2);
  }

  // ---------------------------------------------------------------- humanbytes

  /** `humanbytes(size)`: empty for a zero size, otherwise the size scaled into one of five binary units.
      `power` is the number of divisions by 1024, the `n` of `Dic_powerN[n]`; a size too big for the unit table
      is the `KeyError` of that lookup. */
  datatype HumanBytes = Empty | Scaled(value: real, power: nat, unit: string) | UnitTooLarge

  function Pow1024(n: nat): (p: nat)
    ensures p >= 1
  {
    if n == 0 then 1 else 1024 * Pow1024(n - 1)
  }

  /** The unit names of `Dic_powerN`, each followed by `B` in the output. */
  function UnitName(n: nat): string
    requires n < 5
  {
    [" ", "Ki", "Mi", "Gi", "Ti"][n] + "B"
  }

  /** `humanbytes`: the unit lookup after the scaling loop. The scaled value is exact; its text
      (`round(size, 2)`) is not modelled. */
  method HumanBytesOf(size: int) returns (r: HumanBytes)
    ensures r == Empty <==> size == 0
    ensures r.Scaled? ==>
      r.power < 5 && r.unit == UnitName(r.power)
      && r.value * Pow1024(r.power) as real == size as real
      && r.value <= 1024.0 && (r.power > 0 ==> r.value > 1.0)
    ensures r == UnitTooLarge <==> size > Pow1024(5)
  {
    if size == 0 {
      return Empty;
    }
    var x, n := ScaleDown(size);
    TooLargeExactly(x, n, size);
    if n >= 5 {
      return UnitTooLarge;
    }
    r := Scaled(x, n, UnitName(n));
  }

  /** The `while size > power: size /= power; n += 1` loop: `n` divisions by 1024 bring the size to at most 1024,
      and each one was taken from a value above 1024. */
  method ScaleDown(size: int) returns (x: real, n: nat)
    ensures x * Pow1024(n) as real == size as real && x <= 1024.0
    ensures n > 0 ==> x > 1.0 && size > Pow1024(n)
  {
    x := size as real;
    n := 0;
    while x > 1024.0
      invariant x * Pow1024(n) as real == size as real
      invariant n > 0 ==> x > 1.0
      invariant n > 0 ==> size > Pow1024(n)
      decreases size - Pow1024(n)
    {
      LoopStep(x, n, size);
      x := x / 1024.0;
      n := n + 1;
    }
  }

  /** Where the loop stops, the unit table runs out exactly for a size above `1024 ** 5`. */
  lemma TooLargeExactly(x: real, n: nat, size: int)
    requires x * Pow1024(n) as real == size as real && x <= 1024.0
    requires n > 0 ==> size > Pow1024(n)
    ensures n >= 5 <==> size > Pow1024(5)
  {
    NotAbove(x, Pow1024(n), size);
    if n >= 5 {
      PowMonotone(5, n);
    } else {
      PowMonotone(n + 1, 5);
    }
  }

  /** One turn of the loop keeps its invariants and brings the size closer to the power. */
  lemma LoopStep(x: real, n: nat, size: int)
    requires x * Pow1024(n) as real == size as real && x > 1024.0
    ensures (x / 1024.0) * Pow1024(n + 1) as real == size as real
    ensures x / 1024.0 > 1.0 && size > Pow1024(n + 1)
    ensures size - Pow1024(n + 1) < size - Pow1024(n)
  {
    ScaleStep(x, Pow1024(n), size);
  }

  /** One division by 1024 keeps the scaled value exact and shows the size passed the next power. */
  lemma ScaleStep(x: real, p: nat, size: int)
    requires p >= 1 && x * p as real == size as real && x > 1024.0
    ensures (x / 1024.0) * (1024 * p) as real == size as real
    ensures x / 1024.0 > 1.0 && size > 1024 * p && size > p
  {
    var P := p as real;
    var S := size as real;
    RealStep(x, P, S);
    assert (1024 * p) as real == 1024.0 * P;
  }

  lemma RealStep(x: real, P: real, S: real)
    requires P >= 1.0 && x * P == S && x > 1024.0
    ensures (x / 1024.0) * (1024.0 * P) == S && x / 1024.0 > 1.0 && S > 1024.0 * P
  {
    var y := x / 1024.0;
    assert y * 1024.0 == x;
    assert y * (1024.0 * P) == (y * 1024.0) * P;
    PositiveProduct(x - 1024.0, P);
    assert (x - 1024.0) * P == x * P - 1024.0 * P;
  }

  lemma PositiveProduct(a: real, b: real)
    requires a > 0.0 && b > 0.0
    ensures a * b > 0.0
  {
  }

  /** A scaled value of at most 1024 means the size is at most the next power. */
  lemma NotAbove(x: real, p: nat, size: int)
    requires p >= 1 && x * p as real == size as real && x <= 1024.0
    ensures size <= 1024 * p
  {
    var P := p as real;
    assert (1024.0 - x) * P >= 0.0 by {
      if x < 1024.0 { PositiveProduct(1024.0 - x, P); }
    }
    assert x * P <= 1024.0 * P;
    assert (1024 * p) as real == 1024.0 * P;
  }

  lemma {:induction false} PowMonotone(i: nat, j: nat)
    requires i <= j
    ensures Pow1024(i) <= Pow1024(j)
    decreases j
  {
    if i < j { PowMonotone(i, j - 1); }
  }
}
