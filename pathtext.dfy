/**
  The `d` attribute of a line (`generatePath`, public/lines.js:27-34): an SVG
  path in absolute coordinates (section 8.3 of SVG 1.1, "Path data"),

      M x0,y0 Q cx,cy x1,y1 T x2,y2

  a quadratic Bezier curve from the start point to the join point through a
  control point, continued by a smooth quadratic curve to the end point whose
  control point is the reflection of the first one about the join point.

  Integers are written as JavaScript template literals write them: decimal
  digits, with a leading minus sign when negative. `ParseCurve` reads such a
  path back; the round trip shows that the text holds exactly the curve's
  coordinates.
*/
module PathText {
  import opened Wrappers
  import opened Waves

  datatype Point = Point(x: int, y: int)

  datatype Curve = Curve(start: Point, control: Point, join: Point, end: Point)

  predicate IsDigit(c: char) {
    '0' <= c <= '9'
  }

  predicate AllDigits(s: string) {
    forall i :: 0 <= i < |s| ==> IsDigit(s[i])
  }

  function DigitChar(d: nat): (c: char)
    requires d < 10
    ensures IsDigit(c)
  {
    ('0' as int + d) as char
  }

  /** Decimal digits of `n`, most significant first, without leading zeros. */
  function NatText(n: nat): (s: string)
    ensures |s| > 0 && AllDigits(s)
    ensures |s| > 1 ==> s[0] != '0'
    decreases n
  {
    if n < 10 then [DigitChar(n)] else NatText(n / 10) + [DigitChar(n % 10)]
  }

  /** How a template literal writes an integer. */
  function IntText(n: int): (s: string)
    ensures |s| > 0
    ensures forall i :: 0 <= i < |s| ==> s[i] == '-' || IsDigit(s[i])
  {
    if n < 0 then "-" + NatText(-n) else NatText(n)
  }

  /** The text of an integer is a minus sign exactly when it is negative, followed by digits. */
  lemma IntTextShape(n: int)
    ensures (IntText(n)[0] == '-') == (n < 0)
    ensures AllDigits(if n < 0 then IntText(n)[1..] else IntText(n))
  {
    if n < 0 {
      assert IntText(n)[1..] == NatText(-n);
    }
  }

  /** The number a string of decimal digits denotes. */
  function DigitsValue(s: string): nat
    requires AllDigits(s)
    decreases |s|
  {
    if |s| == 0 then 0 else 10 * DigitsValue(s[..|s| - 1]) + (s[|s| - 1] as int - '0' as int)
  }

  /** Reads an optionally negative decimal integer that makes up all of `s`. */
  function ParseInt(s: string): Option<int> {
    if |s| >= 2 && s[0] == '-' && AllDigits(s[1..]) then Some(-(DigitsValue(s[1..]) as int))
    else if |s| >= 1 && AllDigits(s) then Some(DigitsValue(s))
    else None
  }

  lemma {:induction false} NatTextValue(n: nat)
    ensures DigitsValue(NatText(n)) == n
    decreases n
  {
    if n >= 10 {
      NatTextValue(n / 10);
      var s := NatText(n);
      assert s[..|s| - 1] == NatText(n / 10);
    }
  }

  /** Reading back a written integer gives the integer. */
  lemma IntTextParses(n: int)
    ensures ParseInt(IntText(n)) == Some(n)
  {
    var s := IntText(n);
    if n < 0 {
      assert s[1..] == NatText(-n);
      NatTextValue(-n);
    } else {
      NatTextValue(n);
    }
  }

  /** The text before the first `sep` in `s`, and the text after it. */
  function SplitAt(s: string, sep: char): (r: Option<(string, string)>)
    ensures r.Some? ==> s == r.value.0 + [sep] + r.value.1 && sep !in r.value.0
    ensures r.None? ==> sep !in s
    decreases |s|
  {
    if |s| == 0 then None
    else if s[0] == sep then Some(([], s[1..]))
    else match SplitAt(s[1..], sep)
      case None => None
      case Some((before, after)) => Some(([s[0]] + before, after))
  }

  lemma {:induction false} SplitAtFirst(before: string, sep: char, after: string)
    requires sep !in before
    ensures SplitAt(before + [sep] + after, sep) == Some((before, after))
    decreases |before|
  {
    var s := before + [sep] + after;
    if |before| > 0 {
      assert s[0] == before[0];
      assert s[1..] == before[1..] + [sep] + after;
      SplitAtFirst(before[1..], sep, after);
      assert [s[0]] + before[1..] == before;
    } else {
      assert s[1..] == after;
    }
  }

  function PointText(p: Point): string {
    IntText(p.x) + "," + IntText(p.y)
  }

  /** The path text of a curve, exactly as `generatePath` lays it out. */
  function CurveText(c: Curve): string {
    "M" + PointText(c.start) + " Q" + PointText(c.control) + " " + PointText(c.join) + " T" + PointText(c.end)
  }

  /** Reads "x,y" followed by `stop`; gives the point and the text after `stop`. */
  function ReadPoint(s: string, stop: char): Option<(Point, string)> {
    match SplitAt(s, ',')
    case None => None
    case Some((xs, rest)) =>
      match SplitAt(rest, stop)
      case None => None
      case Some((ys, tail)) =>
        match (ParseInt(xs), ParseInt(ys))
        case (Some(x), Some(y)) => Some((Point(x, y), tail))
        case _ => None
  }

  /** Reads "x,y" that runs to the end of `s`. */
  function ReadLastPoint(s: string): Option<Point> {
    match SplitAt(s, ',')
    case None => None
    case Some((xs, ys)) =>
      match (ParseInt(xs), ParseInt(ys))
      case (Some(x), Some(y)) => Some(Point(x, y))
      case _ => None
  }

  /** Reads a path of the shape `CurveText` writes. */
  function ParseCurve(s: string): Option<Curve> {
    if |s| == 0 || s[0] != 'M' then None else ParseFromStart(s[1..])
  }

  function ParseFromStart(s: string): Option<Curve> {
    match ReadPoint(s, ' ')
    case None => None
    case Some((start, rest)) =>
      if |rest| == 0 || rest[0] != 'Q' then None else ParseFromControl(start, rest[1..])
  }

  function ParseFromControl(start: Point, s: string): Option<Curve> {
    match ReadPoint(s, ' ')
    case None => None
    case Some((control, rest)) => ParseFromJoin(start, control, rest)
  }

  function ParseFromJoin(start: Point, control: Point, s: string): Option<Curve> {
    match ReadPoint(s, ' ')
    case None => None
    case Some((join, rest)) =>
      if |rest| == 0 || rest[0] != 'T' then None
      else match ReadLastPoint(rest[1..])
        case None => None
        case Some(end) => Some(Curve(start, control, join, end))
  }

  lemma ReadPointFirst(p: Point, stop: char, rest: string)
    requires stop != '-' && !IsDigit(stop)
    ensures ReadPoint(PointText(p) + [stop] + rest, stop) == Some((p, rest))
  {
    var xs, ys := IntText(p.x), IntText(p.y);
    assert ',' !in xs by {
      forall i | 0 <= i < |xs| ensures xs[i] != ',' { }
    }
    assert stop !in ys by {
      forall i | 0 <= i < |ys| ensures ys[i] != stop { }
    }
    assert PointText(p) + [stop] + rest == xs + [','] + (ys + [stop] + rest);
    SplitAtFirst(xs, ',', ys + [stop] + rest);
    SplitAtFirst(ys, stop, rest);
    IntTextParses(p.x);
    IntTextParses(p.y);
  }

  lemma ReadLastPointAll(p: Point)
    ensures ReadLastPoint(PointText(p)) == Some(p)
  {
    var xs, ys := IntText(p.x), IntText(p.y);
    assert ',' !in xs by {
      forall i | 0 <= i < |xs| ensures xs[i] != ',' { }
    }
    SplitAtFirst(xs, ',', ys);
    IntTextParses(p.x);
    IntTextParses(p.y);
  }

  /** The curve layout regrouped so that each command letter heads the rest of the text. */
  lemma CurveLayout(t0: string, t1: string, t2: string, t3: string)
    ensures "M" + t0 + " Q" + t1 + " " + t2 + " T" + t3 ==
      ['M'] + (t0 + [' '] + (['Q'] + (t1 + [' '] + (t2 + [' '] + (['T'] + t3)))))
  {
  }

  /** Where the text of a curve splits into its points and command letters. */
  lemma CurveTextPieces(c: Curve)
    ensures CurveText(c) ==
      ['M'] + (PointText(c.start) + [' '] + (['Q'] + (PointText(c.control) + [' '] +
        (PointText(c.join) + [' '] + (['T'] + PointText(c.end))))))
  {
    CurveLayout(PointText(c.start), PointText(c.control), PointText(c.join), PointText(c.end));
  }

  lemma ParseFromJoinSteps(start: Point, control: Point, c: Curve, joinText: string, endText: string)
    requires ReadPoint(joinText + [' '] + (['T'] + endText), ' ') == Some((c.join, ['T'] + endText))
    requires ReadLastPoint(endText) == Some(c.end)
    requires start == c.start && control == c.control
    ensures ParseFromJoin(start, control, joinText + [' '] + (['T'] + endText)) == Some(c)
  {
  }

  lemma ParseFromControlSteps(start: Point, c: Curve, controlText: string, rest: string)
    requires ReadPoint(controlText + [' '] + rest, ' ') == Some((c.control, rest))
    requires ParseFromJoin(start, c.control, rest) == Some(c)
    ensures ParseFromControl(start, controlText + [' '] + rest) == Some(c)
  {
  }

  lemma ParseCurveSteps(c: Curve, startText: string, rest: string)
    requires ReadPoint(startText + [' '] + (['Q'] + rest), ' ') == Some((c.start, ['Q'] + rest))
    requires ParseFromControl(c.start, rest) == Some(c)
    ensures ParseCurve(['M'] + (startText + [' '] + (['Q'] + rest))) == Some(c)
  {
  }

  /** The path text of a curve reads back as that very curve. */
  lemma CurveTextParses(c: Curve)
    ensures ParseCurve(CurveText(c)) == Some(c)
  {
    var t0, t1, t2, t3 := PointText(c.start), PointText(c.control), PointText(c.join), PointText(c.end);
    var fromJoin := t2 + [' '] + (['T'] + t3);
    var fromControl := t1 + [' '] + fromJoin;
    CurveTextPieces(c);
    ReadPointFirst(c.join, ' ', ['T'] + t3);
    ReadLastPointAll(c.end);
    ParseFromJoinSteps(c.start, c.control, c, t2, t3);
    ReadPointFirst(c.control, ' ', fromJoin);
    ParseFromControlSteps(c.start, c, t1, fromJoin);
    ReadPointFirst(c.start, ' ', ['Q'] + fromControl);
    ParseCurveSteps(c, t0, fromControl);
  }

  /** Different curves are written as different texts. */
  lemma CurveTextInjective(c1: Curve, c2: Curve)
    requires CurveText(c1) == CurveText(c2)
    ensures c1 == c2
  {
    CurveTextParses(c1);
    CurveTextParses(c2);
  }

  /** The curve line `index` draws for `wave`. */
  function CurveOf(wave: Wave, index: int): Curve
    requires WellFormed(wave)
  {
    var spacer := wave.spaceBetweenLines * index;
    Curve(Point(wave.waveInterval[0], spacer),
          Point(wave.waveInterval[1], wave.waveHeights[0] + spacer),
          Point(wave.waveInterval[2], spacer),
          Point(wave.waveInterval[3], wave.waveHeights[1] + spacer))
  }

  /** `generatePath`: the `d` attribute of line `index` drawing `wave`. */
  function GeneratePath(wave: Wave, index: int): string
    requires WellFormed(wave)
  {
    CurveText(CurveOf(wave, index))
  }

  /**
    The text `generatePath` writes encodes exactly the wave's four intervals as
    x-coordinates, the line's offset `spaceBetweenLines * index` as the
    y-coordinate of the start and join points, and the two heights added to
    that offset for the control and end points.
  */
  lemma GeneratePathParses(wave: Wave, index: int)
    requires WellFormed(wave)
    ensures ParseCurve(GeneratePath(wave, index)) ==
      Some(Curve(Point(wave.waveInterval[0], SPACE_BETWEEN_LINES * index),
                 Point(wave.waveInterval[1], wave.waveHeights[0] + SPACE_BETWEEN_LINES * index),
                 Point(wave.waveInterval[2], SPACE_BETWEEN_LINES * index),
                 Point(wave.waveInterval[3], wave.waveHeights[1] + SPACE_BETWEEN_LINES * index)))
  {
    CurveTextParses(CurveOf(wave, index));
  }

  /** On one line, different waves draw different paths. */
  lemma GeneratePathInjective(a: Wave, b: Wave, index: int)
    requires WellFormed(a) && WellFormed(b)
    requires GeneratePath(a, index) == GeneratePath(b, index)
    ensures a == b
  {
    CurveTextInjective(CurveOf(a, index), CurveOf(b, index));
    CurveOfInjective(a, b, index);
  }

  lemma CurveOfInjective(a: Wave, b: Wave, index: int)
    requires WellFormed(a) && WellFormed(b)
    requires CurveOf(a, index) == CurveOf(b, index)
    ensures a == b
  {
  }

  /** The control point of the smooth segment that SVG infers: the first control mirrored in the join. */
  function SmoothControl(c: Curve): Point {
    Point(2 * c.join.x - c.control.x, 2 * c.join.y - c.control.y)
  }

  /** The second segment mirrors the first: its control lies the first height below the line. */
  lemma SmoothControlOfWave(wave: Wave, index: int)
    requires WellFormed(wave)
    ensures SmoothControl(CurveOf(wave, index)) ==
      Point(2 * wave.waveInterval[2] - wave.waveInterval[1],
            SPACE_BETWEEN_LINES * index - wave.waveHeights[0])
  {
  }

  /** The worked example: interval [-10, 40, 70, 250], heights [5, 15], line 1. */
  lemma GeneratePathExample()
    ensures GeneratePath(Wave(6, [-10, 40, 70, 250], [5, 15]), 1) == "M-10,6 Q40,11 70,6 T250,21"
  {
    var c := CurveOf(Wave(6, [-10, 40, 70, 250], [5, 15]), 1);
    assert c == Curve(Point(-10, 6), Point(40, 11), Point(70, 6), Point(250, 21));
    ExamplePoints();
  }

  /** The four points of the worked example, written out. */
  lemma ExamplePoints()
    ensures PointText(Point(-10, 6)) == "-10,6" && PointText(Point(40, 11)) == "40,11"
    ensures PointText(Point(70, 6)) == "70,6" && PointText(Point(250, 21)) == "250,21"
  {
    assert NatText(10) == "10" && NatText(11) == "11" && NatText(21) == "21";
    assert NatText(40) == "40" && NatText(70) == "70" && NatText(25) == "25";
    assert NatText(250) == "250";
  }
}
