/**
  Face-shape classification from the jaw outline and the face contour of
  one detected face.

  Four widths and heights are measured at fixed landmark indices, three
  ratios are formed from them, and a first-match-wins chain of rules maps
  the ratios (and one raw coordinate comparison) to one of six shapes.
  Coordinates are reals; a ratio with a zero denominator takes the IEEE 754
  value the browser computes (an infinity or NaN), and comparisons with
  such a ratio follow IEEE 754.
 */
module FaceShape {

  /** A landmark position on the face. */
  datatype Point = Point(x: real, y: real)

  /** The closed set of outcomes, in the priority order of the rules. */
  datatype Shape = Round | Square | Oval | Heart | Diamond | Undetermined

  /** The six texts the classifier can return. */
  const ShapeNames: set<string> := {"Round", "Square", "Oval", "Heart", "Diamond", "Undetermined"}

  /** The text returned for each shape. */
  function Name(s: Shape): (r: string)
    ensures r in ShapeNames
  {
    match s
    case Round => "Round"
    case Square => "Square"
    case Oval => "Oval"
    case Heart => "Heart"
    case Diamond => "Diamond"
    case Undetermined => "Undetermined"
  }

  /** Distinct shapes are shown as distinct texts, so every one of the six texts names exactly one shape. */
  lemma NamesAreDistinct(a: Shape, b: Shape)
    ensures Name(a) == Name(b) <==> a == b
  {
  }

  /** Which landmark sequence a failed read was aimed at. */
  datatype Outline = Jaw | Contour

  /** The outcome of one classification: a shape, or the first landmark read
      that hit a missing point (reading `.x` of `undefined` throws). */
  datatype Classification = Classified(shape: Shape) | MissingPoint(outline: Outline, index: nat)

  /** Math.abs. */
  function Abs(a: real): (r: real)
    ensures r >= 0.0
    ensures r == a || r == -a
  {
    if a < 0.0 then -a else a
  }

  /** A quotient of two doubles: finite when the denominator is non-zero,
      otherwise a signed infinity, or NaN for 0/0. */
  datatype Ratio = Finite(value: real) | PosInfinity | NegInfinity | NaN

  /** IEEE 754 division, without rounding. A real zero has no sign, so the
      zero-denominator cases are those of a +0 denominator; that is exact
      here because every denominator the classifier divides by is a
      Math.abs result, and Math.abs never returns -0. */
  function Divide(n: real, d: real): (q: Ratio)
    ensures q.Finite? <==> d != 0.0
    ensures q == PosInfinity <==> d == 0.0 && n > 0.0
    ensures q == NegInfinity <==> d == 0.0 && n < 0.0
    ensures q == NaN <==> d == 0.0 && n == 0.0
  {
    if d != 0.0 then Finite(n / d)
    else if n > 0.0 then PosInfinity
    else if n < 0.0 then NegInfinity
    else NaN
  }

  /** `q < c` for a finite threshold `c`; every comparison with NaN is false. */
  function Below(q: Ratio, c: real): (r: bool)
    ensures q == NaN ==> !r
    ensures q == PosInfinity ==> !r
    ensures q == NegInfinity ==> r
    ensures q.Finite? ==> (r <==> q.value < c)
  {
    match q
    case Finite(v) => v < c
    case PosInfinity => false
    case NegInfinity => true
    case NaN => false
  }

  /** `q > c` for a finite threshold `c`; every comparison with NaN is false. */
  function Above(q: Ratio, c: real): (r: bool)
    ensures q == NaN ==> !r
    ensures q == PosInfinity ==> r
    ensures q == NegInfinity ==> !r
    ensures q.Finite? ==> (r <==> q.value > c)
  {
    match q
    case Finite(v) => v > c
    case PosInfinity => true
    case NegInfinity => false
    case NaN => false
  }

  /** No ratio is both below and above the same threshold, and NaN is
      neither: the two comparisons leave a gap exactly at `c` and at NaN. */
  lemma BelowExcludesAbove(q: Ratio, c: real)
    ensures !(Below(q, c) && Above(q, c))
    ensures !Below(q, c) && !Above(q, c) <==> q == NaN || q == Finite(c)
  {
  }

  /** The four distances the classifier measures. */
  datatype Measurements = Measurements(jawWidth: real, jawHeight: real, cheekboneWidth: real, foreheadWidth: real)

  /** Every landmark the classifier reads exists. */
  predicate HasLandmarks(jaw: seq<Point>, contour: seq<Point>)
  {
    |jaw| >= 4 && |contour| >= 27
  }

  /** The index of the chin: the middle of the jaw outline. */
  function Middle(jaw: seq<Point>): (i: nat)
    requires |jaw| >= 1
    ensures i < |jaw|
    ensures i + i <= |jaw| < i + i + 2
  {
    |jaw| / 2
  }

  /** The measurements taken from the landmarks: jaw corners, chin,
      cheekbones (fourth point from each end of the jaw) and the forehead
      corners (contour points 17 and 26). */
  function Measure(jaw: seq<Point>, contour: seq<Point>): (m: Measurements)
    requires HasLandmarks(jaw, contour)
    ensures m.jawWidth >= 0.0 && m.jawHeight >= 0.0 && m.cheekboneWidth >= 0.0 && m.foreheadWidth >= 0.0
    ensures m.jawWidth == 0.0 <==> jaw[0].x == jaw[|jaw| - 1].x
    ensures m.jawHeight == 0.0 <==> jaw[0].y == jaw[Middle(jaw)].y
    ensures m.cheekboneWidth == 0.0 <==> jaw[3].x == jaw[|jaw| - 4].x
    ensures m.foreheadWidth == 0.0 <==> contour[17].x == contour[26].x
  {
    Measurements(
      Abs(jaw[0].x - jaw[|jaw| - 1].x),
      Abs(jaw[0].y - jaw[Middle(jaw)].y),
      Abs(jaw[3].x - jaw[|jaw| - 4].x),
      Abs(contour[17].x - contour[26].x))
  }

  /** The three ratios the rules compare. */
  datatype Ratios = Ratios(jawToCheek: Ratio, jawToHeight: Ratio, cheekToForehead: Ratio)

  /** The three quotients of the measured distances. Each is finite exactly
      when its denominator is non-zero and NaN exactly when both of its
      distances are zero; distances are never negative, so no ratio is
      -Infinity. */
  function RatiosOf(m: Measurements): (q: Ratios)
    ensures q.jawToCheek.Finite? <==> m.cheekboneWidth != 0.0
    ensures q.jawToHeight.Finite? <==> m.jawHeight != 0.0
    ensures q.cheekToForehead.Finite? <==> m.foreheadWidth != 0.0
    ensures q.jawToCheek == NaN <==> m.jawWidth == 0.0 && m.cheekboneWidth == 0.0
    ensures q.jawToHeight == NaN <==> m.jawWidth == 0.0 && m.jawHeight == 0.0
    ensures q.cheekToForehead == NaN <==> m.cheekboneWidth == 0.0 && m.foreheadWidth == 0.0
    ensures m.jawWidth >= 0.0 && m.cheekboneWidth >= 0.0 ==>
      q.jawToCheek != NegInfinity && q.jawToHeight != NegInfinity && q.cheekToForehead != NegInfinity
  {
    Ratios(
      Divide(m.jawWidth, m.cheekboneWidth),
      Divide(m.jawWidth, m.jawHeight),
      Divide(m.cheekboneWidth, m.foreheadWidth))
  }

  /** The Heart rule does not look at the ratios: it asks whether the first
      jaw point lies left of the chin. */
  function HeartCue(jaw: seq<Point>): (r: bool)
    requires |jaw| >= 1
    ensures r ==> |jaw| >= 2 && jaw[0] != jaw[Middle(jaw)]
  {
    jaw[0].x < jaw[Middle(jaw)].x
  }

  /** Whether the rule that yields shape `s` fires; the fallback always fires. */
  predicate Fires(s: Shape, q: Ratios, heartCue: bool)
  {
    match s
    case Round => Below(q.jawToHeight, 1.2) && Below(q.cheekToForehead, 1.5)
    case Square => Above(q.jawToHeight, 1.5) && Above(q.cheekToForehead, 1.4)
    case Oval => Above(q.jawToHeight, 1.3) && Below(q.cheekToForehead, 1.5)
    case Heart => heartCue
    case Diamond => Below(q.cheekToForehead, 1.2) && Below(q.jawToCheek, 1.5)
    case Undetermined => true
  }

  /** The position of each rule in the chain. */
  function Rank(s: Shape): (r: nat)
    ensures r < 6
  {
    match s
    case Round => 0
    case Square => 1
    case Oval => 2
    case Heart => 3
    case Diamond => 4
    case Undetermined => 5
  }

  /** `s` is the first rule in the chain that fires. */
  ghost predicate FirstToFire(s: Shape, q: Ratios, heartCue: bool)
  {
    Fires(s, q, heartCue) && forall t: Shape :: Rank(t) < Rank(s) ==> !Fires(t, q, heartCue)
  }

  /** The rule chain, evaluated in source order with early return. */
  function Decide(q: Ratios, heartCue: bool): (r: Shape)
    ensures FirstToFire(r, q, heartCue)
  {
    if Below(q.jawToHeight, 1.2) && Below(q.cheekToForehead, 1.5) then Round
    else if Above(q.jawToHeight, 1.5) && Above(q.cheekToForehead, 1.4) then Square
    else if Above(q.jawToHeight, 1.3) && Below(q.cheekToForehead, 1.5) then Oval
    else if heartCue then Heart
    else if Below(q.cheekToForehead, 1.2) && Below(q.jawToCheek, 1.5) then Diamond
    else Undetermined
  }

  /** The first rule to fire is unique, so the chain's result is fully
      determined by which rules fire and their order. */
  lemma FirstToFireIsUnique(q: Ratios, heartCue: bool, s: Shape)
    requires FirstToFire(s, q, heartCue)
    ensures s == Decide(q, heartCue)
  {
  }

  /** classifyFaceShape. The landmarks are read in source order; the first
      read of a missing point ends the call with that point. */
  function Classify(jaw: seq<Point>, contour: seq<Point>): (r: Classification)
    ensures r == MissingPoint(Jaw, 0) <==> |jaw| == 0
    ensures r == MissingPoint(Jaw, 3) <==> 1 <= |jaw| < 4
    ensures r == MissingPoint(Contour, 17) <==> |jaw| >= 4 && |contour| < 18
    ensures r == MissingPoint(Contour, 26) <==> |jaw| >= 4 && 18 <= |contour| < 27
    ensures r.Classified? <==> HasLandmarks(jaw, contour)
    ensures r.Classified? ==> FirstToFire(r.shape, RatiosOf(Measure(jaw, contour)), HeartCue(jaw))
  {
    if |jaw| == 0 then MissingPoint(Jaw, 0)
    else if |jaw| < 4 then MissingPoint(Jaw, 3)
    else if |contour| < 18 then MissingPoint(Contour, 17)
    else if |contour| < 27 then MissingPoint(Contour, 26)
    else Classified(Decide(RatiosOf(Measure(jaw, contour)), HeartCue(jaw)))
  }

  /** Two inputs agree on everything the classifier reads: the lengths, and
      the coordinates of jaw points 0, 3, middle, fourth-from-last and last,
      and of contour points 17 and 26. */
  ghost predicate SameReadings(jaw1: seq<Point>, contour1: seq<Point>, jaw2: seq<Point>, contour2: seq<Point>)
  {
    && |jaw1| == |jaw2|
    && |contour1| == |contour2|
    && (HasLandmarks(jaw1, contour1) ==>
          && jaw1[0] == jaw2[0]
          && jaw1[|jaw1| - 1].x == jaw2[|jaw2| - 1].x
          && jaw1[Middle(jaw1)] == jaw2[Middle(jaw2)]
          && jaw1[3].x == jaw2[3].x
          && jaw1[|jaw1| - 4].x == jaw2[|jaw2| - 4].x
          && contour1[17].x == contour2[17].x
          && contour1[26].x == contour2[26].x)
  }

  /** Every other landmark, and every other coordinate, is ignored. */
  lemma ClassifyReadsOnlyListedPoints(jaw1: seq<Point>, contour1: seq<Point>, jaw2: seq<Point>, contour2: seq<Point>)
    requires SameReadings(jaw1, contour1, jaw2, contour2)
    ensures Classify(jaw1, contour1) == Classify(jaw2, contour2)
  {
  }

  /** Every distance multiplied by `k`, as for the same face seen at another size. */
  function Scale(m: Measurements, k: real): (m': Measurements)
  {
    Measurements(k * m.jawWidth, k * m.jawHeight, k * m.cheekboneWidth, k * m.foreheadWidth)
  }

  /** A common positive factor cancels from a quotient, including the
      infinite and NaN cases. */
  lemma DivideScaled(k: real, n: real, d: real, n': real, d': real)
    requires k > 0.0 && n' == k * n && d' == k * d
    ensures Divide(n', d') == Divide(n, d)
  {
    if d != 0.0 {
      var q := n / d;
      assert q * d == n;
      assert k * d != 0.0;
      assert q * (k * d) == k * n;
      assert (k * n) / (k * d) == q;
    } else {
      assert k * d == 0.0;
      assert k * n > 0.0 <==> n > 0.0;
      assert k * n < 0.0 <==> n < 0.0;
    }
  }

  /** Scaling every distance by the same positive factor leaves the three ratios unchanged. */
  lemma RatiosIgnoreScale(m: Measurements, k: real)
    requires k > 0.0
    ensures RatiosOf(Scale(m, k)) == RatiosOf(m)
  {
    var m' := Scale(m, k);
    DivideScaled(k, m.jawWidth, m.cheekboneWidth, m'.jawWidth, m'.cheekboneWidth);
    DivideScaled(k, m.jawWidth, m.jawHeight, m'.jawWidth, m'.jawHeight);
    DivideScaled(k, m.cheekboneWidth, m.foreheadWidth, m'.cheekboneWidth, m'.foreheadWidth);
  }

  /** The classification does not depend on the size of the face: the same
      measurements at any positive scale select the same rule. */
  lemma DecideIgnoresScale(m: Measurements, k: real, heartCue: bool)
    requires k > 0.0
    ensures Decide(RatiosOf(Scale(m, k)), heartCue) == Decide(RatiosOf(m), heartCue)
  {
    RatiosIgnoreScale(m, k);
  }

  /** A translation of every landmark by (`dx`, `dy`): the same face at
      another position in the frame. */
  function Shift(s: seq<Point>, dx: real, dy: real): (r: seq<Point>)
    ensures |r| == |s|
    ensures forall i :: 0 <= i < |s| ==> r[i] == Point(s[i].x + dx, s[i].y + dy)
  {
    seq(|s|, i requires 0 <= i < |s| => Point(s[i].x + dx, s[i].y + dy))
  }

  /** The classification does not depend on where the face is in the
      frame: every distance and the Heart comparison survive a translation. */
  lemma ClassifyIgnoresPosition(jaw: seq<Point>, contour: seq<Point>, dx: real, dy: real)
    ensures Classify(Shift(jaw, dx, dy), Shift(contour, dx, dy)) == Classify(jaw, contour)
  {
    if HasLandmarks(jaw, contour) {
      var jaw', contour' := Shift(jaw, dx, dy), Shift(contour, dx, dy);
      assert Middle(jaw') == Middle(jaw);
      assert Measure(jaw', contour') == Measure(jaw, contour);
      assert HeartCue(jaw') == HeartCue(jaw);
    }
  }

  /** A 9-point jaw 100 wide and 40 high with cheekbones
      60 apart under a forehead 80 wide gives ratios 5/3, 5/2 and 3/4, so the
      Round and Square rules fail and the Oval rule fires. */
  lemma WorkedExampleIsOval(jaw: seq<Point>, contour: seq<Point>)
    requires |jaw| == 9 && |contour| >= 27
    requires jaw[0] == Point(0.0, 100.0) && jaw[8] == Point(100.0, 100.0) && jaw[4] == Point(50.0, 60.0)
    requires jaw[3] == Point(20.0, 95.0) && jaw[5] == Point(80.0, 95.0)
    requires contour[17] == Point(10.0, 0.0) && contour[26] == Point(90.0, 0.0)
    ensures Classify(jaw, contour) == Classified(Oval)
  {
    assert Measure(jaw, contour) == Measurements(100.0, 40.0, 60.0, 80.0);
  }

  /** When every distance is zero, all three ratios are NaN and every ratio
      rule fails; the Heart rule still reads raw coordinates, so such a face
      is Heart when its first jaw point lies left of the chin and
      Undetermined otherwise. */
  lemma DegenerateFaceIsHeartOrUndetermined(jaw: seq<Point>, contour: seq<Point>)
    requires HasLandmarks(jaw, contour)
    requires Measure(jaw, contour) == Measurements(0.0, 0.0, 0.0, 0.0)
    ensures Classify(jaw, contour) == Classified(if HeartCue(jaw) then Heart else Undetermined)
  {
  }

  /** A degenerate face whose first jaw point lies left of the chin: every
      ratio is NaN, yet the classifier answers Heart. */
  lemma DegenerateHeartWitness()
    ensures var jaw := [Point(0.0, 0.0), Point(0.0, 0.0), Point(1.0, 0.0), Point(0.0, 0.0)];
            var contour := seq(27, i => Point(0.0, 0.0));
            && RatiosOf(Measure(jaw, contour)) == Ratios(NaN, NaN, NaN)
            && Classify(jaw, contour) == Classified(Heart)
  {
  }

  /** No rule of the chain is dead: every shape is the answer for some
      non-negative measurements. */
  lemma EveryShapeIsReachable(s: Shape)
    ensures exists m: Measurements, heartCue: bool ::
      && m.jawWidth >= 0.0 && m.jawHeight >= 0.0 && m.cheekboneWidth >= 0.0 && m.foreheadWidth >= 0.0
      && Decide(RatiosOf(m), heartCue) == s
  {
    var m, heartCue;
    match s {
      case Round => m, heartCue := Measurements(1.0, 1.0, 1.0, 1.0), false;
      case Square => m, heartCue := Measurements(2.0, 1.0, 2.0, 1.0), false;
      case Oval => m, heartCue := Measurements(2.0, 1.0, 1.0, 1.0), false;
      case Heart => m, heartCue := Measurements(5.0, 4.0, 2.0, 1.0), true;
      case Diamond => m, heartCue := Measurements(5.0, 4.0, 4.0, 4.0), false;
      case Undetermined => m, heartCue := Measurements(5.0, 4.0, 2.0, 1.0), false;
    }
    assert Decide(RatiosOf(m), heartCue) == s;
  }

  /** Among the three ratio rules the order matters only where Square and
      Oval both fire: Round is disjoint from both, and Square and Oval
      overlap exactly when jaw-to-height exceeds 1.5 and cheek-to-forehead
      lies strictly between 1.4 and 1.5, where Square wins. */
  lemma RatioRulesOverlap(q: Ratios, heartCue: bool)
    ensures !(Fires(Round, q, heartCue) && Fires(Square, q, heartCue))
    ensures !(Fires(Round, q, heartCue) && Fires(Oval, q, heartCue))
    ensures Fires(Square, q, heartCue) && Fires(Oval, q, heartCue) <==>
      Above(q.jawToHeight, 1.5) && Above(q.cheekToForehead, 1.4) && Below(q.cheekToForehead, 1.5)
  {
  }
}
