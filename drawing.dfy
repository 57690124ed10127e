/** The clicker's magic drawing pad: strokes are reduced to bounding boxes and
    classified, and the last strokes are matched against three gestures — a
    plus sign (+100, once), a lone horizontal minus (-100 after a delay,
    once) and a question mark (+1000, once). The pad's state as a value
    (`Sketch`) and the gesture checks are functions; the `Pad` class performs
    them in place on the shared state. */
module Drawing {
  import opened Economy

  datatype Point = Point(x: real, y: real)

  datatype StrokeType = Horizontal | Vertical | Unknown

  /** An analysed stroke: its classification, bounding box and points. */
  datatype Stroke = Stroke(kind: StrokeType, minX: real, maxX: real, minY: real, maxY: real, points: seq<Point>)

  function Abs(r: real): real { if r < 0.0 then -r else r }

  /** (minX, maxX, minY, maxY) is the bounding box of the points: every point
      lies within it and each bound is attained by some point. */
  predicate IsBox(points: seq<Point>, minX: real, maxX: real, minY: real, maxY: real)
  {
    && (forall k :: 0 <= k < |points| ==> minX <= points[k].x <= maxX && minY <= points[k].y <= maxY)
    && (exists k :: 0 <= k < |points| && points[k].x == minX)
    && (exists k :: 0 <= k < |points| && points[k].x == maxX)
    && (exists k :: 0 <= k < |points| && points[k].y == minY)
    && (exists k :: 0 <= k < |points| && points[k].y == maxY)
  }

  /** The bounding box is unique. */
  lemma BoxUnique(points: seq<Point>, a: (real, real, real, real), b: (real, real, real, real))
    requires IsBox(points, a.0, a.1, a.2, a.3) && IsBox(points, b.0, b.1, b.2, b.3)
    ensures a == b
  {
    var i :| 0 <= i < |points| && points[i].x == a.0;
    var j :| 0 <= j < |points| && points[j].x == b.0;
    assert a.0 == b.0;
    i :| 0 <= i < |points| && points[i].x == a.1;
    j :| 0 <= j < |points| && points[j].x == b.1;
    assert a.1 == b.1;
    i :| 0 <= i < |points| && points[i].y == a.2;
    j :| 0 <= j < |points| && points[j].y == b.2;
    assert a.2 == b.2;
    i :| 0 <= i < |points| && points[i].y == a.3;
    j :| 0 <= j < |points| && points[j].y == b.3;
    assert a.3 == b.3;
  }

  /** The bounding-box loop of `analyzeStroke`. The source starts from
      +/-Infinity; on a non-empty list that is the same as starting from the
      first point. */
  method BoundingBox(points: seq<Point>) returns (minX: real, maxX: real, minY: real, maxY: real)
    requires |points| > 0
    ensures IsBox(points, minX, maxX, minY, maxY)
  {
    minX, maxX, minY, maxY := points[0].x, points[0].x, points[0].y, points[0].y;
    ghost var iMinX, iMaxX, iMinY, iMaxY := 0, 0, 0, 0;
    var n := 1;
    while n < |points|
      invariant 1 <= n <= |points|
      invariant forall k :: 0 <= k < n ==> minX <= points[k].x <= maxX && minY <= points[k].y <= maxY
      invariant 0 <= iMinX < n && points[iMinX].x == minX
      invariant 0 <= iMaxX < n && points[iMaxX].x == maxX
      invariant 0 <= iMinY < n && points[iMinY].y == minY
      invariant 0 <= iMaxY < n && points[iMaxY].y == maxY
    {
      var p := points[n];
      if p.x < minX {
        minX, iMinX := p.x, n;
      }
      if p.x > maxX {
        maxX, iMaxX := p.x, n;
      }
      if p.y < minY {
        minY, iMinY := p.y, n;
      }
      if p.y > maxY {
        maxY, iMaxY := p.y, n;
      }
      n := n + 1;
    }
  }

  /** The classification: a stroke must reach more than 20 units in one
      direction, and then it is horizontal when it is more than 1.2 times
      wider than tall, vertical when more than 1.2 times taller than wide. */
  function Classify(width: real, height: real): (t: StrokeType)
    // A classified stroke is long in its own direction and short across.
    ensures width >= 0.0 && height >= 0.0 && t == Horizontal ==> width > 20.0 && width > 1.2 * height
    ensures width >= 0.0 && height >= 0.0 && t == Vertical ==> height > 20.0 && height > 1.2 * width
    // Short strokes and near-square ones stay unknown.
    ensures width <= 20.0 && height <= 20.0 ==> t == Unknown
    ensures width <= 1.2 * height && height <= 1.2 * width ==> t == Unknown
    // A long stroke that is clearly wider than tall, or taller than wide, is classified.
    ensures (width > 20.0 || height > 20.0) && width > 1.2 * height ==> t == Horizontal
    ensures width >= 0.0 && height >= 0.0 && (width > 20.0 || height > 20.0) && height > 1.2 * width ==> t == Vertical
  {
    if width > 20.0 || height > 20.0 then
      if width > height * 1.2 then Horizontal
      else if height > width * 1.2 then Vertical
      else Unknown
    else Unknown
  }

  function Transposed(t: StrokeType): StrokeType
  {
    match t
    case Horizontal => Vertical
    case Vertical => Horizontal
    case Unknown => Unknown
  }

  /** Turning a stroke by a quarter turn swaps horizontal and vertical. */
  lemma ClassifyTranspose(width: real, height: real)
    requires width >= 0.0 && height >= 0.0
    ensures Classify(height, width) == Transposed(Classify(width, height))
  {
  }

  /** `checkForPlusSign` on the last two strokes: one vertical and one
      horizontal, with the vertical one's middle x strictly inside the
      horizontal one's x range and the horizontal one's middle y strictly
      inside the vertical one's y range. */
  predicate IsPlusSign(s1: Stroke, s2: Stroke)
  {
    var kinds := [s1.kind, s2.kind];
    if Vertical !in kinds || Horizontal !in kinds then false
    else
      var vert := if s1.kind == Vertical then s1 else s2;
      var horiz := if s1.kind == Horizontal then s1 else s2;
      var vertX := (vert.minX + vert.maxX) / 2.0;
      var horizY := (horiz.minY + horiz.maxY) / 2.0;
      vertX > horiz.minX && vertX < horiz.maxX && horizY > vert.minY && horizY < vert.maxY
  }

  /** A plus sign may be drawn in either order. */
  lemma PlusSignEitherOrder(s1: Stroke, s2: Stroke)
    ensures IsPlusSign(s1, s2) <==> IsPlusSign(s2, s1)
  {
    assert Vertical in [s1.kind, s2.kind] <==> Vertical in [s2.kind, s1.kind];
    assert Horizontal in [s1.kind, s2.kind] <==> Horizontal in [s2.kind, s1.kind];
  }

  /** A plus sign is exactly a vertical and a horizontal stroke that cross
      at their middles. */
  lemma PlusSignIsCrossing(s1: Stroke, s2: Stroke)
    ensures IsPlusSign(s1, s2) <==>
            exists v, h :: (v, h) in {(s1, s2), (s2, s1)} && v.kind == Vertical && h.kind == Horizontal &&
                           h.minX < (v.minX + v.maxX) / 2.0 < h.maxX &&
                           v.minY < (h.minY + h.maxY) / 2.0 < v.maxY
  {
    if IsPlusSign(s1, s2) {
      if s1.kind == Vertical {
        assert (s1, s2) in {(s1, s2), (s2, s1)};
      } else {
        assert (s2, s1) in {(s1, s2), (s2, s1)};
      }
    }
  }

  /** `checkForQuestionMark` on the last two strokes, a hook then a dot: the
      dot at most 60 by 60, the hook at least 30 tall, the dot's top no more
      than 40 above the hook's bottom, and their middles at most 80 apart
      horizontally. */
  predicate IsQuestionMark(hook: Stroke, dot: Stroke)
  {
    && dot.maxX - dot.minX <= 60.0 && dot.maxY - dot.minY <= 60.0
    && hook.maxY - hook.minY >= 30.0
    && dot.minY >= hook.maxY - 40.0
    && Abs((dot.minX + dot.maxX) / 2.0 - (hook.minX + hook.maxX) / 2.0) <= 80.0
  }

  function Shift(s: Stroke, dx: real, dy: real): Stroke
  {
    s.(minX := s.minX + dx, maxX := s.maxX + dx, minY := s.minY + dy, maxY := s.maxY + dy)
  }

  /** The gestures are recognised wherever they are drawn on the pad. */
  lemma GesturesAnywhere(s1: Stroke, s2: Stroke, dx: real, dy: real)
    ensures IsPlusSign(Shift(s1, dx, dy), Shift(s2, dx, dy)) == IsPlusSign(s1, s2)
    ensures IsQuestionMark(Shift(s1, dx, dy), Shift(s2, dx, dy)) == IsQuestionMark(s1, s2)
  {
    var a := (Shift(s2, dx, dy).minX + Shift(s2, dx, dy).maxX) / 2.0 - (Shift(s1, dx, dy).minX + Shift(s1, dx, dy).maxX) / 2.0;
    assert a == (s2.minX + s2.maxX) / 2.0 - (s1.minX + s1.maxX) / 2.0;
  }

  /** The drawing pad's state: whether drawing mode is on, the analysed
      strokes, and whether the minus timer is pending. */
  datatype Sketch = Sketch(drawing: bool, strokes: seq<Stroke>, minusPending: bool)

  /** `clearCanvas`: forget the strokes and cancel the minus timer. */
  function Clear(s: Sketch): (r: Sketch)
    ensures r.strokes == [] && !r.minusPending && r.drawing == s.drawing
  {
    s.(strokes := [], minusPending := false)
  }

  /** `toggleDrawingMode`: switching off also clears the pad. */
  function Toggle(s: Sketch): (r: Sketch)
    ensures r.drawing == !s.drawing
    ensures !s.drawing ==> r.strokes == s.strokes && r.minusPending == s.minusPending
    ensures s.drawing ==> r.strokes == [] && !r.minusPending
  {
    if s.drawing then Clear(s.(drawing := false)) else s.(drawing := true)
  }

  /** A reward or penalty that is still unclaimed turns the pad off. */
  function Trigger(s: Sketch, p: Purse, g: Gesture): (Sketch, Purse)
  {
    var claimed := match g
      case PlusSign => p.plusClaimed
      case MinusSign => p.minusClaimed
      case QuestionMark => p.questionClaimed;
    if claimed then (s, p) else (Toggle(s), ApplyGesture(p, g))
  }

  predicate LastTwo(s: Sketch, gesture: (Stroke, Stroke) -> bool)
  {
    |s.strokes| >= 2 && gesture(s.strokes[|s.strokes| - 2], s.strokes[|s.strokes| - 1])
  }

  /** `checkForPlusSign`. */
  function CheckPlus(s: Sketch, p: Purse): (Sketch, Purse)
  {
    if LastTwo(s, IsPlusSign) then Trigger(s, p, PlusSign) else (s, p)
  }

  /** `checkForMinusSign`: a single horizontal stroke arms the minus timer. */
  function CheckMinus(s: Sketch): Sketch
  {
    if |s.strokes| == 1 && s.strokes[0].kind == Horizontal then s.(minusPending := true) else s
  }

  /** `checkForQuestionMark`. */
  function CheckQuestion(s: Sketch, p: Purse): (Sketch, Purse)
  {
    if LastTwo(s, IsQuestionMark) then Trigger(s, p, QuestionMark) else (s, p)
  }

  /** `analyzeStroke` after the stroke has been measured: record it, then the
      plus, minus and question-mark checks, in that order. */
  function Analyze(s: Sketch, p: Purse, k: Stroke): (Sketch, Purse)
  {
    var (s1, p1) := CheckPlus(s.(strokes := s.strokes + [k]), p);
    CheckQuestion(CheckMinus(s1), p1)
  }

  /** The minus timer fires: the penalty, if still unclaimed. */
  function MinusFires(s: Sketch, p: Purse): (Sketch, Purse)
  {
    Trigger(s.(minusPending := false), p, MinusSign)
  }

  /** One stroke earns at most one reward: the purse is unchanged, or it has
      received the plus reward or the question reward, and no stroke takes
      money away or clears a claim. This holds for every stroke the pad
      analyses (see `Pad.EndStroke`): a stroke is analysed on an active pad,
      or on an empty one when the pad was switched off mid-stroke. */
  lemma AnalyzeRewardsAtMostOnce(s: Sketch, p: Purse, k: Stroke)
    requires s.drawing || s.strokes == []
    ensures var p' := Analyze(s, p, k).1;
      && (p' == p || p' == PlusReward(p) || p' == QuestionReward(p))
      && p'.clicks >= p.clicks
      && p'.minusClaimed == p.minusClaimed
      && (p.plusClaimed ==> p'.plusClaimed) && (p.questionClaimed ==> p'.questionClaimed)
  {
    var (s1, p1) := CheckPlus(s.(strokes := s.strokes + [k]), p);
    if p1 != p {
      // The plus fired on an active pad, which switched it off and cleared it.
      assert s1.strokes == [];
    }
  }

  /** Analysing a stroke records it: when no reward is paid the stroke list
      grows by exactly that stroke and drawing mode stays as it was; when a
      reward is paid the pad ends switched off, empty and with no timer. */
  lemma AnalyzeRecordsStroke(s: Sketch, p: Purse, k: Stroke)
    requires s.drawing || s.strokes == []
    ensures var (s', p') := Analyze(s, p, k);
      && (p' == p ==> s'.strokes == s.strokes + [k] && s'.drawing == s.drawing)
      && (p' != p ==> s' == Sketch(false, [], false))
  {
    var (s1, p1) := CheckPlus(s.(strokes := s.strokes + [k]), p);
    if p1 == p {
      assert s1 == s.(strokes := s.strokes + [k]);
    }
  }

  /** The minus timer is armed exactly by a first stroke that is horizontal
      (given no timer was pending, as a new stroke guarantees). */
  lemma MinusArmedByLoneHorizontal(s: Sketch, p: Purse, k: Stroke)
    requires !s.minusPending
    ensures Analyze(s, p, k).0.minusPending <==> s.strokes == [] && k.kind == Horizontal
  {
  }

  /** A recognised, unclaimed plus sign on an active pad earns 100, switches
      the pad off and clears it. */
  lemma PlusClosesPad(s: Sketch, p: Purse, k: Stroke)
    requires s.drawing && |s.strokes| >= 1 && !p.plusClaimed
    requires IsPlusSign(s.strokes[|s.strokes| - 1], k)
    ensures Analyze(s, p, k) == (Sketch(false, [], false), PlusReward(p))
  {
    var t := s.strokes + [k];
    assert t[|t| - 2] == s.strokes[|s.strokes| - 1] && t[|t| - 1] == k;
  }

  /** The penalty never makes the money negative. */
  lemma MinusNeverNegative(s: Sketch, p: Purse)
    requires p.clicks >= 0
    ensures MinusFires(s, p).1.clicks >= 0
    ensures !MinusFires(s, p).0.minusPending
  {
  }

  /** The drawing pad object. The shared state holds the money and claims. */
  class Pad {
    var isDrawingMode: bool
    var isDrawing: bool
    var currentStroke: seq<Point>
    var strokes: seq<Stroke>
    /** A `minusTimeout` that has been set and neither fired nor cleared. */
    var minusPending: bool

    function View(): Sketch
      reads this
    {
      Sketch(isDrawingMode, strokes, minusPending)
    }

    /** Switching off clears the pad, and a stroke cannot begin on a pad that
        is off: an inactive pad holds at most the one stroke that was being
        drawn when it was switched off, and none while that stroke lasts. */
    predicate Valid()
      reads this
    {
      && (!isDrawingMode ==> |strokes| <= 1)
      && (!isDrawingMode && isDrawing ==> strokes == [])
    }

    constructor ()
      ensures View() == Sketch(false, [], false)
      ensures !isDrawing && currentStroke == []
      ensures Valid()
    {
      isDrawingMode, isDrawing, currentStroke := false, false, [];
      strokes, minusPending := [], false;
    }

    /** `clearCanvas`. */
    method ClearCanvas()
      modifies this`strokes, this`minusPending
      ensures View() == Clear(old(View()))
      ensures old(Valid()) ==> Valid()
    {
      strokes := [];
      if minusPending {
        minusPending := false;
      }
    }

    /** `toggleDrawingMode`. */
    method ToggleDrawingMode()
      modifies this`isDrawingMode, this`strokes, this`minusPending
      ensures View() == Toggle(old(View()))
      ensures old(Valid()) ==> Valid()
    {
      isDrawingMode := !isDrawingMode;
      if !isDrawingMode {
        ClearCanvas();
      }
    }

    /** `startStroke`: only in drawing mode; a new stroke cancels a pending
        minus. */
    method StartStroke(pos: Point)
      modifies this`minusPending, this`isDrawing, this`currentStroke
      ensures !old(isDrawingMode) ==> unchanged(this)
      ensures old(isDrawingMode) ==> !minusPending && isDrawing && currentStroke == [pos]
      ensures old(Valid()) ==> Valid()
    {
      if !isDrawingMode {
        return;
      }
      if minusPending {
        minusPending := false;
      }
      isDrawing := true;
      currentStroke := [pos];
    }

    /** `moveStroke`: extends the stroke being drawn. */
    method MoveStroke(pos: Point)
      modifies this`currentStroke
      ensures isDrawing && isDrawingMode ==> currentStroke == old(currentStroke) + [pos]
      ensures !(isDrawing && isDrawingMode) ==> unchanged(this)
      ensures old(Valid()) ==> Valid()
    {
      if !isDrawing || !isDrawingMode {
        return;
      }
      currentStroke := currentStroke + [pos];
    }

    /** `endStroke`: a stroke of more than two points is analysed. */
    method EndStroke(st: GameState) returns (analysed: bool, k: Stroke)
      modifies this`isDrawing, this`isDrawingMode, this`strokes, this`minusPending
      modifies st`clicks, st`plusRewardClaimed, st`questionRewardClaimed
      ensures analysed <==> old(isDrawing) && |currentStroke| > 2
      ensures !isDrawing
      ensures !analysed ==> View() == old(View()) && st.Wallet() == old(st.Wallet())
      ensures old(Valid()) ==> Valid()
      ensures analysed && old(Valid()) ==> old(isDrawingMode) || old(strokes) == []
      ensures analysed ==> k.points == currentStroke && IsBox(currentStroke, k.minX, k.maxX, k.minY, k.maxY) &&
                           (View(), st.Wallet()) == Analyze(old(View()), old(st.Wallet()), k)
    {
      analysed := false;
      k := Stroke(Unknown, 0.0, 0.0, 0.0, 0.0, []);
      if !isDrawing {
        return;
      }
      isDrawing := false;
      if |currentStroke| > 2 {
        k := AnalyzeStroke(currentStroke, st);
        analysed := true;
      }
    }

    /** `analyzeStroke`: measure and classify the stroke, record it, and run
        the three gesture checks. Returns the recorded stroke. */
    method AnalyzeStroke(points: seq<Point>, st: GameState) returns (k: Stroke)
      requires |points| > 0
      modifies this`isDrawingMode, this`strokes, this`minusPending
      modifies st`clicks, st`plusRewardClaimed, st`questionRewardClaimed
      ensures k.points == points && IsBox(points, k.minX, k.maxX, k.minY, k.maxY)
      ensures k.kind == Classify(k.maxX - k.minX, k.maxY - k.minY)
      ensures (View(), st.Wallet()) == Analyze(old(View()), old(st.Wallet()), k)
    {
      var minX, maxX, minY, maxY := BoundingBox(points);
      var kind := Classify(maxX - minX, maxY - minY);
      k := Stroke(kind, minX, maxX, minY, maxY, points);
      strokes := strokes + [k];
      CheckForPlusSign(st);
      CheckForMinusSign();
      CheckForQuestionMark(st);
    }

    method CheckForPlusSign(st: GameState)
      modifies this`isDrawingMode, this`strokes, this`minusPending
      modifies st`clicks, st`plusRewardClaimed
      ensures (View(), st.Wallet()) == CheckPlus(old(View()), old(st.Wallet()))
    {
      if |strokes| < 2 {
        return;
      }
      if IsPlusSign(strokes[|strokes| - 2], strokes[|strokes| - 1]) {
        TriggerPlusReward(st);
      }
    }

    method CheckForMinusSign()
      modifies this`minusPending
      ensures View() == CheckMinus(old(View()))
    {
      if |strokes| == 1 && strokes[0].kind == Horizontal {
        minusPending := true;
      }
    }

    method CheckForQuestionMark(st: GameState)
      modifies this`isDrawingMode, this`strokes, this`minusPending
      modifies st`clicks, st`questionRewardClaimed
      ensures (View(), st.Wallet()) == CheckQuestion(old(View()), old(st.Wallet()))
    {
      if |strokes| < 2 {
        return;
      }
      var hook := strokes[|strokes| - 2];
      var dot := strokes[|strokes| - 1];
      if dot.maxX - dot.minX > 60.0 || dot.maxY - dot.minY > 60.0 {
        return;
      }
      if hook.maxY - hook.minY < 30.0 {
        return;
      }
      if dot.minY < hook.maxY - 40.0 {
        return;
      }
      if Abs((dot.minX + dot.maxX) / 2.0 - (hook.minX + hook.maxX) / 2.0) > 80.0 {
        return;
      }
      TriggerQuestionReward(st);
    }

    /** `triggerPlusReward`: +100 and the pad switches off, once. */
    method TriggerPlusReward(st: GameState)
      modifies this`isDrawingMode, this`strokes, this`minusPending
      modifies st`clicks, st`plusRewardClaimed
      ensures (View(), st.Wallet()) == Trigger(old(View()), old(st.Wallet()), PlusSign)
    {
      if st.plusRewardClaimed {
        return;
      }
      st.clicks := st.clicks + 100;
      st.plusRewardClaimed := true;
      ToggleDrawingMode();
    }

    /** The minus timer fires: `triggerMinusPenalty`. */
    method MinusTimeout(st: GameState)
      requires minusPending
      modifies this`isDrawingMode, this`strokes, this`minusPending
      modifies st`clicks, st`minusRewardClaimed
      ensures (View(), st.Wallet()) == MinusFires(old(View()), old(st.Wallet()))
      ensures old(Valid()) ==> Valid()
    {
      minusPending := false;
      TriggerMinusPenalty(st);
    }

    /** `triggerMinusPenalty`: -100, or all the money when there is less, and
        the pad switches off, once. */
    method TriggerMinusPenalty(st: GameState)
      modifies this`isDrawingMode, this`strokes, this`minusPending
      modifies st`clicks, st`minusRewardClaimed
      ensures (View(), st.Wallet()) == Trigger(old(View()), old(st.Wallet()), MinusSign)
    {
      if st.minusRewardClaimed {
        return;
      }
      var deduction := 100;
      if st.clicks < deduction {
        deduction := st.clicks;
        st.clicks := 0;
      } else {
        st.clicks := st.clicks - deduction;
      }
      st.minusRewardClaimed := true;
      ToggleDrawingMode();
    }

    /** `triggerQuestionReward`: +1000 and the pad switches off, once. */
    method TriggerQuestionReward(st: GameState)
      modifies this`isDrawingMode, this`strokes, this`minusPending
      modifies st`clicks, st`questionRewardClaimed
      ensures (View(), st.Wallet()) == Trigger(old(View()), old(st.Wallet()), QuestionMark)
    {
      if st.questionRewardClaimed {
        return;
      }
      st.clicks := st.clicks + 1000;
      st.questionRewardClaimed := true;
      ToggleDrawingMode();
    }
  }
}
