/** What a frame of the gesture interaction does: smoothing, zone priority,
    the lock, and the drift of the gaze back to the centre. */
module AppProperties {
  import opened Wrappers
  import opened KittyTypes
  import opened App

  // ---------------------------------------------------------------------------
  // lerp
  // ---------------------------------------------------------------------------

  /** With a factor in [0, 1], `lerp` stays between its two ends. */
  lemma LerpBetween(start: real, end: real, factor: real)
    requires 0.0 <= factor <= 1.0
    ensures start <= end ==> start <= Lerp(start, end, factor) <= end
    ensures end <= start ==> end <= Lerp(start, end, factor) <= start
  {
    var gap := end - start;
    if gap >= 0.0 {
      assert 0.0 <= gap * factor <= gap * 1.0;
    } else {
      assert gap * 1.0 <= gap * factor <= 0.0;
    }
  }

  /** The distance left to the end shrinks by the factor `1 - factor`. */
  lemma LerpGap(start: real, end: real, factor: real)
    ensures Lerp(start, end, factor) - end == (1.0 - factor) * (start - end)
  {
  }

  /** Smoothing a point with factor `f` multiplies its squared distance to
      the target by `(1 - f)^2`. */
  lemma LerpPointDistance(start: Point, end: Point, factor: real)
    ensures SquaredDistance(LerpPoint(start, end, factor), end) ==
      (1.0 - factor) * (1.0 - factor) * SquaredDistance(start, end)
  {
    var k := 1.0 - factor;
    var p := LerpPoint(start, end, factor);
    var dx, dy := start.x - end.x, start.y - end.y;
    LerpGap(start.x, end.x, factor);
    LerpGap(start.y, end.y, factor);
    assert p.x - end.x == k * dx;
    assert p.y - end.y == k * dy;
    calc {
      SquaredDistance(p, end);
      (k * dx) * (k * dx) + (k * dy) * (k * dy);
      { assert (k * dx) * (k * dx) == k * k * (dx * dx);
        assert (k * dy) * (k * dy) == k * k * (dy * dy); }
      k * k * (dx * dx + dy * dy);
    }
  }

  /** A smoothing step with a factor in (0, 1] moves a point that is off
      target strictly closer to it. */
  lemma LerpPointCloser(start: Point, end: Point, factor: real)
    requires 0.0 < factor <= 1.0 && start != end
    ensures SquaredDistance(LerpPoint(start, end, factor), end) < SquaredDistance(start, end)
  {
    LerpPointDistance(start, end, factor);
    var k := 1.0 - factor;
    var d := SquaredDistance(start, end);
    SquaredDistancePositive(start, end);
    ShrinkBySquare(k, d);
    calc {
      SquaredDistance(LerpPoint(start, end, factor), end);
    ==
      k * k * d;
    <
      d;
    }
  }

  lemma ShrinkBySquare(k: real, d: real)
    requires 0.0 <= k < 1.0 && d > 0.0
    ensures k * k * d < d
  {
    MulNonNeg(k, 1.0 - k);
    assert k * (1.0 - k) == k - k * k;
    MulPos(1.0 - k * k, d);
    assert (1.0 - k * k) * d == d - k * k * d;
  }

  // ---------------------------------------------------------------------------
  // Mirroring, the look-at target and the distance test
  // ---------------------------------------------------------------------------

  /** Mirroring twice gives the landmark back. */
  lemma MirrorInvolution(p: Point)
    ensures Mirror(Mirror(p)) == p
  {
  }

  /** A palm at the centre of the image aims the gaze straight ahead, and a
      palm inside the image aims it inside [-1, 1] on both axes. */
  lemma LookTargetRange(palm: Point)
    ensures palm == Point(0.5, 0.5) ==> LookTarget(palm) == Origin
    ensures 0.0 <= palm.x <= 1.0 && 0.0 <= palm.y <= 1.0 ==>
      -1.0 <= LookTarget(palm).x <= 1.0 && -1.0 <= LookTarget(palm).y <= 1.0
  {
  }

  /** `Math.hypot(dx, dy) < t` and `dx*dx + dy*dy < t*t` agree for `t > 0`,
      `d` being the non-negative root of the sum of squares. */
  lemma HypotBelow(dx: real, dy: real, d: real, t: real)
    requires d >= 0.0 && d * d == dx * dx + dy * dy && t > 0.0
    ensures d < t <==> dx * dx + dy * dy < t * t
  {
    if d < t {
      MulNonNeg(d, t - d);
      MulPos(t, t - d);
      assert d * (t - d) == d * t - d * d;
      assert t * (t - d) == t * t - t * d;
    } else {
      MulNonNeg(t, d - t);
      MulNonNeg(d, d - t);
      assert t * (d - t) == t * d - t * t;
      assert d * (d - t) == d * d - d * t;
    }
  }

  lemma SquaredDistancePositive(p: Point, q: Point)
    requires p != q
    ensures SquaredDistance(p, q) > 0.0
  {
    var dx, dy := p.x - q.x, p.y - q.y;
    assert dx != 0.0 || dy != 0.0;
    SumOfSquaresPositive(dx, dy);
    calc {
      SquaredDistance(p, q);
    ==
      dx * dx + dy * dy;
    >
      0.0;
    }
  }

  lemma SumOfSquaresPositive(dx: real, dy: real)
    requires dx != 0.0 || dy != 0.0
    ensures dx * dx + dy * dy > 0.0
  {
    SquareNonNeg(dx);
    SquareNonNeg(dy);
    if dx != 0.0 {
      SquarePositive(dx);
    } else {
      SquarePositive(dy);
    }
  }

  lemma MulNonNeg(a: real, b: real)
    requires a >= 0.0 && b >= 0.0
    ensures a * b >= 0.0
  {
  }

  lemma MulPos(a: real, b: real)
    requires a > 0.0 && b > 0.0
    ensures a * b > 0.0
  {
  }

  lemma SquareNonNeg(a: real)
    ensures a * a >= 0.0
  {
    if a >= 0.0 {
      MulNonNeg(a, a);
    } else {
      MulNonNeg(-a, -a);
      assert (-a) * (-a) == a * a;
    }
  }

  lemma SquarePositive(a: real)
    requires a != 0.0
    ensures a * a > 0.0
  {
    if a > 0.0 {
      MulPos(a, a);
    } else {
      MulPos(-a, -a);
      assert (-a) * (-a) == a * a;
    }
  }

  /** `Math.floor(Math.random() * 3)` splits [0, 1) into thirds: the first
      picks `Jump`, the second `Spin`, the last `Shake`. */
  lemma HeadActionByRandom(random: real)
    requires 0.0 <= random < 1.0
    ensures random < 1.0 / 3.0 ==> HeadActions[RandomIndex(random)] == Jump
    ensures 1.0 / 3.0 <= random < 2.0 / 3.0 ==> HeadActions[RandomIndex(random)] == Spin
    ensures 2.0 / 3.0 <= random ==> HeadActions[RandomIndex(random)] == Shake
  {
    var scaled := random * 3.0;
    var i := RandomIndex(random);
    assert i == scaled.Floor;
    assert i as real <= scaled < i as real + 1.0;
  }

  /** A point exactly at a zone's threshold distance is outside it: the
      comparisons are strict, so a finger exactly 0.12 from the nose and a
      palm exactly 0.28 from the head trigger nothing. */
  lemma BoundaryTriggersNothing(finger: Point, palm: Point, random: real)
    requires 0.0 <= random < 1.0
    requires SquaredDistance(finger, NoseTarget) == NoseThreshold * NoseThreshold
    requires SquaredDistance(palm, HeadTarget) == HeadThreshold * HeadThreshold
    ensures HitTest(finger, palm, random) == None
  {
  }

  /** Such points exist: 0.12 right of the nose, and 0.28 below the head. */
  lemma ExampleBoundary(random: real)
    requires 0.0 <= random < 1.0
    ensures HitTest(Point(0.62, 0.5), Point(0.5, 0.63), random) == None
  {
    BoundaryTriggersNothing(Point(0.62, 0.5), Point(0.5, 0.63), random);
  }

  // ---------------------------------------------------------------------------
  // triggerAction and the reset timer
  // ---------------------------------------------------------------------------

  /** While locked, `triggerAction` changes nothing. */
  lemma TriggerWhileLocked(s: Engine, a: CatAction)
    requires s.isAnimating
    ensures Trigger(s, a) == s
  {
  }

  /** Unlocked, `triggerAction(a)` locks, plays `a`, shows `Reacting: a!` and
      schedules one reset; the tracked points are untouched. */
  lemma TriggerWhileUnlocked(s: Engine, a: CatAction)
    requires !s.isAnimating
    ensures var t := Trigger(s, a);
      && t.isAnimating && t.action == a
      && t.message == "Reacting: " + ActionName(a) + "!"
      && t.pendingResets == s.pendingResets + 1
      && t.finger == s.finger && t.palm == s.palm && t.lookAt == s.lookAt
  {
  }

  /** A trigger followed by its reset leaves the cat idle, unlocked, showing
      `Idle`, with as many resets pending as before. */
  lemma TriggerThenReset(s: Engine, a: CatAction)
    requires !s.isAnimating
    ensures var r := ResetFired(Trigger(s, a));
      r == s.(action := Idle, message := "Idle")
  {
  }

  // ---------------------------------------------------------------------------
  // One frame
  // ---------------------------------------------------------------------------

  /** The finger and palm a frame with a hand settles on. */
  function NewFinger(s: Engine, hands: seq<seq<Point>>): Point
    requires |hands| > 0 && HandsWellFormed(hands)
  {
    Track(s, hands[0]).finger
  }

  function NewPalm(s: Engine, hands: seq<seq<Point>>): Point
    requires |hands| > 0 && HandsWellFormed(hands)
  {
    Track(s, hands[0]).palm
  }

  /** With a hand, the finger and the palm each move a fifth of the way to
      the mirrored landmarks 8 and 9 (so their squared distance is multiplied
      by 0.64), the cursors show them, and the gaze moves 15% of the way toward
      the target of the palm just updated. */
  lemma FrameTracksHand(s: Engine, hands: seq<seq<Point>>, random: real)
    requires |hands| > 0 && HandsWellFormed(hands) && 0.0 <= random < 1.0
    ensures var n := Frame(s, hands, random);
      var fingerTarget := Mirror(hands[0][IndexTip]);
      var palmTarget := Mirror(hands[0][PalmCenter]);
      && SquaredDistance(n.finger, fingerTarget) == 0.64 * SquaredDistance(s.finger, fingerTarget)
      && SquaredDistance(n.palm, palmTarget) == 0.64 * SquaredDistance(s.palm, palmTarget)
      && n.cursorFinger == Some(n.finger) && n.cursorPalm == Some(n.palm)
      && SquaredDistance(n.lookAt, LookTarget(n.palm)) ==
           0.7225 * SquaredDistance(s.lookAt, LookTarget(n.palm))
      && n.catLookAt == Some(n.lookAt)
    ensures var n := Frame(s, hands, random);
      && Approaches(s.finger, n.finger, Mirror(hands[0][IndexTip]), 0.8)
      && Approaches(s.palm, n.palm, Mirror(hands[0][PalmCenter]), 0.8)
      && Approaches(s.lookAt, n.lookAt, LookTarget(n.palm), 0.85)
  {
    var landmarks := hands[0];
    var t := Track(s, landmarks);
    LerpPointDistance(s.finger, Mirror(landmarks[IndexTip]), PointerSmoothing);
    LerpPointDistance(s.palm, Mirror(landmarks[PalmCenter]), PointerSmoothing);
    LerpPointDistance(s.lookAt, LookTarget(t.palm), LookSmoothing);
    var n := Frame(s, hands, random);
    assert n.finger == t.finger && n.palm == t.palm && n.lookAt == t.lookAt;
  }

  /** While locked, a frame moves the tracked points only: the lock, the
      action, the message and the pending reset stay as they are. */
  lemma FrameWhileLocked(s: Engine, hands: seq<seq<Point>>, random: real)
    requires HandsWellFormed(hands) && 0.0 <= random < 1.0
    requires s.isAnimating
    ensures var n := Frame(s, hands, random);
      n.isAnimating && n.action == s.action && n.message == s.message
      && n.pendingResets == s.pendingResets
  {
  }

  /** The nose comes first: unlocked, a finger strictly inside the nose zone
      makes the cat sneeze wherever the palm is. */
  lemma NoseTouchSneezes(s: Engine, hands: seq<seq<Point>>, random: real)
    requires |hands| > 0 && HandsWellFormed(hands) && 0.0 <= random < 1.0
    requires !s.isAnimating
    requires WithinZone(NewFinger(s, hands), NoseTarget, NoseThreshold)
    ensures var n := Frame(s, hands, random);
      n.isAnimating && n.action == Sneeze && n.message == "Reacting: SNEEZE!"
      && n.pendingResets == s.pendingResets + 1
  {
  }

  /** Otherwise a palm strictly inside the head zone plays the head action
      the random value picks. */
  lemma HeadTouchPlaysHeadAction(s: Engine, hands: seq<seq<Point>>, random: real)
    requires |hands| > 0 && HandsWellFormed(hands) && 0.0 <= random < 1.0
    requires !s.isAnimating
    requires !WithinZone(NewFinger(s, hands), NoseTarget, NoseThreshold)
    requires WithinZone(NewPalm(s, hands), HeadTarget, HeadThreshold)
    ensures var n := Frame(s, hands, random);
      && n.isAnimating && n.action == HeadActions[RandomIndex(random)]
      && n.action in {Jump, Spin, Shake}
      && n.message == ReactingMessage(n.action)
      && n.pendingResets == s.pendingResets + 1
  {
  }

  /** A frame whose finger and palm are both outside their zones starts
      nothing. */
  lemma MissTriggersNothing(s: Engine, hands: seq<seq<Point>>, random: real)
    requires |hands| > 0 && HandsWellFormed(hands) && 0.0 <= random < 1.0
    requires !WithinZone(NewFinger(s, hands), NoseTarget, NoseThreshold)
    requires !WithinZone(NewPalm(s, hands), HeadTarget, HeadThreshold)
    ensures var n := Frame(s, hands, random);
      n.isAnimating == s.isAnimating && n.action == s.action && n.message == s.message
      && n.pendingResets == s.pendingResets
  {
  }

  // ---------------------------------------------------------------------------
  // Frames without a hand
  // ---------------------------------------------------------------------------

  /** Without a hand, the points and the discrete state stay, the cursors
      disappear and the gaze is scaled by 0.95 toward the centre. */
  lemma FrameWithoutHand(s: Engine, random: real)
    requires 0.0 <= random < 1.0
    ensures var n := Frame(s, [], random);
      && n.finger == s.finger && n.palm == s.palm
      && n.cursorFinger.None? && n.cursorPalm.None?
      && n.lookAt == Scale(0.95, s.lookAt) && n.catLookAt == Some(n.lookAt)
      && n.isAnimating == s.isAnimating && n.action == s.action
      && n.message == s.message && n.pendingResets == s.pendingResets
  {
  }

  /** So a gaze that is not centred strictly shrinks toward the centre. */
  lemma GazeShrinks(s: Engine)
    requires s.lookAt != Origin
    ensures SquaredDistance(NoHand(s).lookAt, Origin) < SquaredDistance(s.lookAt, Origin)
  {
    LerpPointCloser(s.lookAt, Origin, ReturnSmoothing);
  }

  function Pow(k: real, n: nat): real {
    if n == 0 then 1.0 else k * Pow(k, n - 1)
  }

  /** `n` frames in a row without a hand. */
  function NoHandFrames(s: Engine, n: nat): Engine {
    if n == 0 then s else NoHand(NoHandFrames(s, n - 1))
  }

  /** After `n` frames without a hand the gaze is `0.95^n` times what it was,
      and the points and the discrete state are unchanged. */
  lemma {:induction false} NoHandFramesDecay(s: Engine, n: nat)
    ensures var e := NoHandFrames(s, n);
      && e.lookAt == Scale(Pow(0.95, n), s.lookAt)
      && e.finger == s.finger && e.palm == s.palm
      && e.isAnimating == s.isAnimating && e.action == s.action
      && e.message == s.message && e.pendingResets == s.pendingResets
  {
    if n > 0 {
      NoHandFramesDecay(s, n - 1);
      var k := Pow(0.95, n - 1);
      var p := s.lookAt;
      assert NoHandFrames(s, n).lookAt == Scale(0.95, Scale(k, p));
      assert 0.95 * (k * p.x) == (0.95 * k) * p.x;
      assert 0.95 * (k * p.y) == (0.95 * k) * p.y;
    }
  }
}
