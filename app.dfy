/** The hand-gesture interaction of App.tsx, one animation frame at a time.

    Each animation frame the detector is run on whatever image the video shows
    and reports the landmarks of the hands it sees. The
    index fingertip (landmark 8) and the palm centre (landmark 9) of the first
    hand are mirrored, smoothed, and tested against two zones on the cat: the
    nose, touched with the finger, makes it sneeze; the head, touched with the
    palm, makes it jump, spin or shake. A triggered action locks out further
    triggers until a reset timer puts the cat back to idle. */
module App {
  import opened Wrappers
  import opened KittyTypes

  // ---------------------------------------------------------------------------
  // Configuration
  // ---------------------------------------------------------------------------

  const NoseThreshold: real := 0.12
  const HeadThreshold: real := 0.28

  /** Smoothing factor of the finger and palm points. */
  const PointerSmoothing: real := 0.2
  /** Smoothing factor of the look-at vector while a hand is seen. */
  const LookSmoothing: real := 0.15
  /** Smoothing factor of the look-at vector's return to the centre. */
  const ReturnSmoothing: real := 0.05

  const IndexTip: nat := 8
  const PalmCenter: nat := 9

  const HeadTarget: Point := Point(0.5, 0.35)
  const NoseTarget: Point := Point(0.5, 0.5)
  const Origin: Point := Point(0.0, 0.0)

  /** The actions a head touch chooses from, in the order of App.tsx. */
  const HeadActions: seq<CatAction> := [Jump, Spin, Shake]

  const IdleMessage: string := "Idle"
  const InitialMessage: string := "Initializing Vision..."

  // ---------------------------------------------------------------------------
  // Pure helpers
  // ---------------------------------------------------------------------------

  /** `lerp`: the point a fraction `factor` of the way from `start` to `end`. */
  function Lerp(start: real, end: real, factor: real): (r: real)
    ensures factor == 0.0 ==> r == start
    ensures factor == 1.0 ==> r == end
    ensures start == end ==> r == start
  {
    start + (end - start) * factor
  }

  function LerpPoint(start: Point, end: Point, factor: real): Point {
    Point(Lerp(start.x, end.x, factor), Lerp(start.y, end.y, factor))
  }

  /** The mirror image of a landmark for the user-facing camera. */
  function Mirror(p: Point): (m: Point)
    ensures m.y == p.y && m.x + p.x == 1.0
  {
    Point(1.0 - p.x, p.y)
  }

  /** Where the cat looks for a palm at `palm`: the palm's offset from the
      centre of the image, doubled. */
  function LookTarget(palm: Point): (target: Point)
    ensures Point(0.5 + target.x / 2.0, 0.5 + target.y / 2.0) == palm
  {
    Point((palm.x - 0.5) * 2.0, (palm.y - 0.5) * 2.0)
  }

  function Scale(k: real, p: Point): Point {
    Point(k * p.x, k * p.y)
  }

  function SquaredDistance(a: Point, b: Point): (d: real)
    ensures d >= 0.0
  {
    (a.x - b.x) * (a.x - b.x) + (a.y - b.y) * (a.y - b.y)
  }

  /** `Math.hypot(p - target) < threshold`, stated on squared distances
      (`HypotBelow` shows the two agree for a positive threshold). */
  predicate WithinZone(p: Point, target: Point, threshold: real) {
    SquaredDistance(p, target) < threshold * threshold
  }

  /** `Math.floor(random * 3)`: the index `Math.random()` picks in `HeadActions`. */
  function RandomIndex(random: real): (i: nat)
    requires 0.0 <= random < 1.0
    ensures i < |HeadActions|
  {
    (random * (|HeadActions| as real)).Floor
  }

  /** The action a frame's hit test asks for, if any: the nose zone first,
      then the head zone with a random head action. */
  function HitTest(finger: Point, palm: Point, random: real): (a: Option<CatAction>)
    requires 0.0 <= random < 1.0
    ensures a == Some(Sneeze) <==> WithinZone(finger, NoseTarget, NoseThreshold)
    ensures a == None <==>
      !WithinZone(finger, NoseTarget, NoseThreshold) && !WithinZone(palm, HeadTarget, HeadThreshold)
    ensures a.Some? ==> a.value == Sneeze || a.value in HeadActions
  {
    if WithinZone(finger, NoseTarget, NoseThreshold) then Some(Sneeze)
    else if WithinZone(palm, HeadTarget, HeadThreshold) then Some(HeadActions[RandomIndex(random)])
    else None
  }

  /** The status message while `a` plays. */
  function ReactingMessage(a: CatAction): string {
    "Reacting: " + ActionName(a) + "!"
  }

  // ---------------------------------------------------------------------------
  // The interaction state and its transitions, as values
  // ---------------------------------------------------------------------------

  /** Everything the interaction keeps between frames: the lock, the action,
      the status message, the smoothed finger and palm, the smoothed look-at
      vector, the React state of the two cursors and of the look-at, and the
      number of reset timers scheduled but not yet fired. */
  datatype Engine = Engine(
    isAnimating: bool,
    action: CatAction,
    message: string,
    finger: Point,
    palm: Point,
    lookAt: Point,
    cursorFinger: Option<Point>,
    cursorPalm: Option<Point>,
    catLookAt: Option<Point>,
    pendingResets: nat)

  function Initial(): Engine {
    Engine(false, Idle, InitialMessage, Origin, Origin, Origin, None, None, None, 0)
  }

  /** `triggerAction(a)`: ignored while locked, otherwise lock, show `a` and
      schedule the reset. */
  function Trigger(s: Engine, a: CatAction): (t: Engine)
    ensures t.isAnimating
    ensures t.finger == s.finger && t.palm == s.palm && t.lookAt == s.lookAt
    ensures t.cursorFinger == s.cursorFinger && t.cursorPalm == s.cursorPalm && t.catLookAt == s.catLookAt
  {
    if s.isAnimating then s
    else s.(isAnimating := true, action := a, message := ReactingMessage(a),
            pendingResets := s.pendingResets + 1)
  }

  /** The reset timer firing: back to idle and unlocked. */
  function ResetFired(s: Engine): (t: Engine)
    requires s.pendingResets > 0
    ensures !t.isAnimating && t.action == Idle && t.message == IdleMessage
    ensures t.pendingResets < s.pendingResets
    ensures t.finger == s.finger && t.palm == s.palm && t.lookAt == s.lookAt
    ensures t.cursorFinger == s.cursorFinger && t.cursorPalm == s.cursorPalm && t.catLookAt == s.catLookAt
  {
    s.(action := Idle, isAnimating := false, message := IdleMessage,
       pendingResets := s.pendingResets - 1)
  }

  /** `next` lies on the way from `prev` to `target`, with only the fraction
      `keep` of the gap left on each axis. */
  predicate Approaches(prev: Point, next: Point, target: Point, keep: real) {
    && next.x - target.x == keep * (prev.x - target.x)
    && next.y - target.y == keep * (prev.y - target.y)
  }

  /** The tracking part of a frame with a hand: mirror, smooth, update the
      cursors and the look-at vector (aimed from the palm just updated). */
  function Track(s: Engine, landmarks: seq<Point>): (t: Engine)
    requires |landmarks| > PalmCenter
    ensures Approaches(s.finger, t.finger, Mirror(landmarks[IndexTip]), 0.8)
    ensures Approaches(s.palm, t.palm, Mirror(landmarks[PalmCenter]), 0.8)
    ensures Approaches(s.lookAt, t.lookAt, LookTarget(t.palm), 0.85)
    ensures t.isAnimating == s.isAnimating && t.action == s.action
    ensures t.message == s.message && t.pendingResets == s.pendingResets
    ensures t.cursorFinger == Some(t.finger) && t.cursorPalm == Some(t.palm) && t.catLookAt == Some(t.lookAt)
  {
    var finger := LerpPoint(s.finger, Mirror(landmarks[IndexTip]), PointerSmoothing);
    var palm := LerpPoint(s.palm, Mirror(landmarks[PalmCenter]), PointerSmoothing);
    var lookAt := LerpPoint(s.lookAt, LookTarget(palm), LookSmoothing);
    s.(finger := finger, palm := palm, cursorFinger := Some(finger), cursorPalm := Some(palm),
       lookAt := lookAt, catLookAt := Some(lookAt))
  }

  /** A frame with no hand: cursors hidden, the look-at drifting to the centre. */
  function NoHand(s: Engine): (t: Engine)
    ensures t.lookAt == Scale(1.0 - ReturnSmoothing, s.lookAt) && t.catLookAt == Some(t.lookAt)
    ensures t.cursorFinger == None && t.cursorPalm == None
    ensures t.finger == s.finger && t.palm == s.palm
    ensures t.isAnimating == s.isAnimating && t.action == s.action
    ensures t.message == s.message && t.pendingResets == s.pendingResets
  {
    var lookAt := LerpPoint(s.lookAt, Origin, ReturnSmoothing);
    s.(cursorFinger := None, cursorPalm := None, lookAt := lookAt, catLookAt := Some(lookAt))
  }

  /** What the landmark lists of one frame require: the first hand, if any,
      has the palm centre landmark. */
  predicate HandsWellFormed(hands: seq<seq<Point>>) {
    |hands| > 0 ==> |hands[0]| > PalmCenter
  }

  /** One frame of `predictWebcam`, with `random` standing for `Math.random()`. */
  function Frame(s: Engine, hands: seq<seq<Point>>, random: real): (t: Engine)
    requires HandsWellFormed(hands) && 0.0 <= random < 1.0
    ensures s.isAnimating ==>
      t.isAnimating && t.action == s.action && t.message == s.message && t.pendingResets == s.pendingResets
    ensures t.pendingResets <= s.pendingResets + 1
    ensures t.action != s.action ==> !s.isAnimating && |hands| > 0 && Triggerable(t.action)
    ensures (|hands| == 0 <==> t.cursorFinger == None) && (|hands| == 0 <==> t.cursorPalm == None)
  {
    if |hands| == 0 then NoHand(s)
    else
      var t := Track(s, hands[0]);
      if s.isAnimating then t
      else match HitTest(t.finger, t.palm, random)
        case Some(a) => Trigger(t, a)
        case None => t
  }

  /** The actions the hit test can start. */
  predicate Triggerable(a: CatAction) {
    a == Sneeze || a in HeadActions
  }

  /** What holds in every reachable state: the lock is on exactly when one
      reset is pending and an action other than idle is playing, whose name
      the status message shows; `Lay` is never reached. */
  predicate Invariant(s: Engine) {
    && s.pendingResets <= 1
    && (s.isAnimating <==> s.pendingResets == 1)
    && (s.isAnimating <==> s.action != Idle)
    && (s.isAnimating ==> Triggerable(s.action) && s.message == ReactingMessage(s.action))
  }

  lemma InitialInvariant()
    ensures Invariant(Initial())
  {
  }

  /** The hit test only ever asks for `Sneeze`, `Jump`, `Spin` or `Shake`. */
  lemma HitTestTriggerable(finger: Point, palm: Point, random: real)
    requires 0.0 <= random < 1.0
    ensures HitTest(finger, palm, random).Some? ==> Triggerable(HitTest(finger, palm, random).value)
    ensures HitTest(finger, palm, random) != Some(Idle) && HitTest(finger, palm, random) != Some(Lay)
  {
  }

  lemma TriggerKeepsInvariant(s: Engine, a: CatAction)
    requires Invariant(s) && Triggerable(a)
    ensures Invariant(Trigger(s, a))
  {
  }

  lemma ResetKeepsInvariant(s: Engine)
    requires Invariant(s) && s.pendingResets > 0
    ensures Invariant(ResetFired(s))
  {
  }

  lemma FrameKeepsInvariant(s: Engine, hands: seq<seq<Point>>, random: real)
    requires HandsWellFormed(hands) && 0.0 <= random < 1.0
    requires Invariant(s)
    ensures Invariant(Frame(s, hands, random))
  {
    if |hands| > 0 {
      var t := Track(s, hands[0]);
      assert Invariant(t);
      if !s.isAnimating {
        HitTestTriggerable(t.finger, t.palm, random);
        var hit := HitTest(t.finger, t.palm, random);
        if hit.Some? {
          TriggerKeepsInvariant(t, hit.value);
        }
      }
    }
  }

  /** What reaches the interaction: an animation frame with the detected hands
      and the value `Math.random()` would return, or a reset timer firing. */
  datatype Event = Detect(hands: seq<seq<Point>>, random: real) | TimerFired

  predicate EventWellFormed(e: Event) {
    e.Detect? ==> HandsWellFormed(e.hands) && 0.0 <= e.random < 1.0
  }

  /** One event. A timer can only fire if one was scheduled, so a timer event
      with none pending changes nothing. */
  function Step(s: Engine, e: Event): Engine
    requires EventWellFormed(e)
  {
    match e
    case Detect(hands, random) => Frame(s, hands, random)
    case TimerFired => if s.pendingResets > 0 then ResetFired(s) else s
  }

  /** The state after a run of events, in order. */
  function Run(s: Engine, events: seq<Event>): Engine
    requires forall i :: 0 <= i < |events| ==> EventWellFormed(events[i])
    decreases |events|
  {
    if events == [] then s else Run(Step(s, events[0]), events[1..])
  }

  lemma {:induction false} RunKeepsInvariant(s: Engine, events: seq<Event>)
    requires forall i :: 0 <= i < |events| ==> EventWellFormed(events[i])
    requires Invariant(s)
    ensures Invariant(Run(s, events))
    decreases |events|
  {
    if events != [] {
      var e := events[0];
      match e {
        case Detect(hands, random) => FrameKeepsInvariant(s, hands, random);
        case TimerFired =>
          if s.pendingResets > 0 {
            ResetKeepsInvariant(s);
          }
      }
      RunKeepsInvariant(Step(s, e), events[1..]);
    }
  }

  /** In every state the interaction reaches: at most one reset is pending,
      the lock is on exactly when it is, the cat is idle exactly when
      unlocked, and it never lies down. */
  lemma Reachable(events: seq<Event>)
    requires forall i :: 0 <= i < |events| ==> EventWellFormed(events[i])
    ensures var s := Run(Initial(), events);
      && s.pendingResets <= 1
      && (s.isAnimating <==> s.pendingResets == 1)
      && (s.isAnimating <==> s.action != Idle)
      && s.action != Lay
  {
    InitialInvariant();
    RunKeepsInvariant(Initial(), events);
  }

  // ---------------------------------------------------------------------------
  // The component's mutable state
  // ---------------------------------------------------------------------------

  /** The refs and React state `App` keeps for the interaction, updated in place. */
  class Kitty {
    var isAnimating: bool
    var catAction: CatAction
    var debugMsg: string
    var rawFinger: Point
    var rawPalm: Point
    var lookAt: Point
    var cursorFinger: Option<Point>
    var cursorPalm: Option<Point>
    var catLookAt: Option<Point>
    var pendingResets: nat

    function State(): Engine
      reads this
    {
      Engine(isAnimating, catAction, debugMsg, rawFinger, rawPalm, lookAt,
             cursorFinger, cursorPalm, catLookAt, pendingResets)
    }

    predicate Valid()
      reads this
    {
      Invariant(State())
    }

    constructor ()
      ensures State() == Initial() && Valid()
    {
      isAnimating := false;
      catAction := Idle;
      debugMsg := InitialMessage;
      rawFinger := Origin;
      rawPalm := Origin;
      lookAt := Origin;
      cursorFinger := None;
      cursorPalm := None;
      catLookAt := None;
      pendingResets := 0;
    }

    method TriggerAction(action: CatAction)
      modifies this
      ensures State() == Trigger(old(State()), action)
    {
      if isAnimating {
        return;
      }
      isAnimating := true;
      catAction := action;
      debugMsg := ReactingMessage(action);
      pendingResets := pendingResets + 1;
    }

    /** The callback of the timer `triggerAction` scheduled. */
    method FireReset()
      requires pendingResets > 0
      modifies this
      ensures State() == ResetFired(old(State()))
      ensures old(Valid()) ==> Valid()
    {
      catAction := Idle;
      isAnimating := false;
      debugMsg := IdleMessage;
      pendingResets := pendingResets - 1;
    }

    /** One call of `predictWebcam` with the detector's landmark lists. */
    method PredictWebcam(hands: seq<seq<Point>>, random: real)
      requires HandsWellFormed(hands) && 0.0 <= random < 1.0
      modifies this
      ensures State() == Frame(old(State()), hands, random)
      ensures old(Valid()) ==> Valid()
    {
      ghost var s0 := State();
      if Invariant(s0) {
        FrameKeepsInvariant(s0, hands, random);
      }
      if |hands| > 0 {
        var landmarks := hands[0];
        var indexTip := landmarks[IndexTip];
        var palmCenter := landmarks[PalmCenter];

        var targetFingerX := 1.0 - indexTip.x;
        var targetFingerY := indexTip.y;
        var targetPalmX := 1.0 - palmCenter.x;
        var targetPalmY := palmCenter.y;

        rawFinger := rawFinger.(x := Lerp(rawFinger.x, targetFingerX, PointerSmoothing));
        rawFinger := rawFinger.(y := Lerp(rawFinger.y, targetFingerY, PointerSmoothing));
        rawPalm := rawPalm.(x := Lerp(rawPalm.x, targetPalmX, PointerSmoothing));
        rawPalm := rawPalm.(y := Lerp(rawPalm.y, targetPalmY, PointerSmoothing));
        assert rawFinger == LerpPoint(s0.finger, Mirror(indexTip), PointerSmoothing);
        assert rawPalm == LerpPoint(s0.palm, Mirror(palmCenter), PointerSmoothing);

        cursorFinger := Some(rawFinger);
        cursorPalm := Some(rawPalm);

        var fX, fY := rawFinger.x, rawFinger.y;
        var pX, pY := rawPalm.x, rawPalm.y;

        var lookX := (pX - 0.5) * 2.0;
        var lookY := (pY - 0.5) * 2.0;
        lookAt := lookAt.(x := Lerp(lookAt.x, lookX, LookSmoothing));
        lookAt := lookAt.(y := Lerp(lookAt.y, lookY, LookSmoothing));
        catLookAt := Some(lookAt);
        assert lookAt == LerpPoint(s0.lookAt, LookTarget(rawPalm), LookSmoothing);
        ghost var tracked := State();
        assert tracked == Track(s0, landmarks);
        assert tracked.finger == Point(fX, fY) && tracked.palm == Point(pX, pY);

        if !isAnimating {
          if WithinZone(Point(fX, fY), NoseTarget, NoseThreshold) {
            TriggerAction(Sneeze);
          } else if WithinZone(Point(pX, pY), HeadTarget, HeadThreshold) {
            var possibleActions := HeadActions;
            var randomAction := possibleActions[RandomIndex(random)];
            assert HitTest(tracked.finger, tracked.palm, random) == Some(randomAction);
            TriggerAction(randomAction);
          }
        }
      } else {
        cursorFinger := None;
        cursorPalm := None;
        lookAt := lookAt.(x := Lerp(lookAt.x, 0.0, ReturnSmoothing));
        lookAt := lookAt.(y := Lerp(lookAt.y, 0.0, ReturnSmoothing));
        catLookAt := Some(lookAt);
      }
    }
  }
}
