# touch-Kitty in Dafny

A model of the two pieces of sequential logic in touch-Kitty, a web toy in
which a typewriter-drawn cat reacts to a hand seen by the webcam:

- **The gesture step of `App.tsx`.** `predictWebcam` runs once per
  animation frame: it reschedules itself with `requestAnimationFrame`
  (App.tsx:161). Each run works on whatever image the video currently shows,
  and nothing checks for a new camera image. It takes the first detected hand
  and mirrors its index fingertip (landmark 8) and palm centre (landmark 9).
  It smooths both points with `lerp(…, 0.2)`. It then steers a smoothed
  look-at vector toward the palm's offset from the image centre, doubled.
  Then it
  hit-tests two zones, nose before head:
  - a finger strictly within 0.12 of the nose at (0.5, 0.5) makes the cat
    sneeze;
  - otherwise a palm strictly within 0.28 of the head at (0.5, 0.35) makes it
    jump, spin or shake, chosen by `Math.random()`.

  `triggerAction` is ignored while an action plays. Otherwise it locks,
  shows `Reacting: <ACTION>!`, and schedules a timer that puts the cat back
  to `IDLE` and unlocks. A frame without a hand hides the cursors and decays
  the look-at vector toward the centre.
- **The row expander `parseRowInstructions` of `data/catPatterns.ts`** and
  the `catRules` table it is fed. A row instruction is split on single spaces.
  Each token is matched against `^(\d+)(.+)`:
  - on a match, group 1 is a decimal count and group 2 the symbol;
  - a token that does not match is its own symbol, repeated once.

  The symbol `sp` becomes a space, and the row is every token's symbol
  repeated `count` times, in order.

Files:

- `wrappers.dfy` (module `Wrappers`): the `Option` type both parts use.
- `kitty_types.dfy` (module `KittyTypes`): `CatAction`, its string values,
  and `Point` from `types.ts`.
- `app.dfy` (module `App`): the configuration constants and `lerp`, mirroring,
  the look-at target and the hit test.
  - The interaction state is the datatype `Engine`. Its transitions are
    `Trigger`, `ResetFired`, `Track`, `NoHand` and `Frame`.
  - The invariant every reachable state keeps is proved over arbitrary runs
    of frames and timer events.
  - The class `Kitty` holds the component's refs and React state as fields.
    Its methods `TriggerAction`, `FireReset` and `PredictWebcam` update those
    fields step by step as the source does. Each method is proved to produce
    the state the matching transition function gives.
- `app_properties.dfy` (module `AppProperties`): what a frame does.
  - smoothing moves each point a fixed fraction of the way to its target;
  - nose beats head, and a point at exactly the threshold triggers nothing;
  - a locked frame changes no discrete state;
  - `n` frames without a hand scale the gaze by `0.95^n`.
- `cat_patterns.dfy` (module `CatPatterns`):
  - `split(' ')`, `repeat`, `parseInt`, and the JavaScript semantics of
    `^(\d+)(.+)`: greedy `\d+` with backtracking, and `.` stopping at line
    terminators;
  - the specification function `ExpandRow`;
  - the method `ParseRowInstructions`, whose loop is proved against
    `ExpandRow`;
  - the `catRules` table.
- `cat_patterns_properties.dfy` (module `CatPatternsProperties`):
  - the regex characterised exactly;
  - what each kind of token contributes;
  - distributivity over a space, token order, and output length;
  - rows 4 and 14 of the table.

Numbers are idealised as `real`. `Math.hypot(d) < t` is modelled as
`d.x² + d.y² < t²`, and `HypotBelow` proves the two agree for `t > 0`.
`Math.random()` is a parameter `random` in `[0, 1)`. The reset timer is an
event: the method `FireReset`, or `TimerFired` in a run.

The bare token `sp` fails the regular expression. The `sp` substitution
(data/catPatterns.ts:53) is still applied to it, so it becomes a space
(`ExpandUnmatched`, `ExampleUnmatched`).

## Model

| member | source | states |
|---|---|---|
| KittyTypes.ActionName | types.ts:2-9 | every `CatAction` value is a string of at least three letters |
| KittyTypes.ActionNameInjective | types.ts:2-9 | two actions have the same string value exactly when they are the same action |
| App.Lerp | App.tsx:14 | `lerp` with factor 0 returns the start, with factor 1 the end, and `lerp(s, s, f) = s` |
| App.Mirror | App.tsx:98-103 | the mirrored landmark keeps `y` and has `x' = 1 - x` |
| App.SquaredDistance | App.tsx:136-137 | the squared distance is never negative |
| App.LookTarget | App.tsx:122-124 | the gaze target is the palm's offset from the image centre, doubled: halving it and adding (0.5, 0.5) gives the palm back |
| App.HitTest | App.tsx:136-149 | the result is SNEEZE exactly when the finger is strictly inside the nose zone, nothing exactly when the finger is outside the nose zone and the palm outside the head zone, and otherwise SNEEZE or one of JUMP, SPIN, SHAKE |
| App.Trigger | App.tsx:72-84 | `triggerAction` always leaves the lock on, and never touches the smoothed points, the look-at vector or the cursors |
| App.ResetFired | App.tsx:79-83 | the timer callback leaves the cat idle, unlocked and showing `Idle`, with fewer pending resets, and touches nothing that is tracked |
| App.Track | App.tsx:92-129 | finger and palm each move a fifth of the way to mirrored landmarks 8 and 9, and the gaze 15% of the way to the target of the updated palm, on each axis; lock, action, message and pending resets are kept; the cursors and the cat's look-at show the new finger, palm and gaze |
| App.NoHand | App.tsx:151-158 | a frame without a hand scales the gaze by 0.95 and shows it, hides both cursors, and keeps the points, lock, action, message and pending resets |
| App.Frame | App.tsx:86-162 | a locked frame keeps lock, action, message and pending resets; a frame schedules at most one reset; the action changes only in an unlocked frame with a hand, to one the hit test can start; the cursors are hidden exactly when there is no hand |
| App.RandomIndex | App.tsx:146-147 | `Math.floor(random * 3)` for `random` in `[0, 1)` is a valid index of the three head actions |
| App.Kitty.constructor | App.tsx:20-34 | the component starts idle, unlocked, with `Initializing Vision...`, all points at (0, 0), no cursors and no pending timer, and satisfies the invariant |
| App.Kitty.TriggerAction | App.tsx:72-84 | the new state is `Trigger(old state, action)`: unchanged while locked, otherwise locked, playing `action`, showing `Reacting: <ACTION>!` and with one more reset pending |
| App.Kitty.FireReset | App.tsx:79-83 | the timer callback gives `ResetFired(old state)`: idle, unlocked, `Idle`, one fewer pending reset; the invariant is kept |
| App.Kitty.PredictWebcam | App.tsx:86-162 | one frame gives `Frame(old state, hands, random)`: mirroring, smoothing, look-at, lock-gated hit test with nose priority, or the no-hand branch; the invariant is kept |
| App.InitialInvariant | App.tsx:20-28 | the initial state satisfies the invariant |
| App.HitTestTriggerable | App.tsx:139-149 | the hit test only asks for SNEEZE, JUMP, SPIN or SHAKE, never IDLE or LAY |
| App.TriggerKeepsInvariant | App.tsx:72-84 | triggering a hit-test action keeps the invariant |
| App.ResetKeepsInvariant | App.tsx:79-83 | the reset firing keeps the invariant |
| App.FrameKeepsInvariant | App.tsx:86-162 | every frame keeps the invariant |
| App.RunKeepsInvariant | App.tsx:72-162 | any sequence of frames and timer firings keeps the invariant |
| App.Reachable | App.tsx:72-162 | in every reachable state at most one reset is pending, the lock is on exactly when one is, the cat is idle exactly when unlocked, and LAY never occurs |
| AppProperties.LerpBetween | App.tsx:14 | with a factor in `[0, 1]`, `lerp` lies between its two ends |
| AppProperties.LerpGap | App.tsx:14 | `lerp(s, e, f) - e = (1 - f)(s - e)`: the remaining gap shrinks by `1 - f` |
| AppProperties.LerpPointDistance | App.tsx:106-110 | smoothing a point with factor `f` multiplies its squared distance to the target by `(1 - f)²` |
| AppProperties.LerpPointCloser | App.tsx:106-110 | with a factor in `(0, 1]`, a point off target moves strictly closer |
| AppProperties.MirrorInvolution | App.tsx:98-103 | mirroring twice gives the landmark back |
| AppProperties.LookTargetRange | App.tsx:122-124 | a centred palm aims the gaze at (0, 0); a palm inside the image aims it inside `[-1, 1]²` |
| AppProperties.HypotBelow | App.tsx:136-144 | `hypot(dx, dy) < t` exactly when `dx² + dy² < t²`, for `t > 0` |
| AppProperties.HeadActionByRandom | App.tsx:146-147 | random values in `[0, 1/3)` pick JUMP, in `[1/3, 2/3)` SPIN, in `[2/3, 1)` SHAKE |
| AppProperties.BoundaryTriggersNothing | App.tsx:136-149 | for all points, a finger exactly 0.12 from the nose and a palm exactly 0.28 from the head trigger nothing |
| AppProperties.ExampleBoundary | App.tsx:136-149 | the finger at (0.62, 0.5) and the palm at (0.5, 0.63) lie exactly on the zone boundaries and trigger nothing |
| AppProperties.TriggerWhileLocked | App.tsx:73 | `triggerAction` while locked changes nothing: action, lock, message and pending timers stay |
| AppProperties.TriggerWhileUnlocked | App.tsx:75-83 | unlocked, `triggerAction(a)` locks, sets `a`, shows `Reacting: a!`, schedules exactly one reset, and leaves the tracked points alone |
| AppProperties.TriggerThenReset | App.tsx:72-83 | a trigger followed by its reset leaves the cat idle, unlocked, showing `Idle`, with the same number of pending resets as before |
| AppProperties.FrameTracksHand | App.tsx:92-129 | with a hand, finger and palm move a fifth of the way to mirrored landmarks 8 and 9 on each axis (squared distance × 0.64), the cursors show them, and the gaze moves 15% of the way to the target of the palm already updated this frame (× 0.7225) |
| AppProperties.FrameWhileLocked | App.tsx:139 | while locked, a frame leaves lock, action, message and pending reset unchanged |
| AppProperties.NoseTouchSneezes | App.tsx:139-143 | unlocked, a smoothed finger strictly inside the nose zone triggers SNEEZE wherever the palm is |
| AppProperties.HeadTouchPlaysHeadAction | App.tsx:144-149 | unlocked, finger outside the nose zone and palm strictly inside the head zone trigger the head action the random value picks, one of JUMP, SPIN, SHAKE |
| AppProperties.MissTriggersNothing | App.tsx:139-150 | finger and palm outside their zones leave the discrete state unchanged |
| AppProperties.FrameWithoutHand | App.tsx:151-158 | without a hand, finger and palm stay, the cursors become null, the gaze becomes exactly 0.95 times its old value, and nothing discrete changes |
| AppProperties.GazeShrinks | App.tsx:155-157 | without a hand, a gaze that is not centred strictly shrinks toward (0, 0) |
| AppProperties.NoHandFramesDecay | App.tsx:151-158 | after `n` frames without a hand the gaze is `0.95^n` times what it was and everything else but the cursors is unchanged |
| CatPatterns.FirstSpace | data/catPatterns.ts:40 | the index found holds a space and no space comes before it |
| CatPatterns.Split | data/catPatterns.ts:40 | `split(' ')` always yields at least one token |
| CatPatterns.Repeat | data/catPatterns.ts:56 | `symbol.repeat(count)` has length `count` times the length of `symbol` |
| CatPatterns.DecimalValue | data/catPatterns.ts:47 | the value of `k` decimal digits is below `10^k` |
| CatPatterns.DigitRun | data/catPatterns.ts:45 | the leading run of `\d` covers digits only and stops before a non-digit or at the end |
| CatPatterns.DotEnd | data/catPatterns.ts:45 | the run of `.` stops exactly at the first line terminator or at the end |
| CatPatterns.Backtrack | data/catPatterns.ts:45 | a group 1 found by backtracking is non-empty, all digits, and leaves a character `.` accepts |
| CatPatterns.MatchToken | data/catPatterns.ts:45 | a match has a non-empty all-digit group 1 and a non-empty group 2 |
| CatPatterns.TokenParts | data/catPatterns.ts:43-51 | the symbol a token settles on is a contiguous piece of the token, and empty only for the empty token |
| CatPatterns.SpaceFor | data/catPatterns.ts:53 | the symbol becomes a space exactly when it is `sp` (or already a space); any other symbol is kept |
| CatPatterns.ExpandToken | data/catPatterns.ts:43-56 | a token appends `count` times the symbol's length in characters, and a token the regex rejects is appended once, after the `sp` substitution |
| CatPatterns.ExpandRow | data/catPatterns.ts:39-58 | the row of an instruction without spaces is the expansion of that single token |
| CatPatterns.ParseRowInstructions | data/catPatterns.ts:39-58 | the loop returns `ExpandRow(instructions)`: each token's symbol after the `sp` substitution, repeated `count` times, concatenated in order |
| CatPatternsProperties.DecimalStringValue | data/catPatterns.ts:47 | `parseInt` of the decimal numeral of any `n` gives `n` back |
| CatPatternsProperties.SplitTokensHaveNoSpace | data/catPatterns.ts:40 | no token of `split(' ')` contains a space |
| CatPatternsProperties.JoinSplit | data/catPatterns.ts:40 | joining the tokens with single spaces gives the instruction back |
| CatPatternsProperties.SplitJoin | data/catPatterns.ts:40 | splitting a join of space-free tokens gives those tokens back |
| CatPatternsProperties.SplitAppend | data/catPatterns.ts:40 | `(a + " " + b).split(' ')` is `a.split(' ')` followed by `b.split(' ')` |
| CatPatternsProperties.RepeatAt | data/catPatterns.ts:56 | character `i` of `symbol.repeat(count)` is character `i` modulo the length of `symbol` of `symbol` |
| CatPatternsProperties.BacktrackLongest | data/catPatterns.ts:45 | backtracking returns the longest group 1 that leaves a match, and nothing exactly when there is none |
| CatPatternsProperties.MatchTokenSemantics | data/catPatterns.ts:45 | the match fails exactly when no digit prefix leaves a character for `.+`; otherwise group 1 is the longest such prefix and group 2 the longest following run free of line terminators |
| CatPatternsProperties.MatchGivesBackLastDigit | data/catPatterns.ts:45 | when a run of two or more digits ends the token or is followed by a line terminator, `\d+` gives back its last digit, which becomes the symbol |
| CatPatternsProperties.MatchFailsExactly | data/catPatterns.ts:45-51 | the regex fails exactly for the empty token, a token not starting with a digit, and a lone digit at the end or before a line terminator |
| CatPatternsProperties.MatchCounted | data/catPatterns.ts:45-48 | digits followed by a symbol that starts with a non-digit and has no line terminator match as exactly those two groups |
| CatPatternsProperties.ExpandCountedSymbol | data/catPatterns.ts:45-56 | such a token whose symbol is not `sp` appends the symbol repeated `count` times |
| CatPatternsProperties.ExpandCountedSpaces | data/catPatterns.ts:53-56 | `<n>sp` appends `n` characters, all spaces |
| CatPatternsProperties.ExpandUnmatched | data/catPatterns.ts:49-56 | a token the regex rejects is appended once as it is, except that the bare token `sp` becomes a space |
| CatPatternsProperties.ExpandAllDigits | data/catPatterns.ts:45-56 | an all-digit token of two or more digits repeats its last digit as many times as the other digits say |
| CatPatternsProperties.ExampleSymbolContainingSp | data/catPatterns.ts:53 | `2spx` gives `spxspx`: only a symbol exactly `sp` is replaced |
| CatPatternsProperties.ExampleFourSpaces | data/catPatterns.ts:53-56 | `4sp` gives four spaces |
| CatPatternsProperties.ExampleUnmatched | data/catPatterns.ts:49-56 | `/` gives `/`, `5` gives `5`, the empty token gives nothing, `sp` gives a space |
| CatPatternsProperties.ExampleAllDigits | data/catPatterns.ts:45-56 | `12` gives `2`, and `123` gives `3` twelve times |
| CatPatternsProperties.ExampleZeroCount | data/catPatterns.ts:47-56 | `0#` contributes nothing |
| CatPatternsProperties.ConcatMapAppend | data/catPatterns.ts:42-56 | the accumulated row over two token lists is the row of the first followed by the row of the second |
| CatPatternsProperties.ExpandRowDistributes | data/catPatterns.ts:40-56 | `parse(a + " " + b) = parse(a) + parse(b)` |
| CatPatternsProperties.ExpandRowInOrder | data/catPatterns.ts:42-56 | each token's expansion sits after those of the tokens before it and before those after it |
| CatPatternsProperties.ExpandRowLength | data/catPatterns.ts:56 | the row's length is the sum over tokens of `count` times the length of the symbol after the `sp` substitution |
| CatPatternsProperties.SingleToken | data/catPatterns.ts:40-56 | an instruction without spaces expands as its single token |
| CatPatternsProperties.FourTokens | data/catPatterns.ts:40-56 | a four-token instruction expands as its four tokens side by side |
| CatPatternsProperties.CatRulesLabels | data/catPatterns.ts:11-37 | the `catRules` table has fourteen rows, labelled `1` to `14` in order |
| CatPatternsProperties.Row4 | data/catPatterns.ts:18 | row "4" expands to five spaces, `/`, thirty `#` and `\`, 37 characters |
| CatPatternsProperties.Row14 | data/catPatterns.ts:36 | row "14" expands to nine spaces, `(`, twenty-four spaces and `)`, 35 characters |

## Left out

- Camera and permission start-up, the vision service, the `videoRef` guard
  and the `requestAnimationFrame` loop and its cancellation (App.tsx:36-70,
  87-89, 161) are I/O and scheduling. A frame is one call with the
  detector's landmark lists as a parameter. The model does not know whether
  two frames saw the same camera image, which the source does not check
  either. The smoothing factors apply per animation frame, so how fast the
  cat follows depends on the display's refresh rate. A missing detector result is the
  empty list, which takes the same branch.
- The 1000 ms delay of the reset timer is not modelled. The timer firing is
  an event (`FireReset`, `TimerFired`) that may come after any number of
  frames, so the model covers every timing of the reset.
- React state updates are modelled as immediate field assignments. Batching
  and re-rendering are framework behaviour. The status messages set during
  start-up (`Waking up kitty...`, `Pet the cat!`, errors) belong to that
  start-up code.
- IEEE-754 rounding in `lerp` and `Math.hypot` is not modelled: numbers are
  reals.
- `Math.random()` is an injected value in `[0, 1)`.
- App.Kitty.PredictWebcam: requires the first hand to have at least ten
  landmarks. With fewer, the source would throw on `landmarks[8].x`, and
  that exception is not modelled.
- App.Kitty.TriggerAction: accepts any action, as the source does. The
  invariant is proved for the actions the hit test passes it.
- CatPatterns.DecimalValue: counts are unbounded naturals. `parseInt` loses
  precision above 2^53, and `repeat` throws a RangeError for results too
  long for a string. Neither is modelled.
- CatPatterns.MatchToken: JavaScript strings are UTF-16 code units and the
  regex has no `u` flag, so `.` matches half of a surrogate pair. Dafny
  characters are whole code points. A symbol holding a character outside
  the Basic Multilingual Plane is one character here.
- Only rows 4 and 14 of `catRules` are expanded by lemma. The other twelve
  rows are in the `CatRules` table, but no lemma expands them.
- components/TypewriterCat.tsx is not part of this model: rendering, blink
  timer, and the pixel mapping of the look-at vector.
- services/liveService.ts and services/visionService.ts are not part of this
  model: network audio and a wrapper around the hand-landmark detector.
