# Multi-view categorisation trials, modelled in Dafny

This project models the trial logic of a family of jsPsych plugins for
categorising multi-view videos. A participant watches a video in which each
frame has a J×I grid of viewpoints (theta column j, phi row i). They move the
view with the keyboard and then classify what they saw.

The four multi-view plugins share one tick-driven trial engine:

- move-view;
- move-view with obstacles;
- select-view;
- categorize-animation-cc-proactive.

That engine has these parts:

- **Viewpoint navigation.** Theta wraps around the J columns. A phi step past either pole keeps phi and turns theta half-way round.
- **Phases and budgets.** There are three phases: move-to-play, playing, and ended. The first two have movement budgets M0 and M1, where -1 means unlimited.
  - In move-to-play, the frame advances only on ticks that carry a movement.
  - In playing, the frame advances on every tick.
- **Repetitions.** The video repeats `sequence_reps` times. The last repetition freezes on the view from before the last tick, or on the end stimulus.
- **Movement input.** Input is controlled (four key slots) or random (a drawn direction).
- **Classification.** Whether a classification key counts is gated by the phase.
- **The trajectory log.** Ten parallel arrays are written on each tick, overwritten at the end of a repetition, and padded when the animation stops.

Beside the engine, the project models:

- the occlusion geometry of the obstacle plugin;
- the zero-padded frame paths of the proactive plugin;
- the simpler frame/repetition counters of categorize-animation-cc and animation-cc.

## Modules

| file | module | what it holds |
|---|---|---|
| `common.dfy` | `Common` | `Option` (the `'None'` sentinel), the repetition rule `Continues`, `Passes`, `Max`, a remainder lemma, and the pass-end arithmetic `PassEnd` |
| `view_grid.dfy` | `ViewGrid` | navigation: `WrapTheta`, `HalfTurn`, `Step`, and their algebra |
| `movement_input.dfy` | `MovementInput` | key filtering, the controlled key mapper, and the random draw |
| `trajectory_log.dfy` | `TrajectoryLog` | the log as rows with a closing phase code, and the ten arrays as projections of the rows |
| `trial_engine.dfy` | `TrialEngine` | the engine state as a value, the tick, the handlers, and the invariant they keep |
| `multi_view_trial.dfy` | `MultiViewTrials` | the trial object: a class whose methods update the engine state step by step, proved equal to the `TrialEngine` functions |
| `occlusion.dfy` | `Occlusion` | covered theta/phi lists, source offset progressions, and the slice choice of the overlay |
| `frame_path.dfy` | `FramePath` | zero-padded frame paths and the image shown for a frame |
| `categorize_animation.dfy` | `CategorizeAnimation` | the categorize-animation-cc counter, response gate, and feedback |
| `animation.dfy` | `Animation` | the animation-cc counter, end image, and first-response end |

### The trial object

The plugins keep their state in closure variables. `MultiViewTrials.MultiViewTrial` splits those variables in two:

- **Animation variables.** These are `j`, `i`, `t`, `reps`, `delta`, `lambda`, `RT_m`, `m0`, `m1`, `m`, the phase flags, `movable`, `showAnimation` and the ten arrays. They are held in one field, `eng`, of record type `TrialEngine.Engine`. Each method updates that record's fields one statement at a time, in the source's order.
- **Lifecycle variables.** These are `responded`, `timeoutSet`, `correct`, `trial_data`, plus what was handed to `finishTrial`. They are separate fields.

Each method's postcondition equates the new record with a function of `TrialEngine` applied to the old one. The invariant `Engine.Valid` and the tick's behaviour are proved as lemmas about those functions.

Other modelling choices:

- The `'None'` strings become `Option` values.
- Times and reaction times are opaque integers passed in.
- A timer firing is a method call.
- The log is a sequence of rows rather than ten arrays. Each array is a projection of the rows, and `TrajectoryLog.ChannelsAligned` gives their lengths.

## Model

MV = `docs/modules/jspsych-6.3.0/plugins/jspsych-move-view-and-categorize-multi-view-video.js`, OB = `…-with-obstacles.js`, SV = `…/jspsych-select-view-and-categorize-multi-view-video.js`, PR = `…/jspsych-categorize-animation-cc-proactive.js` (all in the same directory); the source column gives full paths.

| member | source | states |
|---|---|---|
| ViewGrid.WrapTheta | docs/modules/jspsych-6.3.0/plugins/jspsych-move-view-and-categorize-multi-view-video.js:382-391 | a theta step lands in [0, J) and equals (j + delta) mod J |
| ViewGrid.HalfTurn | docs/modules/jspsych-6.3.0/plugins/jspsych-move-view-and-categorize-multi-view-video.js:395-399 | the pole compensation lands in [0, J) and equals (j + J/2) mod J |
| ViewGrid.Step | docs/modules/jspsych-6.3.0/plugins/jspsych-move-view-and-categorize-multi-view-video.js:382-404 | applying a pending movement keeps the view on the grid |
| ViewGrid.WrapThetaInverse | docs/modules/jspsych-6.3.0/plugins/jspsych-move-view-and-categorize-multi-view-video.js:382-391 | a theta step is undone by the opposite step |
| ViewGrid.HalfTurnInvolution | docs/modules/jspsych-6.3.0/plugins/jspsych-move-view-and-categorize-multi-view-video.js:395-399 | two half-turns give back the same theta (J even) |
| ViewGrid.WrapThetaTimesIsMod | docs/modules/jspsych-6.3.0/plugins/jspsych-move-view-and-categorize-multi-view-video.js:382-391 | n steps of delta reach (j + n·delta) mod J |
| ViewGrid.FullTurnIsIdentity | docs/modules/jspsych-6.3.0/plugins/jspsych-move-view-and-categorize-multi-view-video.js:382-391 | J steps in one direction return to the start view |
| ViewGrid.PoleCompensation | docs/modules/jspsych-6.3.0/plugins/jspsych-move-view-and-categorize-multi-view-video.js:392-404 | a phi step past a pole keeps i and turns j to (j + delta + J/2) mod J |
| ViewGrid.InteriorPhiStep | docs/modules/jspsych-6.3.0/plugins/jspsych-move-view-and-categorize-multi-view-video.js:382-404 | an in-range step moves to ((j + delta) mod J, i + lambda) |
| MovementInput.EnabledKeys | docs/modules/jspsych-6.3.0/plugins/jspsych-select-view-and-categorize-multi-view-video.js:217-229 | the movement keys are exactly the enabled slots (not null/none/None/NONE) |
| MovementInput.EnabledKeysAppend | docs/modules/jspsych-6.3.0/plugins/jspsych-select-view-and-categorize-multi-view-video.js:217-229 | the key list of two slot lists joined is the two key lists joined, so order and multiplicity follow the slots |
| MovementInput.EnabledKeysFour | docs/modules/jspsych-6.3.0/plugins/jspsych-select-view-and-categorize-multi-view-video.js:217-229 | for the four slots the key list is left, right, down, up in that order, each present exactly when its slot is enabled |
| MovementInput.ControlledPress | docs/modules/jspsych-6.3.0/plugins/jspsych-select-view-and-categorize-multi-view-video.js:562-593 | a controlled key keeps the pending movement one step per axis; a changed value takes the new RT; a key bound to a single slot takes it exactly when its axis changes (`ControlledPressOneSlot`); a key in no slot changes nothing |
| MovementInput.PressKey | docs/modules/jspsych-6.3.0/plugins/jspsych-select-view-and-categorize-multi-view-video.js:562-593 | the four slot tests run in order and compute `ControlledPress` |
| MovementInput.ControlledPressOneSlot | docs/modules/jspsych-6.3.0/plugins/jspsych-select-view-and-categorize-multi-view-video.js:562-593 | left/right/down/up set delta -1/+1 and lambda +1/-1, with the RT taken only when the value changes |
| MovementInput.ControlledPressLaterSlotWins | docs/modules/jspsych-6.3.0/plugins/jspsych-select-view-and-categorize-multi-view-video.js:562-580 | a key bound to both left and right moves right: the later slot wins |
| MovementInput.RndInt | docs/modules/jspsych-6.3.0/plugins/jspsych-select-view-and-categorize-multi-view-video.js:686-688 | `floor(r·(max-min)) + min` lies in [min, max) |
| MovementInput.DrawRandomMovement | docs/modules/jspsych-6.3.0/plugins/jspsych-select-view-and-categorize-multi-view-video.js:594-605 | the redraw loop stops at the first sample pair that is not (0, 0), and all earlier pairs were (0, 0) |
| MovementInput.AsWrittenDrawNeverRightOrDown | docs/modules/jspsych-6.3.0/plugins/jspsych-select-view-and-categorize-multi-view-video.js:686-688 | `RndInt(-1, 1)` is -1 or 0, never +1 |
| MovementInput.RndIntInclusive | docs/modules/jspsych-6.3.0/plugins/jspsych-select-view-and-categorize-multi-view-video.js:686-688 | the inclusive draw lies in [min, max] |
| MovementInput.RndIntInclusiveCovers | docs/modules/jspsych-6.3.0/plugins/jspsych-select-view-and-categorize-multi-view-video.js:686-688 | every value of [min, max] is drawn by some sample |
| TrajectoryLog.Start | docs/modules/jspsych-6.3.0/plugins/jspsych-move-view-and-categorize-multi-view-video.js:339-365 | the log starts with one row: the start view, frame 0, repetition 0, time 0 |
| TrajectoryLog.Log.Push | docs/modules/jspsych-6.3.0/plugins/jspsych-move-view-and-categorize-multi-view-video.js:430-438 | a tick's row is appended and becomes the newest row |
| TrajectoryLog.Log.Rewind | docs/modules/jspsych-6.3.0/plugins/jspsych-move-view-and-categorize-multi-view-video.js:495-498 | at a repetition boundary the newest row's frame and repetition are overwritten; nothing is added |
| TrajectoryLog.Log.Close | docs/modules/jspsych-6.3.0/plugins/jspsych-move-view-and-categorize-multi-view-video.js:500-534 | at the natural end the newest row's view is overwritten, its movement entries become 'None', and phase 2 is written |
| TrajectoryLog.Log.Interrupt | docs/modules/jspsych-6.3.0/plugins/jspsych-move-view-and-categorize-multi-view-video.js:722-734 | a response during the animation pads the movement arrays and writes the interrupted phase |
| TrajectoryLog.ChannelsAligned | docs/modules/jspsych-6.3.0/plugins/jspsych-move-view-and-categorize-multi-view-video.js:753-769 | the five per-row arrays have one entry per row; the five movement arrays lag by one until the log is closed |
| TrajectoryLog.PushBounded | docs/modules/jspsych-6.3.0/plugins/jspsych-move-view-and-categorize-multi-view-video.js:430-438 | appending an in-range row keeps every row in range |
| TrajectoryLog.RewindPush | docs/modules/jspsych-6.3.0/plugins/jspsych-move-view-and-categorize-multi-view-video.js:493-498 | pushing a row and rewinding it equals pushing the rewound row |
| TrajectoryLog.ClosePush | docs/modules/jspsych-6.3.0/plugins/jspsych-move-view-and-categorize-multi-view-video.js:500-534 | pushing a row and closing the log equals pushing the closed row and writing phase 2 |
| TrialEngine.CountMoveToPlay | docs/modules/jspsych-6.3.0/plugins/jspsych-move-view-and-categorize-multi-view-video.js:413-429 | a counted move-to-play move stays within M0, and the phase leaves move-to-play exactly when M0 moves are made |
| TrialEngine.CountPlaying | docs/modules/jspsych-6.3.0/plugins/jspsych-move-view-and-categorize-multi-view-video.js:469-487 | a counted playing move stays within M1 |
| TrialEngine.Initial | docs/modules/jspsych-6.3.0/plugins/jspsych-move-view-and-categorize-multi-view-video.js:315-365 | the start state is valid; it starts in move-to-play iff M0 = -1 or M0 > 0, else in playing; movement is live iff move-to-play or M1 = -1 or M1 > 0; nothing is pending |
| TrialEngine.EngineTick | docs/modules/jspsych-6.3.0/plugins/jspsych-move-view-and-categorize-multi-view-video.js:369-545 | a tick that does not advance changes nothing; one that advances adds exactly one row; movement never comes back once off |
| TrialEngine.MoveToPlayTickStepped | docs/modules/jspsych-6.3.0/plugins/jspsych-move-view-and-categorize-multi-view-video.js:406-446 | a moved move-to-play tick keeps the phase, budget and log invariants, with the frame in [1, T] |
| TrialEngine.PlayingTickStepped | docs/modules/jspsych-6.3.0/plugins/jspsych-move-view-and-categorize-multi-view-video.js:449-487 | a playing tick keeps the phase, budget and log invariants, with the frame in [1, T] |
| TrialEngine.ContinueKeepsValid | docs/modules/jspsych-6.3.0/plugins/jspsych-move-view-and-categorize-multi-view-video.js:493 | a tick that stays below T leaves a valid state |
| TrialEngine.WrapKeepsValid | docs/modules/jspsych-6.3.0/plugins/jspsych-move-view-and-categorize-multi-view-video.js:493-498 | the wrap to frame 0 of the next repetition leaves a valid state |
| TrialEngine.EndKeepsValid | docs/modules/jspsych-6.3.0/plugins/jspsych-move-view-and-categorize-multi-view-video.js:499-542 | the natural end leaves a valid state |
| TrialEngine.TickKeepsValid | docs/modules/jspsych-6.3.0/plugins/jspsych-move-view-and-categorize-multi-view-video.js:369-545 | every tick preserves the engine invariant: view on the grid, frame below T, phase flags and budgets consistent, pending movement well formed, log aligned and ending at the current view |
| TrialEngine.TickAdvancesView | docs/modules/jspsych-6.3.0/plugins/jspsych-move-view-and-categorize-multi-view-video.js:382-498 | an advancing tick that is not the last moves the view by `Step`, moves the frame on (wrapping to 0 and counting a repetition at T), and logs exactly one row for the new view |
| TrialEngine.TickCountsMove | docs/modules/jspsych-6.3.0/plugins/jspsych-move-view-and-categorize-multi-view-video.js:406-487 | m counts consumed moves; a move-to-play tick counts m0 and passes to playing when M0 is spent; a consumed move clears the pending movement |
| TrialEngine.TickEndsSequence | docs/modules/jspsych-6.3.0/plugins/jspsych-move-view-and-categorize-multi-view-video.js:489-542 | the last tick stops every phase, restores m to its pre-tick value, restores the pre-tick view (or 'None' with an end stimulus), and adds one row with 'None' movements followed by phase 2 |
| TrialEngine.KeyPress | docs/modules/jspsych-6.3.0/plugins/jspsych-move-view-and-categorize-multi-view-video.js:654-702 | a movement key, one of the listener's valid responses (`EnabledKeys`, MV:706), keeps the state valid; in random mode it takes the draw only when nothing is pending; in any other mode it changes nothing |
| TrialEngine.Classified | docs/modules/jspsych-6.3.0/plugins/jspsych-move-view-and-categorize-multi-view-video.js:722-745 | an accepted classification stops the animation and movement, keeps every row, and writes the interrupted phase (or leaves a closed log alone) |
| TrialEngine.StoppedLogAligned | docs/modules/jspsych-6.3.0/plugins/jspsych-move-view-and-categorize-multi-view-video.js:753-769 | once the animation has stopped, all ten arrays of the trial data have the same length |
| TrialEngine.ThreeTickScenario | docs/modules/jspsych-6.3.0/plugins/jspsych-move-view-and-categorize-multi-view-video.js:315-545 | with J=4, I=2, T=3, M=[0,-1] and one repetition, three ticks give frames 0 1 2 2, phases 1 1 1 2 and times 0 10 20 30, and a classification is then accepted |
| MultiViewTrials.MultiViewTrial.constructor | docs/modules/jspsych-6.3.0/plugins/jspsych-move-view-and-categorize-multi-view-video.js:269-365 | the trial starts in `Initial`, with no response and nothing scheduled |
| MultiViewTrials.MultiViewTrial.Tick | docs/modules/jspsych-6.3.0/plugins/jspsych-move-view-and-categorize-multi-view-video.js:369-645 | before a response the tick is `EngineTick`; after one it sets the feedback timeout once, or ends the trial at once without feedback |
| MultiViewTrials.MultiViewTrial.Advance | docs/modules/jspsych-6.3.0/plugins/jspsych-move-view-and-categorize-multi-view-video.js:375-545 | the engine step computes `EngineTick` |
| MultiViewTrials.MultiViewTrial.Navigate | docs/modules/jspsych-6.3.0/plugins/jspsych-move-view-and-categorize-multi-view-video.js:382-404 | the navigation code computes `Step` and reports whether a movement was pending |
| MultiViewTrials.MultiViewTrial.MoveToPlayStep | docs/modules/jspsych-6.3.0/plugins/jspsych-move-view-and-categorize-multi-view-video.js:406-446 | the move-to-play branch computes `MoveToPlayTick` |
| MultiViewTrials.MultiViewTrial.PlayingStep | docs/modules/jspsych-6.3.0/plugins/jspsych-move-view-and-categorize-multi-view-video.js:449-490 | the playing branch computes `PlayingTick` |
| MultiViewTrials.MultiViewTrial.WrapSequence | docs/modules/jspsych-6.3.0/plugins/jspsych-move-view-and-categorize-multi-view-video.js:493-498 | the wrap branch computes `Wrapped` |
| MultiViewTrials.MultiViewTrial.EndSequence | docs/modules/jspsych-6.3.0/plugins/jspsych-move-view-and-categorize-multi-view-video.js:499-542 | the end branch computes `Ended` |
| MultiViewTrials.MultiViewTrial.OnMovementKey | docs/modules/jspsych-6.3.0/plugins/jspsych-move-view-and-categorize-multi-view-video.js:654-702 | the movement listener, for a key among its valid responses (`EnabledKeys`, MV:706), sets the pending movement to `KeyPress` and keeps the trial valid |
| MultiViewTrials.MultiViewTrial.OnClassification | docs/modules/jspsych-6.3.0/plugins/jspsych-move-view-and-categorize-multi-view-video.js:716-771 | a classification is refused, with no change, exactly when the phase does not allow it; otherwise the state becomes `Classified`, and `correct` and the trial data are fixed |
| MultiViewTrials.MultiViewTrial.StopAnimation | docs/modules/jspsych-6.3.0/plugins/jspsych-move-view-and-categorize-multi-view-video.js:722-741 | the stopping part of the handler computes `Classified` |
| MultiViewTrials.MultiViewTrial.EndTrial | docs/modules/jspsych-6.3.0/plugins/jspsych-move-view-and-categorize-multi-view-video.js:786-797 | the trial data is handed over exactly once (the path where a prompt is given or rendering is not on canvas) |
| MultiViewTrials.EndTrialAsWritten | docs/modules/jspsych-6.3.0/plugins/jspsych-move-view-and-categorize-multi-view-video.js:786-797 | `endTrial` as written reaches `finishTrial`, with the trial data, exactly when rendering is not on canvas or a prompt was given (`prompt_div` exists only then, lines 235-241) |
| MultiViewTrials.DefaultsNeverFinish | docs/modules/jspsych-6.3.0/plugins/jspsych-move-view-and-categorize-multi-view-video.js:193-202 | with the default parameters (no prompt, rendering on canvas) `endTrial` throws; with a prompt it finishes with the data |
| MultiViewTrials.MultiViewTrial.FeedbackTimeout | docs/modules/jspsych-6.3.0/plugins/jspsych-move-view-and-categorize-multi-view-video.js:634-639 | the feedback timeout ends the trial |
| Occlusion.Range | docs/modules/jspsych-6.3.0/plugins/jspsych-move-view-and-categorize-multi-view-video-with-obstacles.js:488 | `Range(a, b)` is a, a+1, …, b-1 |
| Occlusion.CoveredThetasWalk | docs/modules/jspsych-6.3.0/plugins/jspsych-move-view-and-categorize-multi-view-video-with-obstacles.js:487-499 | the covered thetas walk from the left margin to the right margin, wrapping past J-1 when left > right (or when they are equal and the right margin fraction is smaller) |
| Occlusion.CoveredThetasMembers | docs/modules/jspsych-6.3.0/plugins/jspsych-move-view-and-categorize-multi-view-video-with-obstacles.js:487-499 | a theta is covered iff it lies in [left, right], or in [left, J) ∪ [0, right] in the wrapping cases; nothing is covered when left = right and the margins are equal |
| Occlusion.CoveredPhis | docs/modules/jspsych-6.3.0/plugins/jspsych-move-view-and-categorize-multi-view-video-with-obstacles.js:565-566 | the covered phis are top..bottom ascending, empty when top > bottom |
| Occlusion.FindIndex | docs/modules/jspsych-6.3.0/plugins/jspsych-move-view-and-categorize-multi-view-video-with-obstacles.js:815-823 | `findIndex` gives the first position of x, or -1 exactly when x is absent |
| Occlusion.Offsets | docs/modules/jspsych-6.3.0/plugins/jspsych-move-view-and-categorize-multi-view-video-with-obstacles.js:555-560 | the offset list has max(E, 1) entries |
| Occlusion.OffsetsRecurrence | docs/modules/jspsych-6.3.0/plugins/jspsych-move-view-and-categorize-multi-view-video-with-obstacles.js:555-560 | sx[0] = 0, sx[1] = -start + step, sx[e] = sx[e-1] + step for e ≥ 2 |
| Occlusion.SourceOffsets | docs/modules/jspsych-6.3.0/plugins/jspsych-move-view-and-categorize-multi-view-video-with-obstacles.js:555-560 | the push loop followed by the overwrite of index 0 computes `Offsets` |
| Occlusion.MakeAxis | docs/modules/jspsych-6.3.0/plugins/jspsych-move-view-and-categorize-multi-view-video-with-obstacles.js:613-618 | an axis pairs its covered list with `Offsets` over it (sy follows sx) |
| Occlusion.OverlayDraws | docs/modules/jspsych-6.3.0/plugins/jspsych-move-view-and-categorize-multi-view-video-with-obstacles.js:815-908 | an overlay is drawn iff the trial has an obstacle, the frame is not the end stimulus, and j and i are both covered; a second slice is drawn exactly in the wrap-in-one-view case |
| Occlusion.OverlaySliceChoice | docs/modules/jspsych-6.3.0/plugins/jspsych-move-view-and-categorize-multi-view-video-with-obstacles.js:829-873 | the left edge is checked before the right edge, and top before bottom; the interior slice is used otherwise; the source offsets are taken at the covered positions of j and i |
| Occlusion.OverlaySecondSlice | docs/modules/jspsych-6.3.0/plugins/jspsych-move-view-and-categorize-multi-view-video-with-obstacles.js:900-908 | the second slice is the right-edge rectangle at the last sx offset, at the same phi |
| Occlusion.BuildGeometry | docs/modules/jspsych-6.3.0/plugins/jspsych-move-view-and-categorize-multi-view-video-with-obstacles.js:463-620 | the geometry built from the margins has well-formed axes |
| Occlusion.SetUp | docs/modules/jspsych-6.3.0/plugins/jspsych-move-view-and-categorize-multi-view-video-with-obstacles.js:456-463 | the geometry exists exactly for trials with an obstacle |
| Occlusion.AsWrittenObstacleTrialFails | docs/modules/jspsych-6.3.0/plugins/jspsych-move-view-and-categorize-multi-view-video-with-obstacles.js:463 | under the guard as written, every frame of an obstacle trial reads geometry that was never built |
| Occlusion.SetUpRendersEveryFrame | docs/modules/jspsych-6.3.0/plugins/jspsych-move-view-and-categorize-multi-view-video-with-obstacles.js:456-463 | under the intended guard every frame renders, with an overlay exactly on covered views |
| FramePath.Decimal | docs/modules/jspsych-6.3.0/plugins/jspsych-categorize-animation-cc-proactive.js:443-445 | `String(n)` is a digit string whose value is n |
| FramePath.Pad | docs/modules/jspsych-6.3.0/plugins/jspsych-categorize-animation-cc-proactive.js:443-445 | a padded component has exactly its width and is all digits |
| FramePath.PadValue | docs/modules/jspsych-6.3.0/plugins/jspsych-categorize-animation-cc-proactive.js:443-445 | a padded component denotes n mod 10^w: the last w digits |
| FramePath.PadSmall | docs/modules/jspsych-6.3.0/plugins/jspsych-categorize-animation-cc-proactive.js:443-445 | below 10^w the component is the decimal form with leading zeros |
| FramePath.PadInjective | docs/modules/jspsych-6.3.0/plugins/jspsych-categorize-animation-cc-proactive.js:443-445 | below 10^w distinct numbers get distinct components |
| FramePath.FramePath | docs/modules/jspsych-6.3.0/plugins/jspsych-categorize-animation-cc-proactive.js:174-176 | a frame path is the stimulus directory plus 30 fixed characters |
| FramePath.FramePathInjective | docs/modules/jspsych-6.3.0/plugins/jspsych-categorize-animation-cc-proactive.js:441-446 | within the widths (j, i < 100, t < 10000), distinct views and frames have distinct paths |
| FramePath.DisplayedImage | docs/modules/jspsych-6.3.0/plugins/jspsych-categorize-animation-cc-proactive.js:441-451 | frame 'None' shows the end stimulus; any other frame shows a path under the stimulus directory |
| CategorizeAnimation.AdvanceReachable | docs/modules/jsPsych-master/plugins/jspsych-categorize-animation-cc.js:116-124 | a tick keeps the counter reachable; while the animation plays the frame is an index of the list; once stopped only the frame moves |
| CategorizeAnimation.TicksReachable | docs/modules/jsPsych-master/plugins/jspsych-categorize-animation-cc.js:116-136 | after any number of ticks the counter is reachable, and every stimulus shown is an index of the list |
| CategorizeAnimation.WithinPass | docs/modules/jsPsych-master/plugins/jspsych-categorize-animation-cc.js:116-124 | tick q·n + r + 1 shows frame r of repetition q, for every repetition allowed (all of them when `sequence_reps` = -1) |
| CategorizeAnimation.StopTick | docs/modules/jsPsych-master/plugins/jspsych-categorize-animation-cc.js:116-124 | with a finite count the animation stops on the tick after the last frame of pass max(`sequence_reps`, 1), with the frame counter at the stimulus count |
| CategorizeAnimation.AfterLastPass | docs/modules/jsPsych-master/plugins/jspsych-categorize-animation-cc.js:116-124 | after the stopping tick only the frame counter moves; the repetition count and the stopped state stay |
| CategorizeAnimation.CategorizeAnimationTrial.constructor | docs/modules/jsPsych-master/plugins/jspsych-categorize-animation-cc.js:103-111 | the trial starts at frame -1, repetition 0, with the animation on and no response |
| CategorizeAnimation.CategorizeAnimationTrial.Tick | docs/modules/jsPsych-master/plugins/jspsych-categorize-animation-cc.js:114-176 | the counter takes the `Advance` step; before a response the stimulus, last stimulus or end image is shown; after one, feedback is shown with its timeout set once, or the trial ends without feedback |
| CategorizeAnimation.CategorizeAnimationTrial.OnResponse | docs/modules/jsPsych-master/plugins/jspsych-categorize-animation-cc.js:182-204 | a response is accepted exactly when early responses are allowed or the animation has stopped; an accepted one fixes `correct` as 0/1 and the trial data {rt, correct, key} |
| CategorizeAnimation.CategorizeAnimationTrial.EndTrial | docs/modules/jsPsych-master/plugins/jspsych-categorize-animation-cc.js:214-220 | the trial data is handed over exactly once |
| CategorizeAnimation.CategorizeAnimationTrial.FeedbackTimeout | docs/modules/jsPsych-master/plugins/jspsych-categorize-animation-cc.js:165-170 | the feedback timeout ends the trial |
| Animation.StepReachable | modules/jsPsych-master/plugins/jspsych-animation-cc.js:105-122 | a tick keeps the player reachable, and the frame it shows is an index of the list |
| Animation.TicksReachable | modules/jsPsych-master/plugins/jspsych-animation-cc.js:101-126 | after any number of ticks the player is reachable |
| Animation.WithinPass | modules/jsPsych-master/plugins/jspsych-animation-cc.js:105-110 | tick q·n + r + 1 shows frame r of pass q, for every pass before the last |
| Animation.StopTick | modules/jsPsych-master/plugins/jspsych-animation-cc.js:105-121 | playback stops after max(`sequence_reps`, 1) passes, so -1 plays once; the last frame stays or the end image is shown, and the interval is cleared |
| Animation.LastTick | modules/jsPsych-master/plugins/jspsych-animation-cc.js:105-121 | once the interval is cleared, later ticks leave the player where it stopped |
| Animation.ResponseAsWritten | modules/jsPsych-master/plugins/jspsych-animation-cc.js:175-192 | the handler as written ends the trial exactly when an animation frame element is on the screen |
| Animation.EndImageResponseLost | modules/jsPsych-master/plugins/jspsych-animation-cc.js:189 | a response at the end image, or before the first frame, throws instead of ending the trial |
| Animation.AnimationTrial.constructor | modules/jsPsych-master/plugins/jspsych-animation-cc.js:90-99 | the tick period is `frame_time + frame_isi`; the player starts at frame -1 with nothing shown |
| Animation.AnimationTrial.Tick | modules/jsPsych-master/plugins/jspsych-animation-cc.js:101-153 | the player takes the `Step` step and the display shows its frame or the end image |
| Animation.AnimationTrial.HideFrame | modules/jsPsych-master/plugins/jspsych-animation-cc.js:162-172 | the frame gap hides an animation frame and nothing else |
| Animation.AnimationTrial.OnResponse | modules/jsPsych-master/plugins/jspsych-animation-cc.js:175-224 | the first response ends the trial, handing over exactly {key_press, rt} once |

## Left out

- Drawing is not modelled: DOM and canvas work, `innerHTML`, feedback text and images, prompts, opacity and blur.
  - The overlay rectangle sizes and the step values are taken as given integers. They come from floating-point pixel arithmetic on margin fractions and image sizes (OB:503-553, 569-611).
  - `Math.floor` on the offset progression is taken as exact on those integers.
  - The overlay is drawn only on the canvas path. The model does not separate the canvas and non-canvas paths.
- Timers and clocks are events, not code. `setInterval` and `setTimeout` firings are method calls. `performance.now()` values and reaction times are integers passed in.
- Calls into the jsPsych framework are not modelled: `getKeyboardResponse`, `cancelKeyboardResponse`, key-code conversion, preloading and `finishTrial`.
  - A listener being live is a boolean. For movement, `movable` plays that role.
  - `finishTrial` is recorded as the list of data handed over.
  - A key is assumed to reach a handler only if it is among that listener's valid responses.
- `Math.random` is not modelled. The random movement draw is a parameter of `OnMovementKey` and `KeyPress`, which accept any direction pair other than (0, 0). This is a superset of what the code can draw; see Findings. `DrawRandomMovement` models the redraw loop over a given sequence of samples.
- Odd J is out of scope. `j += J/2` then gives a non-integer theta, so `ViewGrid.ValidShape` requires J even.
- `MultiViewTrials.MultiViewTrial.EndTrial`, `Tick` and `FeedbackTimeout` model the path where a prompt is given or rendering is not on canvas. `prompt_div` is created only when `trial.prompt !== null` (MV:235-241), and the defaults are no prompt (MV:195) and rendering on canvas (MV:201). With those defaults `prompt_div.remove()` (MV:789) throws, so the listener cancellation, `clearInterval` and `finishTrial` (MV:791-796) never run, and every later tick throws again. The select-view and obstacle plugins have the same code (SV:693, OB:1133). `MultiViewTrials.EndTrialAsWritten` states the condition; see Findings.
- `Range` is not part of this model. It is taken as the ascending half-open range [a, b).
- Only categorize-animation-cc's feedback state is modelled, not its content. The choice between feedback text and feedback image is rendering: the screen records only whether the answer was correct.
- `Animation.AnimationTrial.HideFrame` does nothing at the end image. The code's lookup of the animation image fails there (animation-cc.js:164).
- `MultiViewTrials.MultiViewTrial.EndSequence` skips one assignment: the code increments `reps` and then overwrites it with 'None' (MV:494, 513). The test that decides the end uses `reps + 1` (in `Advance`), so the skipped increment has no effect.
- The four multi-view plugins differ in ways the model does not cover:
  - the select-view and proactive parameters;
  - how J, I and T are obtained (read from the directory array, or from `n_views` and `T` at PR:148-150);
  - rendering.

  Their tick engine, handlers and log are the same code, which is modelled once.
- The last tick of a sequence pushes a row and then overwrites its frame with the pre-tick frame (MV:503, 511), so three ticks log the frames "0 1 2 2" (`TrialEngine.ThreeTickScenario`).

## Findings

| source | as written | input that shows it | evidently intended | confidence | as-written member | corrected member |
|---|---|---|---|---|---|---|
| docs/modules/jspsych-6.3.0/plugins/jspsych-select-view-and-categorize-multi-view-video.js:686-688 | `RndInt(-1, 1)` is `floor(r·2) - 1`, which is -1 or 0 | any sample r in [0, 1): r = 0.99 gives 0, r = 0 gives -1; a random movement never goes right or down | a direction drawn from {-1, 0, 1} on each axis | medium, not executed | MovementInput.AsWrittenDrawNeverRightOrDown | MovementInput.RndIntInclusiveCovers |
| docs/modules/jspsych-6.3.0/plugins/jspsych-move-view-and-categorize-multi-view-video-with-obstacles.js:463 | the geometry block runs only when `trial.obstacle == null` | any trial with an obstacle and all four margins set: the covered lists are never built, and the first frame reads them | build the geometry exactly when the trial has an obstacle (`trial_with_obstacle`, lines 286 and 456) | high, not executed | Occlusion.AsWrittenObstacleTrialFails | Occlusion.SetUpRendersEveryFrame |
| modules/jsPsych-master/plugins/jspsych-animation-cc.js:189 | the response handler marks `#jspsych-animation-image` before calling `endTrial` | a key press while the end image is shown (its id is `jspsych-end-image`), or before the first frame: the lookup returns null and the handler throws before `endTrial` | the first response ends the trial with its key and RT | medium, not executed | Animation.EndImageResponseLost | Animation.AnimationTrial.OnResponse |
| docs/modules/jspsych-6.3.0/plugins/jspsych-move-view-and-categorize-multi-view-video.js:789 | `endTrial` calls `prompt_div.remove()` whenever rendering is on canvas, but `prompt_div` is created only when a prompt is given | the default parameters (prompt null, render_on_canvas true): the call throws, `finishTrial` is never reached and the interval keeps firing | remove the prompt only when it was created, then clean up and finish | high, not executed | MultiViewTrials.DefaultsNeverFinish | MultiViewTrials.MultiViewTrial.EndTrial |
