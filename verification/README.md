# Desktop pet animation state machine, in Dafny

This project models the core of a desktop pet. A Totoro sprite lives on the
screen. It plays animation clips, walks, runs and falls, and reacts to the
mouse. The modelled parts are:

- **Clips** (`Animation`): frames with per-frame durations, a constant
  velocity and acceleration, a repeat threshold, and a list of successor
  states. Duplicates in that list weight the random choice. The constructor's
  rules for filling, reversing and multiplying frames and durations are
  modelled. So are the repeat gate `next`, the cyclic duration lookup and the
  alpha quantisation of PNG pixels.
- **The animator**: a mutable record of state, frame number, repeat counter
  and time accumulator. It has a time-accumulating catch-up loop (`update`)
  and a state override with reset (`set_animation_state`).
- **The pet**: one tick moves the pet and then advances its animation.
  Moving means integrating the velocity, wrapping horizontally, clamping to
  the floor and landing a falling pet. Mouse handlers grab, release and drag
  it.
- **The Totoro clip library**: thirty clips keyed by state, with the weighted
  "standing" successor list.

Files:

- `animation_states.dfy` holds the state identifiers. These are the members
  of the enumeration, plus the twelve names the library uses that the
  enumeration does not declare (WALK_RIGHT … DRUM_2).
- `animation.dfy` holds the clip datatype and its constructor `NewClip`.
- `animator.dfy` holds the `Animator` class. Its catch-up loop is specified
  by the function `CatchUp`.
- `pets.dfy` holds the `InteractablePet` class, including the methods it
  inherits from the simple pet. Each method is specified by a function on a
  `PetView` value.
- `load_animations.dfy` holds the library as a constant map and its build.
- `sequences.dfy` holds list helpers and small arithmetic lemmas.
- `wrappers.dfy` holds `Option` and `Result`.

How the inputs are modelled:

- **Randomness.** `random.choice` over a successor list is a parameter
  `draw`, which picks index `draw % |list|`. The catch-up loop takes one
  draw per iteration (`draw(k)`). `stop_move`'s random key is a parameter
  `pick`. Each `random.randint` threshold is `roll(s)`.
- **Time** is in integer milliseconds: `update` receives `delta_time * 1000`
  already converted.
- **Positions, velocities and accelerations** are integers. Every library
  velocity is an integer and every acceleration is 0, so Python's `int()`
  truncation in `do_movement` is the identity there.
- **Exceptions** are values:
  - the constructor returns `Err(NoFrameSource)` or `Err(NoFrames)`;
  - `random.choice` on an empty list is `None` from `NextState`, and a run
    with `raised` set in `CatchUp`;
  - "stuck falling" in `do_movement` is `StuckFalling`.

### The model follows the code

- The catch-up loop reads the step duration once, before the loop. After
  a wrap it keeps using the clip it started with (`src/animation/animator.py:16-30`).
  This is at odds with the per-frame `frame_durations`, which are kept "to
  preserve GIF timing" (`src/animation/animation.py:23`). With durations
  100, 200 and 50 ms and 375 ms elapsed, the code ends on frame 0 with 75 ms
  carried (`ThreeFrameCatchUp`). A loop that gives each frame its own
  duration would end on frame 0 with 25 ms. This is where the code departs
  from its own documentation. No file of the pet calls `Animator.update`:
  the pet advances one frame per tick through `progress_animation`
  (`src/pets/simple_pet.py:54-65`), and `handle_event` schedules each tick
  after the current frame's own duration (`src/pets/simple_pet.py:80-83`).
  The two rows under "## Findings" therefore do not affect the running pet.
- A FALLING pet without a LANDED clip is detected only when it reaches the
  floor, inside `do_movement`. Nothing checks for it when the library is
  built.

### Deviations and notes

- The library passes `list_message` to the clip constructor, which has no
  such parameter. It also names twelve states the enumeration lacks. As
  written, building the library would therefore fail in Python. The model
  takes the evident intent: the messages are ignored, and the state type is
  the union of both lists.
- `InteractablePet.on_tick` calls `get_curent_animation_frame`, which does
  not exist (the method is `get_current_animation_frame`). This is UI
  plumbing and is not part of the model.

## Model

| member | source | states |
|---|---|---|
| Animation.NewClip | src/animation/animation.py:66-110 | Fails with NoFrameSource exactly when neither frames nor a GIF is given. Fails with NoFrames exactly when the source has no frames. Otherwise frames and durations have equal, positive length: source length times the multiplier, which applies only without a GIF. Successors, threshold and resolution are passed through. |
| Animation.NewClipLayout | src/animation/animation.py:101-110 | Position i holds source frame j with source duration j, where j is block i / k, read backwards when reversed: a frame stays paired with its duration. |
| Animation.DirectFramesDefaultDuration | src/animation/animation.py:92-93 | Frames passed directly all last 100 ms, with one duration per frame, and the counts match the given list when not multiplied. |
| Animation.NewClipReverse | src/animation/animation.py:101-103 | With `reverse`, frames and durations are exactly the reversal of those built without it. |
| Animation.Stretch | src/animation/animation.py:106-108 | Repeating each element k times multiplies the length by k. |
| Animation.StretchReverse | src/animation/animation.py:101-110 | Reversing, then repeating each element k times, equals repeating and then reversing. |
| Animation.ConstructedMotion | src/animation/animation.py:203-209 | `Velocity` and `Acceleration` (`get_velocity`, `get_acceleration`) return the constructor's values unchanged. A clip built without the motion arguments has velocity and acceleration (0, 0). |
| Animation.FrameDuration | src/animation/animation.py:211-213 | The duration looked up for any index is one of the clip's durations, and exactly the indexed one for an in-range index. |
| Animation.FrameDurationPeriodic | src/animation/animation.py:211-213 | The lookup is periodic: shifting the index by any multiple of the duration count gives the same duration. |
| Animation.NextState | src/animation/animation.py:194-201 | Below the threshold: stay, with the counter raised by exactly one. Otherwise the counter is 0, and the result is a listed successor, or an error exactly when the list is empty. |
| Animation.AnySuccessorCanBeDrawn | src/animation/animation.py:201 | Once the gate opens, every listed successor is the outcome of some draw. |
| Animation.Quantise | src/animation/animation.py:186-189 | Alpha 255 is unchanged, alpha up to 127 becomes 0 and alpha from 128 becomes 255; RGB is kept. |
| Animation.QuantiseAll | src/animation/animation.py:186-189 | Same length; every output alpha is 0 or 255; every RGB is kept. |
| Animation.QuantiseIdempotent | src/animation/animation.py:186-189 | Quantising twice equals quantising once. |
| Sequences.Repeat | src/animation/animation.py:106-107 | `repeat(x, k)` yields k elements, each x. |
| Sequences.RepeatCount | src/animation/load_animations.py:42-53 | k copies of x contain x exactly k times and nothing else; the standing weights are derived from it. |
| Sequences.Reverse | src/animation/animation.py:101-103 | `list.reverse()` leaves element i at position n-1-i. |
| Animators.Switch | src/animation/animator.py:32-39 | The same state changes nothing and returns false. A different state returns true and sets that state, with frame, counter and accumulator 0. |
| Animators.SwitchIdempotent | src/animation/animator.py:32-39 | Switching again to the state just set is a no-op returning false. |
| Animators.CatchUp | src/animation/animator.py:14-30 | Without enough time, nothing moves. Otherwise the loop ends with 0 <= accumulator < d and accumulator = start mod d, which is never reset by a state change. The frame is (start frame + start / d) mod the entry clip's frame count. The state is the entry state or one of the entry clip's successors. It raises only when that list is empty. |
| Animators.Next | src/animation/animation.py:194-201 | `next(animator)` updates the animator's counter and answers exactly as `NextState` says. |
| Animators.Animator.constructor | src/animation/animator.py:7-12 | Fields as given; the accumulator starts at 0. |
| Animators.Animator.Update | src/animation/animator.py:14-30 | The loop's end state is `CatchUp` of the entry clip and entry frame duration, starting from accumulator + delta. It completes exactly when no `next` raised. |
| Animators.Animator.SetAnimationState | src/animation/animator.py:32-39 | The new fields and the result are those of `Switch`. |
| Animators.CatchUpIntended | src/animation/animator.py:14-30 | Corrected loop: the frame stays inside the current clip, the state stays a library key, and the carry is below the current frame's own duration. |
| Animators.IntendedAgreesOnUniformClip | src/animation/animator.py:16-30 | On a self-looping clip whose frames all last equally long, the code's loop and the corrected loop end in the same place. |
| Animators.StaleClipOverrunsNewClip | src/animation/animator.py:28-30 | A concrete run where the code leaves the frame number past the end of the new clip, while the corrected loop does not. |
| Animators.StaleDurationShortensFrames | src/animation/animator.py:20-25 | A concrete run where the code cuts frame 1's 300 ms short, while the corrected loop stops on frame 1. |
| Animators.ThreeFrameCatchUp | src/animation/animator.py:17-30 | Durations 100, 200 and 50 ms with 375 ms elapsed end, as coded, on frame 0 with 75 ms carried. |
| Pets.Reset | src/pets/interactable_pet.py:24-28 | Velocity and acceleration are overwritten with the clip's; the position is kept. |
| Pets.SetState | src/pets/simple_pet.py:40-52 | The animator switches as `Switch` says. The motion is reloaded from the new clip only when the state actually changed. |
| Pets.Progress | src/pets/simple_pet.py:54-65 | The frame stays inside the current clip. The state is kept or becomes a successor. The motion changes only with the state, and then to the new clip's values, with playback restarted. |
| Pets.Progresses | src/pets/simple_pet.py:54-65 | Any number of steps keeps the frame inside the current clip. |
| Pets.ProgressesWithinClip | src/pets/simple_pet.py:59-61 | Before the last frame, j steps move the frame exactly j ahead and change nothing else. |
| Pets.ProgressRepeats | src/pets/simple_pet.py:62-65 | On the last frame below the threshold: frame 0, the same state, the counter one higher, and no reset of the motion. |
| Pets.ProgressHandsOver | src/pets/simple_pet.py:62-65 | On the last frame at the threshold: the drawn successor, frame 0, counter 0. The motion is reloaded if the state changed. |
| Pets.WrapX | src/pets/interactable_pet.py:43-50 | Left of 0 goes to W - w, right of W - w goes to 0, otherwise unchanged; hence 0 <= x <= W - w whenever W >= w. |
| Pets.Movement | src/pets/interactable_pet.py:30-64 | Velocity gains the acceleration first. x becomes `WrapX` of x + new v_x: the far edge when it would leave on the left, 0 when it would leave on the right, and x + v_x otherwise, so it ends on screen. y becomes the floor when y + v_y passes it, and y + v_y otherwise. Playback changes only when a FALLING pet reaches the floor with a LANDED clip, and then to LANDED with a full reset. The step is stuck exactly when that clip is missing. |
| Pets.MovementInsideScreen | src/pets/interactable_pet.py:33-36 | A pet whose next position stays on screen moves by exactly velocity plus acceleration. |
| Pets.FallingLands | src/pets/interactable_pet.py:30-59 | When the library has LANDED, a FALLING pet that would pass the floor is put on it at its wrapped x. It then switches to LANDED, taking that clip's velocity and acceleration. |
| Pets.Tick | src/pets/interactable_pet.py:79-82 | Movement, then animation: the frame stays inside the current clip, and the tick is stuck exactly when the movement is. |
| Pets.TickNeverStuckWithLanded | src/pets/interactable_pet.py:56-64 | With a LANDED clip in the library, a tick never raises. |
| Pets.TruncHalf | src/pets/interactable_pet.py:118-119 | `int(n / 2)` truncates toward zero: 2r is n or n - 1 for n >= 0, and n or n + 1 for n < 0. |
| Pets.TruncHalfOdd | src/pets/interactable_pet.py:118-119 | Halving with truncation is symmetric about zero. |
| Pets.Drag | src/pets/interactable_pet.py:111-119 | The pointer sits at the centre of the frame, to within half a pixel. Nothing but the position changes. |
| Pets.Grab | src/pets/interactable_pet.py:97-102 | GRABBED is set when the library has it; otherwise nothing changes. |
| Pets.GrabIdempotent | src/pets/interactable_pet.py:97-102 | Grabbing twice is grabbing once. |
| Pets.Release | src/pets/interactable_pet.py:104-109 | The state becomes the drawn key, and playback stays consistent. |
| Pets.InteractablePet.constructor | src/pets/simple_pet.py:13-17 | Position as given, velocity and acceleration 0, and the animator as given. The pet is `Valid` whenever the animator's library is closed and its playback consistent. |
| Pets.InteractablePet.CurrentAnimation | src/pets/simple_pet.py:23-29 | The clip of the animator's state, which must be a key. |
| Pets.InteractablePet.CurrentFrame | src/pets/simple_pet.py:31-38 | For a state that is a key and an in-range frame number, the frame shown is one of the current clip's frames. |
| Pets.InteractablePet.ResetMovement | src/pets/interactable_pet.py:24-28 | The fields become `Reset` of the current clip. |
| Pets.InteractablePet.SetAnimationState | src/pets/simple_pet.py:40-52 | The fields follow `SetState`, and the result says whether the state changed. A `Valid` pet stays `Valid`. |
| Pets.InteractablePet.ProgressAnimation | src/pets/simple_pet.py:54-65 | The fields follow `Progress`, and validity is preserved. |
| Pets.InteractablePet.DoMovement | src/pets/interactable_pet.py:30-64 | The fields follow `Movement`, and the result says whether it got stuck. A `Valid` pet stays `Valid`. |
| Pets.InteractablePet.Update | src/pets/interactable_pet.py:79-82 | The fields follow `Tick`, and validity is preserved. |
| Pets.InteractablePet.StartMove | src/pets/interactable_pet.py:97-102 | The fields follow `Grab`. A `Valid` pet stays `Valid`. |
| Pets.InteractablePet.StopMove | src/pets/interactable_pet.py:104-109 | The fields follow `Release`. A `Valid` pet stays `Valid`. |
| Pets.InteractablePet.DoMove | src/pets/interactable_pet.py:111-119 | The fields follow `Drag`. A `Valid` pet stays `Valid`. |
| LoadAnimations.StandingActions | src/animation/load_animations.py:41-53 | The standing list has 34 entries. |
| LoadAnimations.StandingWeights | src/animation/load_animations.py:41-53 | IDLE_TO_SLEEP appears once; IDLE, DRUM and GUITAR twice; the other nine states three times; nothing else appears. |
| LoadAnimations.StandingMembers | src/animation/load_animations.py:41-53 | Exactly those thirteen states appear. |
| LoadAnimations.BuildLibrary | src/animation/load_animations.py:55-316 | Fails, with the no-frames error, exactly when some GIF decodes to nothing. Otherwise the keys are the thirty entries. Each clip has its entry's successors and `v_x`, vertical speed and both accelerations 0, its drawn or default threshold, the target resolution, at least one frame, and as many durations as frames. |
| LoadAnimations.BuiltClipFrames | src/animation/load_animations.py:55-62 | Each clip shows its GIF's frames in order, each for the GIF's own duration. |
| LoadAnimations.TotoroEntry | src/animation/load_animations.py:55-316 | One entry of the dictionary literal (`TotoroDefs` collects them). Only LOVE, IDLE_TO_GRABBED and GRAB_TO_FALL have none. Every name the enumeration does not declare (`Declared`) has one. |
| LoadAnimations.TotoroKeys | src/animation/load_animations.py:55-316 | FALLING, LANDED and GRABBED are keys. The only states without a clip are LOVE, IDLE_TO_GRABBED and GRAB_TO_FALL. |
| LoadAnimations.TotoroClosed | src/animation/load_animations.py:55-316 | Every state named as a successor is a key. |
| LoadAnimations.EntryClosed | src/animation/load_animations.py:55-316 | Every successor of one entry has an entry. |
| LoadAnimations.EntryHasSuccessors | src/animation/load_animations.py:55-316 | Every successor list is non-empty, so `next` never draws from an empty list. |
| LoadAnimations.BuiltLibraryClosed | src/animation/load_animations.py:55-316 | A built library is closed: every clip is playable, and leads only to clips in the library. |
| LoadAnimations.BuiltThresholds | src/animation/load_animations.py:55-316 | With draws inside their `randint` bounds, every threshold lies in its inclusive range, and default clips get 0. |
| LoadAnimations.TotoroRepeatRanges | src/animation/load_animations.py:63-188 | Exactly IDLE_TO_SLEEP, SLEEP_TO_IDLE and the two *_MANY clips keep the default threshold. |
| LoadAnimations.EntryDefaultThreshold | src/animation/load_animations.py:63-188 | One entry keeps the default threshold exactly when it is one of those four. |
| LoadAnimations.TotoroSomeRanges | src/animation/load_animations.py:55-316 | IDLE [3, 6], SLEEP [4, 7], LANDED and DRUM [3, 5], WALK_RIGHT [3, 7], SWIM_RIGHT [2, 4]. |
| LoadAnimations.TotoroTransitions | src/animation/load_animations.py:55-316 | IDLE_TO_SLEEP lists only SLEEP; SLEEP lists SLEEP and SLEEP_TO_IDLE; LANDED lists LANDED and WALK_POSITIVE; DRUM lists GUITAR; QUAY lists AE_QUAY. IDLE and FALLING draw from the standing actions. |
| LoadAnimations.TotoroMirrored | src/animation/load_animations.py:87-226 | Except for LANDED, the mirror of every entry is an entry with negated `v_x`, the same threshold range and mirrored successors. Right-hand clips move right, and non-directional clips have `v_x` 0. |
| LoadAnimations.EntryMirrored | src/animation/load_animations.py:87-226 | For any entry other than LANDED, the mirror state has an entry with negated `v_x`, the same range and mirrored successors. A sideways entry has positive `v_x` exactly when it faces right. An entry that is its own mirror has `v_x` 0. |
| LoadAnimations.RightEntryMirrored | src/animation/load_animations.py:87-156 | Every rightward entry has positive `v_x`. Its leftward counterpart has the opposite speed, the same range and mirrored successors. |
| LoadAnimations.LeftEntryMirrored | src/animation/load_animations.py:158-226 | Every leftward entry has negative `v_x`. Its rightward counterpart has the opposite speed, the same range and mirrored successors. |
| LoadAnimations.StandingEntryMirrored | src/animation/load_animations.py:55-316 | A non-directional entry has `v_x` 0. For every such entry other than LANDED, the successors are their own mirror; LANDED's [LANDED, WALK_POSITIVE] is not. |
| LoadAnimations.StandingSymmetric | src/animation/load_animations.py:41-53 | No standing state has a direction. |
| LoadAnimations.LeftWalkOnlyByRelease | src/animation/load_animations.py:306-316 | LANDED walks off only to the right, and no clip hands over to WALK_NEGATIVE. |
| LoadAnimations.TotoroNeverStuck | src/animation/load_animations.py:306-316 | `do_movement` never raises for a pet driven by the built library. |

## Left out

- GIF and PNG decoding, file writes, logging, and path building with
  pathlib/os are left out. Decoding is the parameter `decode` of
  `BuildLibrary`; the alpha rule is modelled on pixel values only.
- `apply_target_resolution` is left out: tk zoom and subsample of images
  driven by float ratios. Frames are opaque handles.
- `fade_out`, `fade_in`, `set_geometry`, `handle_event` and `on_tick` are
  left out: window alpha, geometry strings, scheduling and drawing. The
  fades call `window.update()` inside `do_movement`'s wrap branch, which
  runs pending Tk events, so `do_move`, `start_move` or `stop_move` can
  change the position or the state in the middle of that step. `Movement`
  and `DoMovement` treat the step as atomic.
- The probabilities of `random.choice` and `random.randint` are not modelled.
  A choice is a draw index and a threshold is a drawn value.
  `AnySuccessorCanBeDrawn` and `StandingWeights` state what the draws can
  reach and the list weights.
- Floats are not modelled. The conversion `delta_time * 1000` happens before
  `Animator.Update`. Python's `int()` on float positions is the identity for
  the integer velocities used here. `TruncHalf` uses integer truncation,
  with no rounding of very large values through floats.
- The class-wide flag `should_run_preprocessing` and the `name` attribute of
  a clip are left out; nothing modelled reads them.
- Tooltip messages (`list_message`) are left out; the constructor has no
  such parameter, and nothing modelled reads them.
- Animation.NewClip builds new sequences. It does not model that
  `reverse` and `apply_target_resolution` also rewrite, in place, a frames
  list the caller passed in.
- `images_location` alone is modelled only as a failed construction, because
  its loading branch is commented out in the source.
- Animators.Animator.Update requires a positive entry frame duration. The
  source loops forever when that duration is 0 or negative and the
  accumulator reaches it.
- Pets.InteractablePet.SetAnimationState requires the target state to be a
  key. In the source a missing key raises a KeyError when the movement is
  reset.
- Pets.InteractablePet.StopMove requires its pick to be a key. The source
  always picks a key, so this excludes only an empty library, where
  `random.choice` raises an IndexError (`src/pets/interactable_pet.py:107`).
- Animators.Animator.Update, Pets.InteractablePet.CurrentAnimation,
  Pets.InteractablePet.ResetMovement, Pets.InteractablePet.DoMovement and
  Pets.InteractablePet.DoMove require the animator's current state to be a
  key. In the source the dictionary lookup raises a KeyError there
  (`src/animation/animator.py:16`, `src/pets/simple_pet.py:29`,
  `src/pets/interactable_pet.py:39` and `:114`). Pets.InteractablePet.CurrentFrame
  also requires an in-range frame number, where the source raises an
  IndexError (`src/pets/simple_pet.py:38`).
- Pets.InteractablePet.ProgressAnimation and Pets.InteractablePet.Update
  require `Valid`: a closed library and an in-range frame number. On a clip
  without successors the source's `random.choice` raises; that path is
  modelled in `NextState` and `CatchUp` only. `progress_animation` does not
  need an in-range frame: any frame number at or past the last takes the
  wrap branch (`src/pets/simple_pet.py:59-65`), which is how the source
  would recover from the overrun in the first row of "## Findings". The
  model does not cover a pet that starts a step on a frame past its clip.
- The simple pet's own `reset_movement` does nothing. Only the
  interactable pet, which overrides it, is modelled.
- Dragging by the mouse (`Drag`) is modelled on positions only. The window
  move that follows is UI.

## Findings

Both rows concern `Animator.update`, which no file of the pet calls; they
do not affect the running pet.

| source | as written | input that shows it | evidently intended | confidence | as-written member | corrected member |
|---|---|---|---|---|---|---|
| src/animation/animator.py:28-30 | After a wrap the loop goes on counting frames against the clip it started with, while the state has moved to another clip | IDLE has 2 frames of 100 ms, threshold 0 and the single successor SLEEP, which has 1 frame. From IDLE frame 1 with 200 ms the run ends in SLEEP on frame 1, which SLEEP does not have | The frame number stays inside the current clip | not executed | Animators.StaleClipOverrunsNewClip | Animators.CatchUpIntended |
| src/animation/animator.py:20-25 | Every frame passed over in one update lasts the entry frame's duration | Durations 100 and 300 ms, frame 0, 250 ms: the run ends back on frame 0 with 50 ms carried | Each frame lasts its own duration: frame 1 with 150 ms carried | not executed | Animators.StaleDurationShortensFrames | Animators.CatchUpIntended |

The `Animator` class keeps the loop as coded. `CatchUpIntended` is the
corrected loop. It is proved to keep the frame inside the current clip and
the carry below the current frame's duration. It agrees with the coded loop
on a clip whose successors are all the clip itself and whose durations are
all equal (`IntendedAgreesOnUniformClip`); that is the only agreement
proved.
