/**
 * The playback state machine of one pet (`src/animation/animator.py`): the
 * current state, the frame number, the repeat counter and the time carried
 * between ticks, advanced by a time-accumulating catch-up loop.
 */
module Animators {
  import opened Wrappers
  import opened AnimationStates
  import opened Animation
  import opened Sequences

  /** The four fields of an animator, as one value. */
  datatype Playback = Playback(state: State, frame: int, repetitions: int, accumulator: int)

  /**
   * `set_animation_state` on a playback value: a different state restarts
   * playback from scratch, the same state changes nothing. The flag says whether
   * the state changed.
   */
  function Switch(p: Playback, s: State): (r: (Playback, bool))
    ensures r.0.state == s
    ensures r.1 <==> s != p.state
    ensures !r.1 ==> r.0 == p
    ensures r.1 ==> r.0.frame == 0 && r.0.repetitions == 0 && r.0.accumulator == 0
  {
    if s == p.state then (p, false) else (Playback(s, 0, 0, 0), true)
  }

  /** Switching to the state just switched to is a no-op. */
  lemma SwitchIdempotent(p: Playback, s: State)
    ensures Switch(Switch(p, s).0, s) == (Switch(p, s).0, false)
  {
  }

  /** Where the catch-up loop ends: the final fields, and whether `next` raised on the way. */
  datatype Run = Run(playback: Playback, raised: bool)

  /**
   * The `while` loop of `update`, as written: the clip `c` and the step
   * duration `d` are those of the entry state and entry frame and are never
   * fetched again, even after `next` has moved to another state. Iteration k
   * draws `draw(k)` if it needs a successor.
   */
  function CatchUp(c: Clip, d: int, p: Playback, draw: nat -> nat, k: nat): (r: Run)
    requires d > 0
    decreases p.accumulator
    ensures p.accumulator < d ==> r == Run(p, false)
    ensures |c.successors| > 0 ==> !r.raised
    ensures !r.raised ==> r.playback.accumulator < d
    ensures r.playback.state == p.state || r.playback.state in c.successors
    ensures p.accumulator >= 0 && !r.raised ==>
              0 <= r.playback.accumulator && r.playback.accumulator == p.accumulator % d
    ensures 0 <= p.frame < |c.frames| && p.accumulator >= 0 && !r.raised ==>
              r.playback.frame == (p.frame + p.accumulator / d) % |c.frames|
  {
    if p.accumulator < d then
      Settled(p.frame, |c.frames|, p.accumulator, d);
      Run(p, false)
    else
      var frame, accumulator := p.frame + 1, p.accumulator - d;
      DivStep(p.accumulator, d);
      if frame >= |c.frames| then
        var choice := NextState(c, p.state, p.repetitions, draw(k));
        if choice.next.None? then Run(Playback(p.state, 0, choice.repetitions, accumulator), true)
        else
          var r := CatchUp(c, d, Playback(choice.next.value, 0, choice.repetitions, accumulator), draw, k + 1);
          WrapShift(p.frame, |c.frames|, p.accumulator, d);
          r
      else
        CatchUp(c, d, p.(frame := frame, accumulator := accumulator), draw, k + 1)
  }

  /** With less than one duration left, the loop stays on the frame it is on. */
  lemma Settled(frame: int, n: int, acc: int, d: int)
    requires d > 0
    ensures 0 <= acc < d ==> acc / d == 0 && acc % d == acc
    ensures 0 <= frame < n && 0 <= acc < d ==> (frame + acc / d) % n == frame
  {
    if 0 <= acc < d {
      DivUnique(acc, d, 0, acc);
      if 0 <= frame < n {
        DivUnique(frame, n, 0, frame);
      }
    }
  }

  /** Starting again from frame 0 after the last of n frames keeps the count modulo n. */
  lemma WrapShift(frame: int, n: int, acc: int, d: int)
    requires d > 0
    ensures 0 <= frame < n <= frame + 1 && d <= acc ==> (0 + (acc - d) / d) % n == (frame + acc / d) % n
  {
    if 0 <= frame < n <= frame + 1 && d <= acc {
      DivStep(acc, d);
      var j := (acc - d) / d;
      assert frame + acc / d == j + n;
      ModShift(j, n);
    }
  }

  /**
   * The catch-up loop as per-frame durations evidently intend it: every
   * iteration looks up the clip of the state the animator is in now and the
   * duration of the frame it is on now.
   */
  function CatchUpIntended(lib: map<State, Clip>, p: Playback, draw: nat -> nat, k: nat): (r: Playback)
    requires ClosedLibrary(lib) && PositiveDurations(lib) && p.state in lib
    decreases p.accumulator
    ensures r.state in lib
    ensures 0 <= p.frame < |lib[p.state].frames| ==> 0 <= r.frame < |lib[r.state].frames|
    ensures r.accumulator < FrameDuration(lib[r.state], r.frame)
  {
    var c := lib[p.state];
    var d := FrameDuration(c, p.frame);
    if p.accumulator < d then p
    else
      var frame, accumulator := p.frame + 1, p.accumulator - d;
      if frame >= |c.frames| then
        var choice := NextState(c, p.state, p.repetitions, draw(k));
        CatchUpIntended(lib, Playback(choice.next.value, 0, choice.repetitions, accumulator), draw, k + 1)
      else
        CatchUpIntended(lib, p.(frame := frame, accumulator := accumulator), draw, k + 1)
  }

  /**
   * The two loops agree on a clip that only loops onto itself and whose
   * frames all last equally long: there, reading the clip and the duration
   * once is harmless.
   */
  lemma {:induction false} IntendedAgreesOnUniformClip(lib: map<State, Clip>, p: Playback, draw: nat -> nat, k: nat)
    requires ClosedLibrary(lib) && PositiveDurations(lib) && p.state in lib
    requires forall t :: t in lib[p.state].successors ==> t == p.state
    requires forall i :: 0 <= i < |lib[p.state].durations| ==> lib[p.state].durations[i] == lib[p.state].durations[0]
    ensures CatchUp(lib[p.state], lib[p.state].durations[0], p, draw, k) == Run(CatchUpIntended(lib, p, draw, k), false)
    decreases p.accumulator
  {
    var c := lib[p.state];
    var d := FrameDuration(c, p.frame);
    assert d == c.durations[0];
    if p.accumulator >= d {
      var frame, accumulator := p.frame + 1, p.accumulator - d;
      if frame >= |c.frames| {
        var choice := NextState(c, p.state, p.repetitions, draw(k));
        IntendedAgreesOnUniformClip(lib, Playback(choice.next.value, 0, choice.repetitions, accumulator), draw, k + 1);
      } else {
        IntendedAgreesOnUniformClip(lib, p.(frame := frame, accumulator := accumulator), draw, k + 1);
      }
    }
  }

  /** Every frame of every clip lasts a positive number of milliseconds. */
  predicate PositiveDurations(lib: map<State, Clip>)
  {
    forall s :: s in lib ==> forall i :: 0 <= i < |lib[s].durations| ==> lib[s].durations[i] > 0
  }

  /**
   * As written, a wrap inside the loop can leave the frame number past the end
   * of the new clip: a two-frame IDLE clip that hands over to a one-frame SLEEP
   * clip, caught up by 200 ms from its last frame, ends on SLEEP frame 1, which
   * does not exist. The intended loop ends on SLEEP frame 0.
   */
  lemma StaleClipOverrunsNewClip(draw: nat -> nat)
    ensures var idle := Clip([Sleep], [Frame(0), Frame(1)], [100, 100], 0, 0, 0, 0, 0, Size(100, 100));
            var sleep := Clip([Sleep], [Frame(2)], [100], 0, 0, 0, 0, 0, Size(100, 100));
            var lib := map[Idle := idle, Sleep := sleep];
            var start := Playback(Idle, 1, 0, 200);
            var run := CatchUp(lib[Idle], FrameDuration(lib[Idle], 1), start, draw, 0);
            && ClosedLibrary(lib) && PositiveDurations(lib)
            && !run.raised && run.playback.state == Sleep
            && run.playback.frame == 1 >= |lib[run.playback.state].frames|
            && CatchUpIntended(lib, start, draw, 0) == Playback(Sleep, 0, 0, 0)
  {
    var idle := Clip([Sleep], [Frame(0), Frame(1)], [100, 100], 0, 0, 0, 0, 0, Size(100, 100));
    var sleep := Clip([Sleep], [Frame(2)], [100], 0, 0, 0, 0, 0, Size(100, 100));
    StaleClipRun(idle, draw);
    StaleClipIntended(idle, sleep, draw);
  }

  /** The loop as coded on the two-frame clip of the example above. */
  lemma StaleClipRun(idle: Clip, draw: nat -> nat)
    requires idle == Clip([Sleep], [Frame(0), Frame(1)], [100, 100], 0, 0, 0, 0, 0, Size(100, 100))
    ensures CatchUp(idle, FrameDuration(idle, 1), Playback(Idle, 1, 0, 200), draw, 0)
            == Run(Playback(Sleep, 1, 0, 0), false)
  {
    assert FrameDuration(idle, 1) == 100;
    assert NextState(idle, Idle, 0, draw(0)).next == Some(Sleep);
    assert CatchUp(idle, 100, Playback(Idle, 1, 0, 200), draw, 0)
        == CatchUp(idle, 100, Playback(Sleep, 0, 0, 100), draw, 1)
        == CatchUp(idle, 100, Playback(Sleep, 1, 0, 0), draw, 2);
  }

  /** The corrected loop on the example above. */
  lemma StaleClipIntended(idle: Clip, sleep: Clip, draw: nat -> nat)
    requires idle == Clip([Sleep], [Frame(0), Frame(1)], [100, 100], 0, 0, 0, 0, 0, Size(100, 100))
    requires sleep == Clip([Sleep], [Frame(2)], [100], 0, 0, 0, 0, 0, Size(100, 100))
    ensures var lib := map[Idle := idle, Sleep := sleep];
            && ClosedLibrary(lib) && PositiveDurations(lib)
            && CatchUpIntended(lib, Playback(Idle, 1, 0, 200), draw, 0) == Playback(Sleep, 0, 0, 0)
  {
    var lib := map[Idle := idle, Sleep := sleep];
    assert ClosedLibrary(lib) && PositiveDurations(lib);
    assert FrameDuration(sleep, 0) == 100;
    assert NextState(idle, Idle, 0, draw(0)).next == Some(Sleep);
    assert NextState(sleep, Sleep, 0, draw(1)).next == Some(Sleep);
    assert CatchUpIntended(lib, Playback(Idle, 1, 0, 200), draw, 0)
        == CatchUpIntended(lib, Playback(Sleep, 0, 0, 100), draw, 1)
        == CatchUpIntended(lib, Playback(Sleep, 0, 0, 0), draw, 2);
  }

  /**
   * As written, every frame passed in one catch-up lasts as long as the entry
   * frame: with durations [100, 300], 250 ms from frame 0 wrap back to frame 0
   * although frame 1 alone should last 300 ms. The intended loop stops on
   * frame 1 with 150 ms carried.
   */
  lemma StaleDurationShortensFrames(draw: nat -> nat)
    ensures var idle := Clip([Idle], [Frame(0), Frame(1)], [100, 300], 0, 0, 0, 0, 5, Size(100, 100));
            var lib := map[Idle := idle];
            var start := Playback(Idle, 0, 0, 250);
            var run := CatchUp(idle, FrameDuration(idle, 0), start, draw, 0);
            && ClosedLibrary(lib) && PositiveDurations(lib)
            && run == Run(Playback(Idle, 0, 1, 50), false)
            && start.accumulator < idle.durations[0] + idle.durations[1]
            && CatchUpIntended(lib, start, draw, 0) == Playback(Idle, 1, 0, 150)
  {
    var idle := Clip([Idle], [Frame(0), Frame(1)], [100, 300], 0, 0, 0, 0, 5, Size(100, 100));
    var lib := map[Idle := idle];
    assert FrameDuration(idle, 0) == 100;
    assert CatchUp(idle, 100, Playback(Idle, 0, 0, 250), draw, 0)
        == CatchUp(idle, 100, Playback(Idle, 1, 0, 150), draw, 1)
        == CatchUp(idle, 100, Playback(Idle, 0, 1, 50), draw, 2);
    assert FrameDuration(idle, 1) == 300;
    assert CatchUpIntended(lib, Playback(Idle, 0, 0, 250), draw, 0)
        == CatchUpIntended(lib, Playback(Idle, 1, 0, 150), draw, 1);
  }

  /**
   * Three frames of 100, 200 and 50 ms looping onto themselves, 375 ms from
   * frame 0: the loop as written steps three times by 100 ms and ends back on
   * frame 0 with 75 ms carried.
   */
  lemma ThreeFrameCatchUp(draw: nat -> nat)
    ensures var c := Clip([Idle], [Frame(0), Frame(1), Frame(2)], [100, 200, 50], 0, 0, 0, 0, 0, Size(100, 100));
            CatchUp(c, FrameDuration(c, 0), Playback(Idle, 0, 0, 375), draw, 0) == Run(Playback(Idle, 0, 0, 75), false)
  {
    var c := Clip([Idle], [Frame(0), Frame(1), Frame(2)], [100, 200, 50], 0, 0, 0, 0, 0, Size(100, 100));
    assert FrameDuration(c, 0) == 100;
    assert NextState(c, Idle, 0, draw(2)).next == Some(Idle);
    assert CatchUp(c, 100, Playback(Idle, 0, 0, 375), draw, 0)
        == CatchUp(c, 100, Playback(Idle, 1, 0, 275), draw, 1)
        == CatchUp(c, 100, Playback(Idle, 2, 0, 175), draw, 2)
        == CatchUp(c, 100, Playback(Idle, 0, 0, 75), draw, 3);
  }

  /**
   * `Animation.next(animator)`: reads the animator's state and counter and
   * updates the counter. None means `random.choice` raised on an empty list.
   */
  method Next(c: Clip, animator: Animator, draw: nat) returns (s: Option<State>)
    modifies animator`repetitions
    ensures var choice := NextState(c, old(animator.state), old(animator.repetitions), draw);
            s == choice.next && animator.repetitions == choice.repetitions
  {
    if animator.repetitions < c.threshold {
      animator.repetitions := animator.repetitions + 1;
      s := Some(animator.state);
    } else {
      animator.repetitions := 0;
      if |c.successors| == 0 {
        s := None;
      } else {
        s := Some(c.successors[draw % |c.successors|]);
      }
    }
  }

  class Animator {
    var frameNumber: int
    var state: State
    const animations: map<State, Clip>
    var repetitions: int
    /** Milliseconds of elapsed time not yet spent on frames. */
    var timeAccumulator: int

    function View(): Playback
      reads this
    {
      Playback(state, frameNumber, repetitions, timeAccumulator)
    }

    constructor (frameNumber: int, state: State, animations: map<State, Clip>, repetitions: int)
      ensures this.animations == animations
      ensures View() == Playback(state, frameNumber, repetitions, 0)
    {
      this.frameNumber := frameNumber;
      this.state := state;
      this.animations := animations;
      this.repetitions := repetitions;
      this.timeAccumulator := 0;
    }

    /**
     * `update(delta_time)`, with the elapsed time given in milliseconds. The
     * loop's clip and step duration are fixed on entry; `completed` is false
     * when `next` raised part-way. Termination needs the entry duration to be
     * positive.
     */
    method Update(deltaMs: int, draw: nat -> nat) returns (completed: bool)
      requires state in animations && |animations[state].durations| > 0
      requires FrameDuration(animations[state], frameNumber) > 0
      modifies this
      ensures var c := old(animations[state]);
              var run := CatchUp(c, FrameDuration(c, old(frameNumber)),
                                 old(View()).(accumulator := old(timeAccumulator) + deltaMs), draw, 0);
              View() == run.playback && completed == !run.raised
    {
      var current := animations[state];
      timeAccumulator := timeAccumulator + deltaMs;
      var frameDuration := FrameDuration(current, frameNumber);
      assert View() == old(View()).(accumulator := old(timeAccumulator) + deltaMs);
      ghost var goal := CatchUp(current, frameDuration, View(), draw, 0);
      var k: nat := 0;
      while timeAccumulator >= frameDuration
        invariant CatchUp(current, frameDuration, View(), draw, k) == goal
        decreases timeAccumulator
      {
        ghost var before := View();
        timeAccumulator := timeAccumulator - frameDuration;
        frameNumber := frameNumber + 1;
        if frameNumber >= |current.frames| {
          frameNumber := 0;
          var next := Next(current, this, draw(k));
          if next.None? {
            assert goal == Run(View(), true);
            return false;
          }
          state := next.value;
        }
        assert CatchUp(current, frameDuration, before, draw, k) == CatchUp(current, frameDuration, View(), draw, k + 1);
        k := k + 1;
      }
      assert goal == Run(View(), false);
      return true;
    }

    /** `set_animation_state`: whether the state actually changed. */
    method SetAnimationState(s: State) returns (changed: bool)
      modifies this
      ensures (View(), changed) == Switch(old(View()), s)
    {
      if s == state {
        return false;
      }
      frameNumber := 0;
      repetitions := 0;
      timeAccumulator := 0;
      state := s;
      return true;
    }
  }
}
