/**
 * A pet on the desktop (`src/pets/simple_pet.py` and
 * `src/pets/interactable_pet.py`): a position with a velocity and an
 * acceleration, driven by one animator. Each tick moves the pet, keeps it on
 * the screen, lands it when it falls to the floor, and then shows the next
 * frame of its clip.
 *
 * Every operation is first stated as a function on a `PetView` value, and
 * the class's methods are proved to perform exactly that function on their
 * fields.
 */
module Pets {
  import opened Wrappers
  import opened AnimationStates
  import opened Animation
  import opened Animators

  /** Position, velocity and acceleration of a pet, in pixels and pixels per tick. */
  datatype Motion = Motion(x: int, y: int, vx: int, vy: int, ax: int, ay: int)

  /** Everything a pet's methods read and write: its motion and its animator's playback. */
  datatype PetView = PetView(motion: Motion, playback: Playback)

  /** The playback is in a state the library defines, on a frame that clip has. */
  predicate Consistent(lib: map<State, Clip>, p: Playback)
  {
    p.state in lib && 0 <= p.frame < |lib[p.state].frames|
  }

  /** `reset_movement`: velocity and acceleration are taken from the clip, the position stays. */
  function Reset(m: Motion, c: Clip): (r: Motion)
    ensures r.x == m.x && r.y == m.y
    ensures (r.vx, r.vy) == Velocity(c) && (r.ax, r.ay) == Acceleration(c)
  {
    Motion(m.x, m.y, c.vx, c.vy, c.ax, c.ay)
  }

  /**
   * `set_animation_state` of a pet: the animator switches, and only a real
   * change of state reloads the motion from the new clip.
   */
  function SetState(lib: map<State, Clip>, pv: PetView, s: State): (r: PetView)
    requires s in lib
    ensures r.playback == Switch(pv.playback, s).0
    ensures s == pv.playback.state ==> r == pv
    ensures s != pv.playback.state ==> r.motion == Reset(pv.motion, lib[s])
  {
    var (p, changed) := Switch(pv.playback, s);
    PetView(if changed then Reset(pv.motion, lib[s]) else pv.motion, p)
  }

  /**
   * `progress_animation`: one frame further, or, after the last frame, back
   * to frame 0 and on to the state `next` picks (drawing `draw`). The
   * playback stays consistent with a closed library, and the motion changes
   * only when the state does.
   */
  function Progress(lib: map<State, Clip>, pv: PetView, draw: nat): (r: PetView)
    requires ClosedLibrary(lib) && Consistent(lib, pv.playback)
    ensures Consistent(lib, r.playback)
    ensures r.playback.state == pv.playback.state || r.playback.state in lib[pv.playback.state].successors
    ensures r.playback.state == pv.playback.state ==> r.motion == pv.motion
    ensures r.playback.state != pv.playback.state ==>
              r.playback == Playback(r.playback.state, 0, 0, 0) && r.motion == Reset(pv.motion, lib[r.playback.state])
  {
    var p := pv.playback;
    var c := lib[p.state];
    if p.frame < |c.frames| - 1 then
      pv.(playback := p.(frame := p.frame + 1))
    else
      var choice := NextState(c, p.state, p.repetitions, draw);
      SetState(lib, pv.(playback := p.(frame := 0, repetitions := choice.repetitions)), choice.next.value)
  }

  /** `progress_animation` called once per draw, in order. */
  function Progresses(lib: map<State, Clip>, pv: PetView, draws: seq<nat>): (r: PetView)
    requires ClosedLibrary(lib) && Consistent(lib, pv.playback)
    ensures Consistent(lib, r.playback)
    decreases |draws|
  {
    if |draws| == 0 then pv else Progresses(lib, Progress(lib, pv, draws[0]), draws[1..])
  }

  /**
   * Before the last frame nothing but the frame number moves: from frame f,
   * j progresses with f + j still inside the clip show frame f + j, whatever
   * is drawn.
   */
  lemma {:induction false} ProgressesWithinClip(lib: map<State, Clip>, pv: PetView, draws: seq<nat>)
    requires ClosedLibrary(lib) && Consistent(lib, pv.playback)
    requires pv.playback.frame + |draws| < |lib[pv.playback.state].frames|
    ensures Progresses(lib, pv, draws) == pv.(playback := pv.playback.(frame := pv.playback.frame + |draws|))
    decreases |draws|
  {
    if |draws| > 0 {
      var next := Progress(lib, pv, draws[0]);
      assert next == pv.(playback := pv.playback.(frame := pv.playback.frame + 1));
      ProgressesWithinClip(lib, next, draws[1..]);
    }
  }

  /**
   * After its last frame a clip that has not yet been shown `threshold` more
   * times plays again from frame 0 with the counter one higher, the motion
   * untouched.
   */
  lemma ProgressRepeats(lib: map<State, Clip>, pv: PetView, draw: nat)
    requires ClosedLibrary(lib) && Consistent(lib, pv.playback)
    requires pv.playback.frame == |lib[pv.playback.state].frames| - 1
    requires pv.playback.repetitions < lib[pv.playback.state].threshold
    ensures Progress(lib, pv, draw)
         == pv.(playback := pv.playback.(frame := 0, repetitions := pv.playback.repetitions + 1))
  {
  }

  /**
   * After its last frame a clip that has been repeated enough hands over to
   * the successor the draw selects, with the counter cleared; if that is
   * another state, playback restarts and the motion is the new clip's.
   */
  lemma ProgressHandsOver(lib: map<State, Clip>, pv: PetView, draw: nat)
    requires ClosedLibrary(lib) && Consistent(lib, pv.playback)
    requires pv.playback.frame == |lib[pv.playback.state].frames| - 1
    requires pv.playback.repetitions >= lib[pv.playback.state].threshold
    ensures var succ := lib[pv.playback.state].successors;
            var r := Progress(lib, pv, draw);
            && r.playback.state == succ[draw % |succ|]
            && r.playback.frame == 0 && r.playback.repetitions == 0
            && (r.playback.state != pv.playback.state ==> r.motion == Reset(pv.motion, lib[r.playback.state]))
  {
  }

  /**
   * The horizontal rule of `do_movement`: off the left edge comes back at the
   * right limit, past the right limit comes back at 0, anything else stays.
   */
  function WrapX(x: int, limit: int): (r: int)
    ensures limit >= 0 ==> 0 <= r <= limit
    ensures 0 <= x <= limit ==> r == x
    ensures x < 0 ==> r == limit
    ensures x >= 0 && x > limit ==> r == 0
  {
    if x < 0 then limit else if x > limit then 0 else x
  }

  /** What `do_movement` ends in: the new fields, or the "stuck falling" exception raised with them. */
  datatype Step = Moved(view: PetView) | StuckFalling(view: PetView)

  /**
   * `do_movement` on a screen of the given size. Velocity gains the
   * acceleration and the position the velocity; x wraps around the screen and
   * y is held above the floor, both against the size of the clip being shown.
   * A pet that reaches the floor while FALLING switches to LANDED, or is stuck
   * if the library has no LANDED clip.
   */
  function Movement(lib: map<State, Clip>, screen: Size, pv: PetView): (r: Step)
    requires pv.playback.state in lib
    ensures var size := lib[pv.playback.state].resolution;
            && r.view.motion.y <= screen.height - size.height
            && (screen.width - size.width >= 0 ==> 0 <= r.view.motion.x <= screen.width - size.width)
    ensures var m := pv.motion;
            var size := lib[pv.playback.state].resolution;
            var floor := screen.height - size.height;
            && (r.StuckFalling? <==> pv.playback.state == Falling && m.y + m.vy + m.ay > floor && Landed !in lib)
            && (r.view.playback != pv.playback <==> pv.playback.state == Falling && m.y + m.vy + m.ay > floor && Landed in lib)
    ensures var m := pv.motion;
            var size := lib[pv.playback.state].resolution;
            var floor := screen.height - size.height;
            && r.view.motion.x == WrapX(m.x + m.vx + m.ax, screen.width - size.width)
            && r.view.motion.y == if m.y + m.vy + m.ay > floor then floor else m.y + m.vy + m.ay
    ensures r.view.playback == pv.playback ==>
              && r.view.motion.vx == pv.motion.vx + pv.motion.ax && r.view.motion.vy == pv.motion.vy + pv.motion.ay
              && r.view.motion.ax == pv.motion.ax && r.view.motion.ay == pv.motion.ay
    ensures r.view.playback != pv.playback ==>
              && r.view.playback == Playback(Landed, 0, 0, 0)
              && (r.view.motion.vx, r.view.motion.vy) == Velocity(lib[Landed])
              && (r.view.motion.ax, r.view.motion.ay) == Acceleration(lib[Landed])
    ensures ClosedLibrary(lib) && Consistent(lib, pv.playback) ==> Consistent(lib, r.view.playback)
  {
    var m := pv.motion;
    var vx, vy := m.vx + m.ax, m.vy + m.ay;
    var size := lib[pv.playback.state].resolution;
    var x := WrapX(m.x + vx, screen.width - size.width);
    var floor := screen.height - size.height;
    if m.y + vy > floor then
      var grounded := PetView(Motion(x, floor, vx, vy, m.ax, m.ay), pv.playback);
      if pv.playback.state != Falling then Moved(grounded)
      else if Landed in lib then Moved(SetState(lib, grounded, Landed))
      else StuckFalling(grounded)
    else
      Moved(PetView(Motion(x, m.y + vy, vx, vy, m.ax, m.ay), pv.playback))
  }

  /** A falling pet that reaches the floor is put on it and switches to LANDED when the library has that clip. */
  lemma FallingLands(lib: map<State, Clip>, screen: Size, pv: PetView, x: int)
    requires pv.playback.state == Falling && Falling in lib && Landed in lib
    requires var m := pv.motion;
             var size := lib[Falling].resolution;
             && m.y + m.vy + m.ay > screen.height - size.height
             && x == WrapX(m.x + m.vx + m.ax, screen.width - size.width)
    ensures var m := pv.motion;
            var floor := screen.height - lib[Falling].resolution.height;
            var grounded := PetView(Motion(x, floor, m.vx + m.ax, m.vy + m.ay, m.ax, m.ay), pv.playback);
            Movement(lib, screen, pv) == Moved(SetState(lib, grounded, Landed))
  {
  }

  /**
   * A pet whose motion keeps it on the screen moves by
   * exactly its velocity plus its acceleration.
   */
  lemma MovementInsideScreen(lib: map<State, Clip>, screen: Size, pv: PetView)
    requires pv.playback.state in lib
    requires var m := pv.motion;
             var size := lib[pv.playback.state].resolution;
             && 0 <= m.x + m.vx + m.ax <= screen.width - size.width
             && m.y + m.vy + m.ay <= screen.height - size.height
    ensures var m := pv.motion;
            var moved := Motion(m.x + m.vx + m.ax, m.y + m.vy + m.ay, m.vx + m.ax, m.vy + m.ay, m.ax, m.ay);
            Movement(lib, screen, pv) == Moved(pv.(motion := moved))
  {
  }

  /** `InteractablePet.update`: movement first, then the next frame; an exception ends the tick. */
  function Tick(lib: map<State, Clip>, screen: Size, pv: PetView, draw: nat): (r: Step)
    requires ClosedLibrary(lib) && Consistent(lib, pv.playback)
    ensures Consistent(lib, r.view.playback)
    ensures r.StuckFalling? <==> Movement(lib, screen, pv).StuckFalling?
  {
    match Movement(lib, screen, pv)
    case Moved(view) => Moved(Progress(lib, view, draw))
    case StuckFalling(view) => StuckFalling(view)
  }

  /** A library with a LANDED clip never leaves a pet stuck falling. */
  lemma TickNeverStuckWithLanded(lib: map<State, Clip>, screen: Size, pv: PetView, draw: nat)
    requires ClosedLibrary(lib) && Consistent(lib, pv.playback) && Landed in lib
    ensures Tick(lib, screen, pv, draw).Moved?
  {
  }

  /** Python's `int(n / 2)`: the half of n, truncated toward zero. */
  function TruncHalf(n: int): (r: int)
    ensures n >= 0 ==> 0 <= n - 2 * r <= 1
    ensures n < 0 ==> -1 <= n - 2 * r <= 0
  {
    if n >= 0 then n / 2 else -((-n) / 2)
  }

  /** Truncation toward zero is symmetric about zero. */
  lemma TruncHalfOdd(n: int)
    ensures TruncHalf(-n) == -TruncHalf(n)
  {
  }

  /**
   * `do_move`: the pet's top-left corner is placed so that the pointer at
   * (xRoot, yRoot) sits at the centre of the current clip's frame, to within
   * half a pixel. Nothing else changes.
   */
  function Drag(lib: map<State, Clip>, pv: PetView, xRoot: int, yRoot: int): (r: PetView)
    requires pv.playback.state in lib
    ensures var size := lib[pv.playback.state].resolution;
            && (size.width >= 0 ==> size.width - 1 <= 2 * (xRoot - r.motion.x) <= size.width)
            && (size.height >= 0 ==> size.height - 1 <= 2 * (yRoot - r.motion.y) <= size.height)
    ensures r.playback == pv.playback
    ensures r.motion.(x := pv.motion.x, y := pv.motion.y) == pv.motion
  {
    var size := lib[pv.playback.state].resolution;
    pv.(motion := pv.motion.(x := xRoot - TruncHalf(size.width), y := yRoot - TruncHalf(size.height)))
  }

  /** `start_move`: show GRABBED if the library has it. */
  function Grab(lib: map<State, Clip>, pv: PetView): (r: PetView)
    ensures Grabbed in lib ==> r.playback.state == Grabbed && r == SetState(lib, pv, Grabbed)
    ensures Grabbed !in lib ==> r == pv
  {
    if Grabbed in lib then SetState(lib, pv, Grabbed) else pv
  }

  /** Grabbing a pet that is already held changes nothing. */
  lemma GrabIdempotent(lib: map<State, Clip>, pv: PetView)
    ensures Grab(lib, Grab(lib, pv)) == Grab(lib, pv)
  {
  }

  /** `stop_move`: switch to `pick`, the state drawn from the library's keys. */
  function Release(lib: map<State, Clip>, pv: PetView, pick: State): (r: PetView)
    requires pick in lib
    ensures r.playback.state == pick
    ensures Consistent(lib, r.playback) <== ClosedLibrary(lib) && Consistent(lib, pv.playback)
  {
    SetState(lib, pv, pick)
  }

  /**
   * A pet with velocity, acceleration and one animator (whose clip library is
   * fixed), on a screen of fixed size. The canvas is reduced to its
   * resolution.
   */
  class InteractablePet {
    var x: int
    var y: int
    var vx: int
    var vy: int
    var ax: int
    var ay: int
    const animator: Animator
    const screen: Size

    function View(): PetView
      reads this, animator
    {
      PetView(Motion(x, y, vx, vy, ax, ay), animator.View())
    }

    /** The pet is showing a frame that exists, from a library every clip of which can be played. */
    predicate Valid()
      reads this, animator
    {
      ClosedLibrary(animator.animations) && Consistent(animator.animations, animator.View())
    }

    /** The pet starts at rest; the animator is taken as it is. */
    constructor (x: int, y: int, screen: Size, animator: Animator)
      ensures this.animator == animator && this.screen == screen
      ensures View() == PetView(Motion(x, y, 0, 0, 0, 0), animator.View())
      ensures ClosedLibrary(animator.animations) && Consistent(animator.animations, animator.View()) ==> Valid()
    {
      this.x := x;
      this.y := y;
      this.vx, this.vy, this.ax, this.ay := 0, 0, 0, 0;
      this.animator := animator;
      this.screen := screen;
    }

    /** `get_current_animation`: the clip of the animator's state. */
    function CurrentAnimation(): (c: Clip)
      reads this, animator
      requires animator.state in animator.animations
      ensures c in animator.animations.Values
    {
      animator.animations[animator.state]
    }

    /** `get_current_animation_frame`: the frame being shown, one of the current clip's. */
    function CurrentFrame(): (f: Frame)
      reads this, animator
      requires Consistent(animator.animations, animator.View())
      ensures f in CurrentAnimation().frames
    {
      CurrentAnimation().frames[animator.frameNumber]
    }

    method ResetMovement()
      requires animator.state in animator.animations
      modifies this
      ensures View() == old(View()).(motion := Reset(old(View()).motion, animator.animations[animator.state]))
    {
      var animation := animator.animations[animator.state];
      vx, vy := animation.vx, animation.vy;
      ax, ay := animation.ax, animation.ay;
    }

    method SetAnimationState(s: State) returns (changed: bool)
      requires s in animator.animations
      modifies this, animator
      ensures View() == SetState(animator.animations, old(View()), s)
      ensures changed <==> s != old(animator.state)
      ensures old(Valid()) ==> Valid()
    {
      changed := animator.SetAnimationState(s);
      if changed {
        ResetMovement();
      }
    }

    method ProgressAnimation(draw: nat)
      requires Valid()
      modifies this, animator
      ensures Valid()
      ensures View() == Progress(animator.animations, old(View()), draw)
    {
      var animation := animator.animations[animator.state];
      if animator.frameNumber < |animation.frames| - 1 {
        animator.frameNumber := animator.frameNumber + 1;
      } else {
        animator.frameNumber := 0;
        var next := Next(animation, animator, draw);
        var changed := SetAnimationState(next.value);
      }
    }

    /** `do_movement`; `stuck` says that it raised because no LANDED clip exists. */
    method DoMovement() returns (stuck: bool)
      requires animator.state in animator.animations
      modifies this, animator
      ensures var step := Movement(animator.animations, screen, old(View()));
              View() == step.view && stuck == step.StuckFalling?
      ensures old(Valid()) ==> Valid()
    {
      ghost var pv, lib := View(), animator.animations;
      var size := animator.animations[animator.state].resolution;
      var newVx, newVy := vx + ax, vy + ay;
      var newX, newY := x + newVx, y + newVy;
      if newX < 0 || newX > screen.width - size.width {
        if newX < 0 {
          newX := screen.width - size.width;
        } else {
          newX := 0;
        }
      }
      assert newX == WrapX(pv.motion.x + newVx, screen.width - size.width);
      var hitFloor := newY > screen.height - size.height;
      if hitFloor {
        newY := screen.height - size.height;
      }
      x, y, vx, vy := newX, newY, newVx, newVy;
      ghost var moved := PetView(Motion(newX, newY, newVx, newVy, ax, ay), pv.playback);
      assert View() == moved;
      if hitFloor && animator.state == Falling {
        if Landed in animator.animations {
          FallingLands(lib, screen, pv, newX);
          var changed := SetAnimationState(Landed);
        } else {
          return true;
        }
      }
      return false;
    }

    /** `update`: move, then, unless movement raised, show the next frame. */
    method Update(draw: nat) returns (stuck: bool)
      requires Valid()
      modifies this, animator
      ensures Valid()
      ensures var step := Tick(animator.animations, screen, old(View()), draw);
              View() == step.view && stuck == step.StuckFalling?
    {
      stuck := DoMovement();
      if !stuck {
        ProgressAnimation(draw);
      }
    }

    /** `start_move` (mouse press). */
    method StartMove()
      modifies this, animator
      ensures View() == Grab(animator.animations, old(View()))
      ensures old(Valid()) ==> Valid()
    {
      if Grabbed in animator.animations {
        var changed := SetAnimationState(Grabbed);
      }
    }

    /** `stop_move` (mouse release), with the randomly chosen key given as `pick`. */
    method StopMove(pick: State)
      requires pick in animator.animations
      modifies this, animator
      ensures View() == Release(animator.animations, old(View()), pick)
      ensures old(Valid()) ==> Valid()
    {
      var changed := SetAnimationState(pick);
    }

    /** `do_move` (mouse drag) to the pointer position on the desktop. */
    method DoMove(xRoot: int, yRoot: int)
      requires animator.state in animator.animations
      modifies this
      ensures View() == Drag(animator.animations, old(View()), xRoot, yRoot)
      ensures old(Valid()) ==> Valid()
    {
      var size := animator.animations[animator.state].resolution;
      x := xRoot - TruncHalf(size.width);
      y := yRoot - TruncHalf(size.height);
    }
  }
}
