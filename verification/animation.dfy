/**
 * One animation clip: its frames with their per-frame durations, the constant
 * motion the pet has while the clip plays, the repeat-count gate and the
 * successor list from which the next state is drawn (`src/animation/animation.py`).
 */
module Animation {
  import opened Wrappers
  import opened AnimationStates
  import opened Sequences

  /** An opaque handle of one decoded image; the model never looks inside it. */
  datatype Frame = Frame(handle: nat)

  /** A width and a height in pixels. */
  datatype Size = Size(width: int, height: int)

  /** One frame of a decoded GIF together with the duration (ms) its metadata gives it. */
  datatype GifFrame = GifFrame(image: Frame, duration: int)

  /**
   * A constructed clip. `successors` may repeat a state: duplicates weight the
   * random choice. `threshold` is the clip's `repititions` attribute.
   */
  datatype Clip = Clip(
    successors: seq<State>,
    frames: seq<Frame>,
    durations: seq<int>,
    vx: int, vy: int, ax: int, ay: int,
    threshold: int,
    resolution: Size)

  /** The two exceptions the constructor raises. */
  datatype ClipError =
    | NoFrameSource  // neither frames nor a GIF to load them from
    | NoFrames       // the frame list turned out empty

  /**
   * The constructor's keyword arguments. `gif` stands for `gif_location`: when
   * present it holds what decoding that GIF yields (decoding itself is not
   * modelled), and it is only consulted when `frames` is absent.
   * `imagesFolder` stands for `images_location`, which no longer loads anything.
   */
  datatype ClipArgs = ClipArgs(
    successors: seq<State>,
    frames: Option<seq<Frame>>,
    gif: Option<seq<GifFrame>>,
    imagesFolder: Option<string>,
    vx: int, vy: int, ax: int, ay: int,
    repetitions: int,
    frameMultiplier: int,
    resolution: Size,
    reverse: bool)

  /** Duration given to every frame passed in directly. */
  const DefaultDuration: int := 100

  /** The keyword defaults of the constructor. */
  function Defaults(successors: seq<State>): ClipArgs
  {
    ClipArgs(successors, None, None, None, 0, 0, 0, 0, 0, 1, Size(100, 100), false)
  }

  predicate HasSource(args: ClipArgs)
  {
    args.frames.Some? || args.gif.Some?
  }

  /** The frames before reversal and multiplication: the given list, else the GIF's. */
  function SourceFrames(args: ClipArgs): seq<Frame>
    requires HasSource(args)
  {
    if args.frames.Some? then args.frames.value
    else seq(|args.gif.value|, i requires 0 <= i < |args.gif.value| => args.gif.value[i].image)
  }

  /** The durations before reversal and multiplication: 100 ms each, else the GIF's own. */
  function SourceDurations(args: ClipArgs): seq<int>
    requires HasSource(args)
  {
    if args.frames.Some? then Repeat(DefaultDuration, |args.frames.value|)
    else seq(|args.gif.value|, i requires 0 <= i < |args.gif.value| => args.gif.value[i].duration)
  }

  /** How many times each frame is repeated: the multiplier only applies without a GIF. */
  function Factor(args: ClipArgs): int
  {
    if args.gif.None? && args.frameMultiplier > 1 then args.frameMultiplier else 1
  }

  /** The source frames after the optional `reverse()`. */
  function OrientedFrames(args: ClipArgs): (r: seq<Frame>)
    requires HasSource(args)
    ensures |r| == |SourceFrames(args)|
  {
    if args.reverse then Reverse(SourceFrames(args)) else SourceFrames(args)
  }

  /** The source durations after the optional `reverse()`. */
  function OrientedDurations(args: ClipArgs): (r: seq<int>)
    requires HasSource(args)
    ensures |r| == |SourceDurations(args)|
  {
    if args.reverse then Reverse(SourceDurations(args)) else SourceDurations(args)
  }

  /** Which source frame ends up in block j of n, after the optional reversal. */
  function Oriented(j: int, n: int, reverse: bool): int
  {
    if reverse then n - 1 - j else j
  }

  /** `[x for item in s for x in repeat(item, k)]`: every element k times in a row. */
  function Stretch<T>(s: seq<T>, k: nat): (r: seq<T>)
    ensures |r| == |s| * k
  {
    if |s| == 0 then [] else Repeat(s[0], k) + Stretch(s[1..], k)
  }

  /** Block q of a stretched list holds k copies of s[q]. */
  lemma {:induction false} StretchBlock<T>(s: seq<T>, k: nat, q: int, r: int)
    requires 0 <= q < |s| && 0 <= r < k
    ensures q * k + r < |Stretch(s, k)| && Stretch(s, k)[q * k + r] == s[q]
  {
    var rest := Stretch(s[1..], k);
    assert Stretch(s, k) == Repeat(s[0], k) + rest;
    if q > 0 {
      StretchBlock(s[1..], k, q - 1, r);
      MulStep(q, k);
      assert Stretch(s, k)[k + ((q - 1) * k + r)] == rest[(q - 1) * k + r];
    }
  }

  /** The block and the offset of position i among n blocks of k. */
  lemma BlockOf(n: int, k: int, i: int)
    requires k > 0 && 0 <= i < n * k
    ensures 0 <= i / k < n && 0 <= i % k < k && i == (i / k) * k + i % k
  {
    var q := i / k;
    assert q * k <= i < n * k;
    ScaleCancels(q, n, k);
  }

  /** Counted from the end, position i lies in block n - 1 - i / k at offset k - 1 - i % k. */
  lemma MirrorBlock(n: int, k: int, i: int)
    requires k > 0 && 0 <= i < n * k
    ensures n * k - 1 - i == (n - 1 - i / k) * k + (k - 1 - i % k)
  {
    BlockOf(n, k, i);
    var q, r := i / k, i % k;
    assert n * k - q * k == (n - q) * k;
  }

  lemma StretchAt<T>(s: seq<T>, k: nat, i: int)
    requires k > 0 && 0 <= i < |s| * k
    ensures 0 <= i / k < |s| && Stretch(s, k)[i] == s[i / k]
  {
    BlockOf(|s|, k, i);
    StretchBlock(s, k, i / k, i % k);
  }

  /** Reversing a stretched list is stretching the reversed list. */
  lemma StretchReverse<T>(s: seq<T>, k: nat)
    requires k > 0
    ensures Reverse(Stretch(s, k)) == Stretch(Reverse(s), k)
  {
    var n := |s|;
    var a, b := Reverse(Stretch(s, k)), Stretch(Reverse(s), k);
    assert |a| == n * k == |b|;
    forall i | 0 <= i < n * k
      ensures a[i] == b[i]
    {
      BlockOf(n, k, i);
      MirrorBlock(n, k, i);
      StretchBlock(s, k, n - 1 - i / k, k - 1 - i % k);
      StretchBlock(Reverse(s), k, i / k, i % k);
    }
  }

  /**
   * `Animation.__init__`: fails without a frame source or with no frames;
   * otherwise the frames and their durations, optionally reversed, then each
   * repeated `frameMultiplier` times when no GIF was given.
   */
  function NewClip(args: ClipArgs): (r: Result<Clip, ClipError>)
    ensures r == Err(NoFrameSource) <==> !HasSource(args)
    ensures r == Err(NoFrames) <==> HasSource(args) && |SourceFrames(args)| == 0
    ensures r.Ok? ==>
      && |r.value.frames| == |r.value.durations| == |SourceFrames(args)| * Factor(args) > 0
      && r.value.successors == args.successors
      && r.value.threshold == args.repetitions
      && r.value.resolution == args.resolution
  {
    if !HasSource(args) then Err(NoFrameSource)
    else
      if |SourceFrames(args)| == 0 then Err(NoFrames)
      else
        var k := Factor(args);
        Ok(Clip(args.successors, Stretch(OrientedFrames(args), k), Stretch(OrientedDurations(args), k),
                args.vx, args.vy, args.ax, args.ay, args.repetitions, args.resolution))
  }

  /**
   * Position i of a constructed clip holds source frame j together with source
   * duration j, where j is block i / Factor read forwards or backwards.
   */
  lemma NewClipLayout(args: ClipArgs, i: int)
    requires NewClip(args).Ok? && 0 <= i < |NewClip(args).value.frames|
    ensures var n := |SourceFrames(args)|;
            var j := Oriented(i / Factor(args), n, args.reverse);
            && 0 <= j < n == |SourceDurations(args)|
            && NewClip(args).value.frames[i] == SourceFrames(args)[j]
            && NewClip(args).value.durations[i] == SourceDurations(args)[j]
  {
    var k := Factor(args);
    StretchAt(OrientedFrames(args), k, i);
    StretchAt(OrientedDurations(args), k, i);
  }

  /** Frames passed in directly play 100 ms each, however they are reversed or repeated. */
  lemma DirectFramesDefaultDuration(args: ClipArgs)
    requires args.frames.Some? && NewClip(args).Ok?
    ensures |NewClip(args).value.durations| == |NewClip(args).value.frames|
    ensures forall i :: 0 <= i < |NewClip(args).value.durations| ==>
              NewClip(args).value.durations[i] == DefaultDuration
    ensures Factor(args) == 1 ==> |NewClip(args).value.durations| == |args.frames.value|
  {
    forall i | 0 <= i < |NewClip(args).value.durations|
      ensures NewClip(args).value.durations[i] == DefaultDuration
    {
      NewClipLayout(args, i);
    }
  }

  /** The `reverse` flag yields exactly the reversal of the clip built without it. */
  lemma NewClipReverse(args: ClipArgs)
    requires NewClip(args).Ok?
    ensures NewClip(args.(reverse := true)).Ok?
    ensures NewClip(args.(reverse := true)).value.frames
            == Reverse(NewClip(args.(reverse := false)).value.frames)
    ensures NewClip(args.(reverse := true)).value.durations
            == Reverse(NewClip(args.(reverse := false)).value.durations)
  {
    var k := Factor(args);
    StretchReverse(SourceFrames(args), k);
    StretchReverse(SourceDurations(args), k);
  }

  /** `get_velocity`: the clip's (v_x, v_y). */
  function Velocity(c: Clip): (int, int)
  {
    (c.vx, c.vy)
  }

  /** `get_acceleration`: the clip's (a_x, a_y). */
  function Acceleration(c: Clip): (int, int)
  {
    (c.ax, c.ay)
  }

  /** A constructed clip moves exactly as it was told to; by default it stands still. */
  lemma ConstructedMotion(args: ClipArgs)
    requires NewClip(args).Ok?
    ensures Velocity(NewClip(args).value) == (args.vx, args.vy)
    ensures Acceleration(NewClip(args).value) == (args.ax, args.ay)
    ensures var d := Defaults(args.successors);
            var still := NewClip(args.(vx := d.vx, vy := d.vy, ax := d.ax, ay := d.ay));
            still.Ok? && Velocity(still.value) == (0, 0) && Acceleration(still.value) == (0, 0)
  {
  }

  /**
   * `get_frame_duration`: the duration at the index taken modulo the number of
   * durations (Python's `%` and Dafny's agree for a positive modulus).
   */
  function FrameDuration(c: Clip, index: int): (d: int)
    requires |c.durations| > 0
    ensures d in c.durations
    ensures 0 <= index < |c.durations| ==> d == c.durations[index]
  {
    c.durations[index % |c.durations|]
  }

  /** The lookup is periodic with the number of durations as its period, for any index. */
  lemma {:induction false} FrameDurationPeriodic(c: Clip, index: int, m: int)
    requires |c.durations| > 0
    ensures FrameDuration(c, index + m * |c.durations|) == FrameDuration(c, index)
    decreases if m < 0 then -m else m
  {
    var n := |c.durations|;
    if m > 0 {
      FrameDurationPeriodic(c, index, m - 1);
      MulStep(m, n);
      ModShift(index + (m - 1) * n, n);
    } else if m < 0 {
      FrameDurationPeriodic(c, index, m + 1);
      MulStep(m + 1, n);
      ModShift(index + m * n, n);
    }
  }

  /** What `next` answers and the repeat counter it leaves; `next` is None when it raised. */
  datatype Choice = Choice(next: Option<State>, repetitions: int)

  /**
   * `Animation.next`: while the counter is below the threshold, count one more
   * replay and stay; otherwise reset the counter and draw a successor.
   * `draw` is the random source: it picks index `draw % |successors|`, so every
   * entry (and every duplicate) has its own draws. On an empty list the draw
   * raises, after the counter was reset.
   */
  function NextState(c: Clip, current: State, repetitions: int, draw: nat): (r: Choice)
    ensures repetitions < c.threshold ==> r == Choice(Some(current), repetitions + 1)
    ensures repetitions >= c.threshold ==>
      && r.repetitions == 0
      && (r.next.Some? <==> |c.successors| > 0)
      && (r.next.Some? ==> r.next.value in c.successors)
  {
    if repetitions < c.threshold then Choice(Some(current), repetitions + 1)
    else if |c.successors| == 0 then Choice(None, 0)
    else Choice(Some(c.successors[draw % |c.successors|]), 0)
  }

  /** Once the gate opens, every listed successor is what some draw yields. */
  lemma AnySuccessorCanBeDrawn(c: Clip, current: State, repetitions: int, t: State)
    requires repetitions >= c.threshold && t in c.successors
    ensures exists draw: nat :: NextState(c, current, repetitions, draw).next == Some(t)
  {
    var k :| 0 <= k < |c.successors| && c.successors[k] == t;
    assert k % |c.successors| == k;
    assert NextState(c, current, repetitions, k).next == Some(t);
  }

  /** A clip the playback loop can always step through. */
  predicate Playable(c: Clip)
  {
    |c.frames| > 0 && |c.durations| == |c.frames| && |c.successors| > 0
  }

  /** Every clip is playable and every successor it names is itself a key. */
  predicate ClosedLibrary(lib: map<State, Clip>)
  {
    forall s :: s in lib ==> Playable(lib[s]) && forall t :: t in lib[s].successors ==> t in lib
  }

  newtype byte = b: int | 0 <= b < 256

  datatype Pixel = Pixel(red: byte, green: byte, blue: byte, alpha: byte)

  /**
   * The alpha rule of `remove_partial_transparency_png`: a partly transparent
   * pixel gets alpha round(alpha / 255) * 255. For a byte, alpha / 255 is never
   * exactly one half, so rounding half up, (2 alpha + 255) div 510, agrees with
   * Python's rounding.
   */
  function Quantise(p: Pixel): (q: Pixel)
    ensures q.red == p.red && q.green == p.green && q.blue == p.blue
    ensures p.alpha == 255 ==> q == p
    ensures p.alpha <= 127 ==> q.alpha == 0
    ensures p.alpha >= 128 ==> q.alpha == 255
  {
    if p.alpha == 255 then p
    else p.(alpha := ((2 * p.alpha as int + 255) / 510 * 255) as byte)
  }

  /** The comprehension over all pixel data: every alpha ends fully opaque or fully clear. */
  function QuantiseAll(data: seq<Pixel>): (r: seq<Pixel>)
    ensures |r| == |data|
    ensures forall i :: 0 <= i < |r| ==> r[i].alpha == 0 || r[i].alpha == 255
    ensures forall i :: 0 <= i < |r| ==>
              r[i].red == data[i].red && r[i].green == data[i].green && r[i].blue == data[i].blue
  {
    seq(|data|, i requires 0 <= i < |data| => Quantise(data[i]))
  }

  /** Quantising twice is quantising once. */
  lemma QuantiseIdempotent(data: seq<Pixel>)
    ensures QuantiseAll(QuantiseAll(data)) == QuantiseAll(data)
  {
  }
}
