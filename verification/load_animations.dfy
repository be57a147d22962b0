/**
 * The Totoro clip library (`src/animation/load_animations.py`): thirty clips,
 * each built from one GIF with a successor list, a horizontal speed and a
 * repeat threshold drawn uniformly from a range. Decoding a GIF and drawing a
 * threshold are parameters of the build.
 */
module LoadAnimations {
  import opened Wrappers
  import opened AnimationStates
  import opened Sequences
  import opened Animation
  import opened Animators
  import opened Pets

  /**
   * The list most standing clips hand over to. A state listed k times is k
   * times as likely to be drawn.
   */
  function StandingActions(): (r: seq<State>)
    ensures |r| == 34
  {
    [IdleToSleep] + [Idle, Idle] + [SleepToIdle, SleepToIdle, SleepToIdle] + [Landed, Landed, Landed]
    + [Drum, Drum] + [Hero, Hero, Hero] + [Guitar, Guitar] + [Falling, Falling, Falling]
    + [Drum2, Drum2, Drum2] + [Work, Work, Work] + [Quay, Quay, Quay] + [AeQuay, AeQuay, AeQuay]
    + [TapTa, TapTa, TapTa]
  }

  /**
   * The weights of the standing list: IDLE_TO_SLEEP once; IDLE, DRUM and
   * GUITAR twice; nine further states three times; nothing else.
   */
  lemma StandingWeights()
    ensures multiset(StandingActions())
         == multiset{IdleToSleep} + multiset{}[Idle := 2] + multiset{}[SleepToIdle := 3]
            + multiset{}[Landed := 3] + multiset{}[Drum := 2] + multiset{}[Hero := 3]
            + multiset{}[Guitar := 2] + multiset{}[Falling := 3] + multiset{}[Drum2 := 3]
            + multiset{}[Work := 3] + multiset{}[Quay := 3] + multiset{}[AeQuay := 3]
            + multiset{}[TapTa := 3]
  {
    Twice(Idle);
    Thrice(SleepToIdle);
    Thrice(Landed);
    Twice(Drum);
    Thrice(Hero);
    Twice(Guitar);
    Thrice(Falling);
    Thrice(Drum2);
    Thrice(Work);
    Thrice(Quay);
    Thrice(AeQuay);
    Thrice(TapTa);
  }

  /** The block `extend(repeat(x, 2))` adds holds x twice. */
  lemma Twice(x: State)
    ensures multiset([x, x]) == multiset{}[x := 2]
  {
    assert [x, x] == Repeat(x, 2);
    RepeatCount(x, 2);
  }

  /** The block `extend(repeat(x, 3))` adds holds x three times. */
  lemma Thrice(x: State)
    ensures multiset([x, x, x]) == multiset{}[x := 3]
  {
    assert [x, x, x] == Repeat(x, 3);
    RepeatCount(x, 3);
  }

  /** The thirteen states a standing clip can hand over to. */
  lemma StandingMembers()
    ensures forall s :: s in StandingActions() <==>
              s in {IdleToSleep, Idle, SleepToIdle, Landed, Drum, Hero, Guitar, Falling, Drum2, Work, Quay, AeQuay, TapTa}
  {
  }

  /** Where a clip's `repititions` comes from: the keyword default 0, or `random.randint(lo, hi)`. */
  datatype Repeats = Default | Between(lo: int, hi: int)

  /** An entry's successors: the shared standing list, or a list of its own. */
  datatype Successors = Standing | Listed(states: seq<State>)

  /** One entry of the library: successors, `v_x`, threshold range; its GIF is `GifName`. */
  datatype ClipDef = ClipDef(next: Successors, vx: int, repeats: Repeats)
  {
    /** The successor list the entry's clip is built with. */
    function successors(): seq<State>
    {
      match next
      case Standing => StandingActions()
      case Listed(states) => states
    }
  }

  /**
   * The entries of `get_totoro_animations`, in the order the source lists
   * them; the three enumeration states without a clip have none.
   */
  function TotoroEntry(s: State): (r: Option<ClipDef>)
    ensures r.None? <==> s in {Love, IdleToGrabbed, GrabToFall}
    ensures !Declared(s) ==> r.Some?
  {
    match s
    case Idle => Some(ClipDef(Standing, 0, Between(3, 6)))
    case IdleToSleep => Some(ClipDef(Listed([Sleep]), 0, Default))
    case Sleep => Some(ClipDef(Listed([Sleep, SleepToIdle]), 0, Between(4, 7)))
    case SleepToIdle => Some(ClipDef(Standing, 0, Default))
    case WalkPositive => Some(ClipDef(Listed([WalkPositiveMany, WalkRight]), 2, Between(3, 6)))
    case WalkRight => Some(ClipDef(Listed([RunPositive]), 1, Between(3, 7)))
    case WalkPositiveMany => Some(ClipDef(Listed([RunPositive]), 1, Default))
    case RunPositive => Some(ClipDef(Listed([RunPositiveTired]), 4, Between(3, 6)))
    case RunPositiveTired => Some(ClipDef(Listed([WalkPositiveRain]), 3, Between(3, 6)))
    case WalkPositiveRain => Some(ClipDef(Listed([SwimRight]), 2, Between(3, 6)))
    case SwimRight => Some(ClipDef(Standing, 2, Between(2, 4)))
    case WalkNegative => Some(ClipDef(Listed([WalkNegativeMany, WalkLeft]), -2, Between(3, 6)))
    case WalkLeft => Some(ClipDef(Listed([RunNegative]), -1, Between(3, 7)))
    case WalkNegativeMany => Some(ClipDef(Listed([RunNegative]), -1, Default))
    case RunNegative => Some(ClipDef(Listed([RunNegativeTired]), -4, Between(3, 6)))
    case RunNegativeTired => Some(ClipDef(Listed([WalkNegativeRain]), -3, Between(3, 6)))
    case WalkNegativeRain => Some(ClipDef(Listed([SwimLeft]), -2, Between(3, 6)))
    case SwimLeft => Some(ClipDef(Standing, -2, Between(2, 4)))
    case Grabbed => Some(ClipDef(Standing, 0, Between(2, 4)))
    case Drum => Some(ClipDef(Listed([Guitar]), 0, Between(3, 5)))
    case Falling => Some(ClipDef(Standing, 0, Between(2, 4)))
    case Dance => Some(ClipDef(Standing, 0, Between(2, 4)))
    case Guitar => Some(ClipDef(Standing, 0, Between(2, 4)))
    case Work => Some(ClipDef(Standing, 0, Between(3, 6)))
    case Quay => Some(ClipDef(Listed([AeQuay]), 0, Between(3, 6)))
    case AeQuay => Some(ClipDef(Standing, 0, Between(3, 6)))
    case TapTa => Some(ClipDef(Standing, 0, Between(3, 6)))
    case Hero => Some(ClipDef(Standing, 0, Between(3, 6)))
    case Drum2 => Some(ClipDef(Standing, 0, Between(3, 6)))
    case Landed => Some(ClipDef(Listed([Landed, WalkPositive]), 0, Between(3, 5)))
    case Love | IdleToGrabbed | GrabToFall => None
  }

  /** The GIF file each entry is decoded from, under the image directory. */
  function GifName(s: State): string
    requires TotoroEntry(s).Some?
  {
    match s
    case Idle => "tym_new.gif"
    case IdleToSleep => "nam_cong_new.gif"
    case Sleep => "ngu_new.gif"
    case SleepToIdle => "nam_cong_new.gif"
    case WalkPositive => "di_bo_phai_new.gif"
    case WalkRight => "bo_phai.gif"
    case WalkPositiveMany => "di_bo_phai_nhieu_new.gif"
    case RunPositive => "chay_phai_new.gif"
    case RunPositiveTired => "chay_phai_met_new.gif"
    case WalkPositiveRain => "che_o_phai_new.gif"
    case SwimRight => "boi_phai_new.gif"
    case WalkNegative => "di_bo_trai_new.gif"
    case WalkLeft => "bo_trai.gif"
    case WalkNegativeMany => "di_bo_trai_nhieu_new.gif"
    case RunNegative => "chay_trai_new.gif"
    case RunNegativeTired => "chay_trai_met_new.gif"
    case WalkNegativeRain => "che_o_trai_new.gif"
    case SwimLeft => "boi_trai_new.gif"
    case Grabbed => "quay_lung_new.gif"
    case Drum => "go_trong_new.gif"
    case Falling => "nhun_nhay_new.gif"
    case Dance => "nhun_nhay_fail.gif"
    case Guitar => "danh_dan_new.gif"
    case Work => "lam_viec.gif"
    case Quay => "quay.gif"
    case AeQuay => "ae_quay.gif"
    case TapTa => "tap_ta.gif"
    case Hero => "sieu_nhan_new.gif"
    case Drum2 => "danh_trong.gif"
    case Landed => "lac_vong_new.gif"
  }

  /** The library's definitions as the dictionary the source builds. */
  const TotoroDefs: map<State, ClipDef> := map s: State | TotoroEntry(s).Some? :: TotoroEntry(s).value

  /** The threshold a clip gets: 0 by default, else the drawn value. */
  function Threshold(r: Repeats, roll: int): int
  {
    if r.Default? then 0 else roll
  }

  /** The constructor arguments of one entry, given what its GIF decodes to. */
  function DefArgs(d: ClipDef, decoded: seq<GifFrame>, roll: int, resolution: Size): ClipArgs
  {
    Defaults(d.successors()).(gif := Some(decoded), vx := d.vx, repetitions := Threshold(d.repeats, roll),
                            resolution := resolution)
  }

  /**
   * `get_totoro_animations`: every entry becomes a clip built from its decoded
   * GIF (`decode` maps a file name to its frames), with threshold `roll(s)`
   * for an entry with a range. Any GIF without frames makes the build fail.
   */
  function BuildLibrary(decode: string -> seq<GifFrame>, roll: State -> int, resolution: Size)
    : (r: Result<map<State, Clip>, ClipError>)
    ensures r.Err? <==> exists s :: s in TotoroDefs && |decode(GifName(s))| == 0
    ensures r.Err? ==> r.error == NoFrames
    ensures r.Ok? ==> r.value.Keys == TotoroDefs.Keys
    ensures r.Ok? ==> forall s :: s in r.value ==>
              var d, c := TotoroDefs[s], r.value[s];
              && c.successors == d.successors()
              && c.vx == d.vx && c.vy == 0 && c.ax == 0 && c.ay == 0
              && c.threshold == Threshold(d.repeats, roll(s))
              && c.resolution == resolution
              && |c.frames| == |c.durations| == |decode(GifName(s))| > 0
  {
    if exists s :: s in TotoroDefs && |decode(GifName(s))| == 0 then Err(NoFrames)
    else
      Ok(map s | s in TotoroDefs :: NewClip(DefArgs(TotoroDefs[s], decode(GifName(s)), roll(s), resolution)).value)
  }

  /** Each clip shows its GIF's frames in order, each for the duration the GIF gives it. */
  lemma BuiltClipFrames(decode: string -> seq<GifFrame>, roll: State -> int, resolution: Size, s: State, i: int)
    requires BuildLibrary(decode, roll, resolution).Ok? && s in TotoroDefs
    requires 0 <= i < |decode(GifName(s))|
    ensures var c := BuildLibrary(decode, roll, resolution).value[s];
            var g := decode(GifName(s))[i];
            c.frames[i] == g.image && c.durations[i] == g.duration
  {
    var args := DefArgs(TotoroDefs[s], decode(GifName(s)), roll(s), resolution);
    NewClipLayout(args, i);
  }

  /**
   * Falling, landing and grabbing have clips; the three enumeration states
   * the library leaves out are exactly the ones without.
   */
  lemma TotoroKeys()
    ensures Falling in TotoroDefs && Landed in TotoroDefs && Grabbed in TotoroDefs
    ensures forall s :: s !in TotoroDefs <==> s in {Love, IdleToGrabbed, GrabToFall}
  {
  }

  /** Every successor the library names is one of its keys. */
  lemma TotoroClosed()
    ensures forall s, t :: s in TotoroDefs && t in TotoroDefs[s].successors() ==> t in TotoroDefs
  {
    forall s, t | s in TotoroDefs && t in TotoroDefs[s].successors()
      ensures t in TotoroDefs
    {
      EntryClosed(s, t);
    }
  }

  /** The successors of one entry all have entries. */
  lemma EntryClosed(s: State, t: State)
    requires TotoroEntry(s).Some? && t in TotoroEntry(s).value.successors()
    ensures TotoroEntry(t).Some?
  {
    if TotoroEntry(s).value.next == Standing {
      StandingHaveEntries(t);
    }
  }

  /** Every state on the standing list has an entry. */
  lemma StandingHaveEntries(t: State)
    requires t in StandingActions()
    ensures TotoroEntry(t).Some?
  {
    StandingMembers();
  }

  /** A successful build is a closed library: every clip can be played and leads only to clips it has. */
  lemma BuiltLibraryClosed(decode: string -> seq<GifFrame>, roll: State -> int, resolution: Size)
    requires BuildLibrary(decode, roll, resolution).Ok?
    ensures ClosedLibrary(BuildLibrary(decode, roll, resolution).value)
  {
    var lib := BuildLibrary(decode, roll, resolution).value;
    TotoroClosed();
    forall s | s in lib
      ensures Playable(lib[s]) && forall t :: t in lib[s].successors ==> t in lib
    {
      EntryHasSuccessors(s);
    }
  }

  /** Every entry names at least one successor. */
  lemma EntryHasSuccessors(s: State)
    requires TotoroEntry(s).Some?
    ensures |TotoroEntry(s).value.successors()| > 0
  {
  }


  /** Drawn thresholds within their ranges give every clip a threshold in its range, and 0 for the rest. */
  lemma BuiltThresholds(decode: string -> seq<GifFrame>, roll: State -> int, resolution: Size)
    requires BuildLibrary(decode, roll, resolution).Ok?
    requires forall s :: s in TotoroDefs && TotoroDefs[s].repeats.Between? ==>
               TotoroDefs[s].repeats.lo <= roll(s) <= TotoroDefs[s].repeats.hi
    ensures var lib := BuildLibrary(decode, roll, resolution).value;
            forall s :: s in lib ==>
              match TotoroDefs[s].repeats
              case Default => lib[s].threshold == 0
              case Between(lo, hi) => lo <= lib[s].threshold <= hi
  {
  }

  /**
   * Exactly four clips keep the default threshold 0; all others draw theirs
   * with `randint`.
   */
  lemma TotoroRepeatRanges()
    ensures forall s :: s in TotoroDefs ==>
              (TotoroDefs[s].repeats == Default <==> s in {IdleToSleep, SleepToIdle, WalkPositiveMany, WalkNegativeMany})
  {
    forall s | s in TotoroDefs
      ensures TotoroDefs[s].repeats == Default <==> s in {IdleToSleep, SleepToIdle, WalkPositiveMany, WalkNegativeMany}
    {
      EntryDefaultThreshold(s);
    }
  }

  /** Some of the ranges: IDLE [3, 6], SLEEP [4, 7], LANDED and DRUM [3, 5], WALK_RIGHT [3, 7], SWIM_RIGHT [2, 4]. */
  lemma TotoroSomeRanges()
    ensures TotoroDefs[Idle].repeats == Between(3, 6) && TotoroDefs[Sleep].repeats == Between(4, 7)
    ensures TotoroDefs[Landed].repeats == Between(3, 5) && TotoroDefs[WalkRight].repeats == Between(3, 7)
    ensures TotoroDefs[SwimRight].repeats == Between(2, 4) && TotoroDefs[Drum].repeats == Between(3, 5)
  {
  }

  /** Whether one entry keeps the default threshold. */
  lemma EntryDefaultThreshold(s: State)
    requires TotoroEntry(s).Some?
    ensures TotoroEntry(s).value.repeats == Default <==> s in {IdleToSleep, SleepToIdle, WalkPositiveMany, WalkNegativeMany}
  {
  }

  /** The named hand-overs: falling asleep, sleeping on or waking, and dancing on or walking off after landing. */
  lemma TotoroTransitions()
    ensures TotoroDefs[IdleToSleep].next == Listed([Sleep])
    ensures TotoroDefs[Sleep].next == Listed([Sleep, SleepToIdle])
    ensures TotoroDefs[Landed].next == Listed([Landed, WalkPositive])
    ensures TotoroDefs[Drum].next == Listed([Guitar]) && TotoroDefs[Quay].next == Listed([AeQuay])
    ensures TotoroDefs[Idle].next == Standing && TotoroDefs[Falling].next == Standing
  {
  }

  /** The left/right counterpart of a state; other states are their own. */
  function Mirror(s: State): State
  {
    match s
    case WalkPositive => WalkNegative
    case WalkNegative => WalkPositive
    case WalkRight => WalkLeft
    case WalkLeft => WalkRight
    case WalkPositiveMany => WalkNegativeMany
    case WalkNegativeMany => WalkPositiveMany
    case RunPositive => RunNegative
    case RunNegative => RunPositive
    case RunPositiveTired => RunNegativeTired
    case RunNegativeTired => RunPositiveTired
    case WalkPositiveRain => WalkNegativeRain
    case WalkNegativeRain => WalkPositiveRain
    case SwimRight => SwimLeft
    case SwimLeft => SwimRight
    case _ => s
  }

  /**
   * The library is left/right symmetric except for LANDED: the mirror of
   * every other entry is an entry with the opposite speed, the mirrored
   * successors and the same threshold range. Only the standing clips do not
   * move sideways.
   */
  lemma TotoroMirrored()
    ensures forall s :: s in TotoroDefs && s != Landed ==>
              && Mirror(s) in TotoroDefs
              && TotoroDefs[Mirror(s)].vx == -TotoroDefs[s].vx
              && TotoroDefs[Mirror(s)].repeats == TotoroDefs[s].repeats
              && TotoroDefs[Mirror(s)].successors() == MirrorAll(TotoroDefs[s].successors())
    ensures forall s :: s in TotoroDefs && Mirror(s) != s ==> (TotoroDefs[s].vx > 0 <==> Rightward(s))
    ensures forall s :: s in TotoroDefs && Mirror(s) == s ==> TotoroDefs[s].vx == 0
  {
    StandingSymmetric();
    forall s | s in TotoroDefs
      ensures s != Landed ==>
              && Mirror(s) in TotoroDefs
              && TotoroDefs[Mirror(s)].vx == -TotoroDefs[s].vx
              && TotoroDefs[Mirror(s)].repeats == TotoroDefs[s].repeats
              && TotoroDefs[Mirror(s)].successors() == MirrorAll(TotoroDefs[s].successors())
      ensures Mirror(s) != s ==> (TotoroDefs[s].vx > 0 <==> Rightward(s))
      ensures Mirror(s) == s ==> TotoroDefs[s].vx == 0
    {
      EntryMirrored(s);
    }
  }

  /** The successors of a mirrored entry: the standing list stays, a list of its own is mirrored. */
  function MirrorNext(n: Successors): Successors
  {
    match n
    case Standing => Standing
    case Listed(states) => Listed(MirrorAll(states))
  }

  /** Exactly the clips that move sideways have a counterpart, to the right or to the left. */
  lemma MirrorDirections(s: State)
    ensures Mirror(s) != s <==> Rightward(s) || Rightward(Mirror(s))
    ensures !(Rightward(s) && Rightward(Mirror(s)))
  {
  }

  /**
   * One entry and its mirror image: the opposite speed, the same range and
   * mirrored successors, except for LANDED; positive speed means a
   * rightward clip, and a clip that is its own mirror image stands still.
   */
  lemma EntryMirrored(s: State)
    requires TotoroEntry(s).Some?
    ensures s != Landed ==>
            && TotoroEntry(Mirror(s)).Some?
            && var d, e := TotoroEntry(s).value, TotoroEntry(Mirror(s)).value;
               e.vx == -d.vx && e.repeats == d.repeats && e.next == MirrorNext(d.next)
    ensures Mirror(s) != s ==> (TotoroEntry(s).value.vx > 0 <==> Rightward(s))
    ensures Mirror(s) == s ==> TotoroEntry(s).value.vx == 0
  {
    MirrorDirections(s);
    if Rightward(s) {
      RightEntryMirrored(s);
    } else if Rightward(Mirror(s)) {
      LeftEntryMirrored(s);
    } else {
      StandingEntryMirrored(s);
    }
  }

  /** A rightward entry and its leftward counterpart. */
  lemma RightEntryMirrored(s: State)
    requires Rightward(s)
    ensures TotoroEntry(s).Some? && TotoroEntry(Mirror(s)).Some?
    ensures var d, e := TotoroEntry(s).value, TotoroEntry(Mirror(s)).value;
            && d.vx > 0 && e.vx == -d.vx && e.repeats == d.repeats && e.next == MirrorNext(d.next)
  {
    if s in {WalkPositive, WalkRight, WalkPositiveMany, RunPositive} {
      RightWalkMirrored(s);
    } else {
      RightRunMirrored(s);
    }
  }

  /** The first four rightward entries, walking up to running, and their counterparts. */
  lemma RightWalkMirrored(s: State)
    requires s in {WalkPositive, WalkRight, WalkPositiveMany, RunPositive}
    ensures TotoroEntry(s).Some? && TotoroEntry(Mirror(s)).Some?
    ensures var d, e := TotoroEntry(s).value, TotoroEntry(Mirror(s)).value;
            && d.vx > 0 && e.vx == -d.vx && e.repeats == d.repeats && e.next == MirrorNext(d.next)
  {
  }

  /** The last three rightward entries, from tired running to swimming, and their counterparts. */
  lemma RightRunMirrored(s: State)
    requires s in {RunPositiveTired, WalkPositiveRain, SwimRight}
    ensures TotoroEntry(s).Some? && TotoroEntry(Mirror(s)).Some?
    ensures var d, e := TotoroEntry(s).value, TotoroEntry(Mirror(s)).value;
            && d.vx > 0 && e.vx == -d.vx && e.repeats == d.repeats && e.next == MirrorNext(d.next)
  {
  }

  /** A leftward entry and its rightward counterpart. */
  lemma LeftEntryMirrored(s: State)
    requires Rightward(Mirror(s))
    ensures TotoroEntry(s).Some? && TotoroEntry(Mirror(s)).Some?
    ensures var d, e := TotoroEntry(s).value, TotoroEntry(Mirror(s)).value;
            && d.vx < 0 && e.vx == -d.vx && e.repeats == d.repeats && e.next == MirrorNext(d.next)
  {
    if s in {WalkNegative, WalkLeft, WalkNegativeMany, RunNegative} {
      LeftWalkMirrored(s);
    } else {
      LeftRunMirrored(s);
    }
  }

  /** The first four leftward entries, walking up to running, and their counterparts. */
  lemma LeftWalkMirrored(s: State)
    requires s in {WalkNegative, WalkLeft, WalkNegativeMany, RunNegative}
    ensures TotoroEntry(s).Some? && TotoroEntry(Mirror(s)).Some?
    ensures var d, e := TotoroEntry(s).value, TotoroEntry(Mirror(s)).value;
            && d.vx < 0 && e.vx == -d.vx && e.repeats == d.repeats && e.next == MirrorNext(d.next)
  {
  }

  /** The last three leftward entries, from tired running to swimming, and their counterparts. */
  lemma LeftRunMirrored(s: State)
    requires s in {RunNegativeTired, WalkNegativeRain, SwimLeft}
    ensures TotoroEntry(s).Some? && TotoroEntry(Mirror(s)).Some?
    ensures var d, e := TotoroEntry(s).value, TotoroEntry(Mirror(s)).value;
            && d.vx < 0 && e.vx == -d.vx && e.repeats == d.repeats && e.next == MirrorNext(d.next)
  {
  }

  /** A standing entry other than LANDED is its own mirror image and does not move sideways. */
  lemma StandingEntryMirrored(s: State)
    requires TotoroEntry(s).Some? && Mirror(s) == s
    ensures TotoroEntry(s).value.vx == 0
    ensures s != Landed ==> TotoroEntry(s).value.next == MirrorNext(TotoroEntry(s).value.next)
  {
  }

  /** The seven clips that move the pet to the right. */
  predicate Rightward(s: State)
  {
    s in {WalkPositive, WalkRight, WalkPositiveMany, RunPositive, RunPositiveTired, WalkPositiveRain, SwimRight}
  }

  /** Every state mirrored, in order. */
  function MirrorAll(xs: seq<State>): (r: seq<State>)
    ensures |r| == |xs|
    ensures forall i :: 0 <= i < |xs| ==> r[i] == Mirror(xs[i])
  {
    seq(|xs|, i requires 0 <= i < |xs| => Mirror(xs[i]))
  }

  /** No standing state has a direction. */
  lemma StandingSymmetric()
    ensures MirrorAll(StandingActions()) == StandingActions()
  {
    var xs := StandingActions();
    forall i | 0 <= i < |xs|
      ensures MirrorAll(xs)[i] == xs[i]
    {
      StandingMembers();
      assert xs[i] in xs;
      NoDirection(xs[i]);
    }
  }

  /** The thirteen standing states are their own mirror images. */
  lemma NoDirection(s: State)
    requires s in {IdleToSleep, Idle, SleepToIdle, Landed, Drum, Hero, Guitar, Falling, Drum2, Work, Quay, AeQuay, TapTa}
    ensures Mirror(s) == s
  {
  }

  /**
   * LANDED is the one asymmetric entry: it can only walk off to the right,
   * and no clip ever hands over to the leftward walk, which only a mouse
   * release (a random key) starts.
   */
  lemma LeftWalkOnlyByRelease()
    ensures TotoroDefs[Landed].successors() == [Landed, WalkPositive]
    ensures MirrorAll(TotoroDefs[Landed].successors()) != TotoroDefs[Landed].successors()
    ensures forall s :: s in TotoroDefs ==> WalkNegative !in TotoroDefs[s].successors()
  {
    assert MirrorAll([Landed, WalkPositive])[1] == WalkNegative;
    StandingMembers();
  }

  /** `do_movement` never raises for a Totoro pet: the library has a LANDED clip. */
  lemma TotoroNeverStuck(decode: string -> seq<GifFrame>, roll: State -> int, resolution: Size,
                         lib: map<State, Clip>, screen: Size, pv: PetView)
    requires BuildLibrary(decode, roll, resolution) == Ok(lib)
    requires Consistent(lib, pv.playback)
    ensures Movement(lib, screen, pv).Moved?
  {
    TotoroKeys();
  }
}
