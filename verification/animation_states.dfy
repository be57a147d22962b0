/**
 * The identifiers of the pet's animation states. The first twenty-one are the
 * members of the `AnimationStates` enumeration; the last twelve are the names
 * the clip library uses without the enumeration declaring them.
 */
module AnimationStates {

  datatype State =
    | Idle | IdleToSleep | SleepToIdle | Sleep
    // moving left
    | WalkNegative | WalkNegativeMany | RunNegative | RunNegativeTired | WalkNegativeRain
    // moving right
    | WalkPositive | WalkPositiveMany | RunPositive | RunPositiveTired | WalkPositiveRain
    | Love | Drum | IdleToGrabbed | Grabbed | GrabToFall | Falling | Landed
    // used by the clip library only
    | WalkRight | WalkLeft | SwimRight | SwimLeft | Dance | Guitar | Work
    | Quay | AeQuay | TapTa | Hero | Drum2

  /** Whether the enumeration itself declares the state. */
  predicate Declared(s: State)
  {
    !(s.WalkRight? || s.WalkLeft? || s.SwimRight? || s.SwimLeft? || s.Dance? || s.Guitar?
      || s.Work? || s.Quay? || s.AeQuay? || s.TapTa? || s.Hero? || s.Drum2?)
  }
}
