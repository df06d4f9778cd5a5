/** The Lander02 rule-based controller: lateral thrust to stay over the pad, vertical
    thrust to slow a fast descent near it. The brain keeps no state; its answer is a
    function of the observed simulation state alone.

    The state and action arrays are records with one named field per slot (the
    slot numbers are defined outside this model). */
module FixedBrain {

  /** The observed simulation state the rules read. */
  datatype BrainState = BrainState(
    landerX: real, landerY: real, landerVX: real, landerVY: real,
    padX: real, padY: real, padWidth: real)

  /** The thrust commands, each `0.0` or `1.0`. */
  datatype Actions = Actions(up: real, left: real, right: real)

  predicate IsFlag(v: real)
  {
    v == 0.0 || v == 1.0
  }

  /** The lateral speed the rules tolerate. */
  const LATERAL_SPEED_LIMIT: real := 0.5
  /** The descent speed above which the rules fire the vertical thruster. */
  const DESCENT_SPEED_LIMIT: real := 1.0

  /** `GetBrainActions`: all commands start at zero; left thrust when the lander is
      right of the pad by more than a quarter pad width and not already drifting
      left fast, otherwise right thrust in the mirrored case; up thrust when it
      falls fast within three pad widths above the pad. */
  function GetBrainActions(s: BrainState): (a: Actions)
    ensures IsFlag(a.up) && IsFlag(a.left) && IsFlag(a.right)
    ensures !(a.left == 1.0 && a.right == 1.0)
  {
    var tolerance := s.padWidth / 4.0;
    var isLanderTooFarLeft := s.landerX > s.padX + tolerance;
    var isLanderTooFarRight := s.landerX < s.padX - tolerance;
    var isLanderMovingLeft := s.landerVX < -LATERAL_SPEED_LIMIT;
    var isLanderMovingRight := s.landerVX > LATERAL_SPEED_LIMIT;
    var lateral :=
      if isLanderTooFarLeft && !isLanderMovingLeft then Actions(0.0, 1.0, 0.0)
      else if isLanderTooFarRight && !isLanderMovingRight then Actions(0.0, 0.0, 1.0)
      else Actions(0.0, 0.0, 0.0);
    var minEngageHeight := s.padWidth * 3.0;
    var isLanderDroppingTooFast := s.landerVY > DESCENT_SPEED_LIMIT;
    var isLanderTooCloseToPad := s.landerY > s.padY - minEngageHeight;
    if isLanderDroppingTooFast && isLanderTooCloseToPad then lateral.(up := 1.0) else lateral
  }

  /** Each command in terms of the state, both directions: left exactly when the
      lander is past the pad's right quarter and its lateral speed is at least
      `-0.5`; right exactly when left does not fire, the lander is past the pad's
      left quarter and its lateral speed is at most `0.5`; up exactly when it falls
      faster than 1 and is lower than three pad widths above the pad. */
  lemma ActionConditions(s: BrainState)
    ensures GetBrainActions(s).left == 1.0 <==>
              s.landerX > s.padX + s.padWidth / 4.0 && s.landerVX >= -0.5
    ensures GetBrainActions(s).right == 1.0 <==>
              !(s.landerX > s.padX + s.padWidth / 4.0 && s.landerVX >= -0.5) &&
              s.landerX < s.padX - s.padWidth / 4.0 && s.landerVX <= 0.5
    ensures GetBrainActions(s).up == 1.0 <==>
              s.landerVY > 1.0 && s.landerY > s.padY - 3.0 * s.padWidth
  {
  }

  /** Over the middle half of the pad no lateral thrust fires, whatever the
      velocities. */
  lemma CenteredNoLateralThrust(s: BrainState)
    requires s.padX - s.padWidth / 4.0 <= s.landerX <= s.padX + s.padWidth / 4.0
    ensures GetBrainActions(s).left == 0.0 && GetBrainActions(s).right == 0.0
  {
  }

  /** Mirroring the scene about the pad swaps left and right thrust. */
  lemma MirrorSwapsLateral(s: BrainState)
    requires s.padWidth >= 0.0
    ensures var m := s.(landerX := 2.0 * s.padX - s.landerX, landerVX := -s.landerVX);
      GetBrainActions(m).left == GetBrainActions(s).right &&
      GetBrainActions(m).right == GetBrainActions(s).left &&
      GetBrainActions(m).up == GetBrainActions(s).up
  {
  }
}
