/** The forward-speed setting: one speed value edited from a main panel and a
 *  mini bar, a visibility flag for the mini bar with a fade value that follows
 *  it, and the per-frame step that pushes the player forward while the right
 *  primary button is held. */
module SpeedManager {
  import opened Wrappers
  import opened Vectors
  import opened Config
  import opened Host
  import opened Widgets

  const DefaultSpeed: real := 10.0
  const LegitSpeed: real := 6.7
  const MinSpeed: real := 1.0
  const MaxSpeed: real := 20.0

  const SpeedKey: Key := Key("Speed", "MovementSpeed")
  const VisibleKey: Key := Key("Speed", "IsVisible")

  function Max(a: real, b: real): (r: real)
    ensures r >= a && r >= b && (r == a || r == b)
  {
    if a >= b then a else b
  }

  function Min(a: real, b: real): (r: real)
    ensures r <= a && r <= b && (r == a || r == b)
  {
    if a <= b then a else b
  }

  /** Unity's `Mathf.Clamp01`. */
  function Clamp01(v: real): real
  {
    Clamp(v, 0.0, 1.0)
  }

  // ---------------------------------------------------------------------
  // The two panels, as functions of the speed

  /** The buttons under the main panel's slider. */
  datatype MainButton = Decrease | Increase | ResetSpeed | Legit

  function MainButtonResult(speed: real, b: MainButton): real
  {
    match b
    case Decrease => Max(MinSpeed, speed - 1.0)
    case Increase => Min(MaxSpeed, speed + 1.0)
    case ResetSpeed => DefaultSpeed
    case Legit => LegitSpeed
  }

  /** The speed after one frame of the main panel: the slider (1 to 20), then
   *  at most one button. */
  function MainPanel(speed: real, drag: Option<real>, button: Option<MainButton>): real
  {
    var slid := Slider(speed, drag, MinSpeed, MaxSpeed);
    match button
    case None => slid
    case Some(b) => MainButtonResult(slid, b)
  }

  /** Decrease never goes below 1 and lowers the speed by exactly one while
   *  that stays at or above 1; Increase never goes above 20 and raises it by
   *  exactly one while that stays at or below 20. */
  lemma StepButtonsClamp(speed: real)
    ensures MainButtonResult(speed, Decrease) >= MinSpeed
    ensures speed - 1.0 >= MinSpeed ==> MainButtonResult(speed, Decrease) == speed - 1.0
    ensures speed - 1.0 < MinSpeed ==> MainButtonResult(speed, Decrease) == MinSpeed
    ensures MainButtonResult(speed, Increase) <= MaxSpeed
    ensures speed + 1.0 <= MaxSpeed ==> MainButtonResult(speed, Increase) == speed + 1.0
    ensures speed + 1.0 > MaxSpeed ==> MainButtonResult(speed, Increase) == MaxSpeed
  {
  }

  /** A speed on the slider's track stays there whatever the main panel does,
   *  and a frame that drags the slider, or presses Reset or Legit, always
   *  ends on it. */
  lemma MainPanelKeepsRange(speed: real, drag: Option<real>, button: Option<MainButton>)
    ensures (MinSpeed <= speed <= MaxSpeed || drag.Some?) ==>
      MinSpeed <= MainPanel(speed, drag, button) <= MaxSpeed
    ensures button == Some(ResetSpeed) || button == Some(Legit) ==>
      MinSpeed <= MainPanel(speed, drag, button) <= MaxSpeed
    ensures drag.None? && button.None? ==> MainPanel(speed, drag, button) == speed
  {
  }

  /** The buttons of the mini bar. */
  datatype MiniButton = Minus | Plus | MiniReset | MiniLegit

  function MiniButtonResult(speed: real, b: MiniButton): real
  {
    match b
    case Minus => speed - 1.0
    case Plus => speed + 1.0
    case MiniReset => DefaultSpeed
    case MiniLegit => LegitSpeed
  }

  /** Both panels' Reset and Legit buttons agree, whatever the speed was. */
  lemma ResetAndLegitAgree(a: real, b: real)
    ensures MainButtonResult(a, ResetSpeed) == MiniButtonResult(b, MiniReset) == 10.0
    ensures MainButtonResult(a, Legit) == MiniButtonResult(b, MiniLegit) == 6.7
  {
  }

  /** The mini bar's "-" and "+" move the speed by exactly one with no clamp:
   *  from the ends of the slider's track they leave it. */
  lemma MiniBarLeavesRange(speed: real)
    ensures MiniButtonResult(speed, Minus) == speed - 1.0
    ensures MiniButtonResult(speed, Plus) == speed + 1.0
    ensures MiniButtonResult(MinSpeed, Minus) < MinSpeed
    ensures MiniButtonResult(MaxSpeed, Plus) > MaxSpeed
    ensures MainButtonResult(MaxSpeed, Increase) == MaxSpeed
  {
  }

  /** "-" then "+" on the mini bar is no change; on the main panel it is no
   *  change only away from the ends of the track. */
  lemma MinusPlusCancel(speed: real)
    ensures MiniButtonResult(MiniButtonResult(speed, Minus), Plus) == speed
    ensures MinSpeed + 1.0 <= speed <= MaxSpeed ==>
      MainButtonResult(MainButtonResult(speed, Decrease), Increase) == speed
    ensures MainButtonResult(MainButtonResult(MinSpeed, Decrease), Increase) == MinSpeed + 1.0
  {
  }

  // ---------------------------------------------------------------------
  // The fade of the mini bar

  /** The fade after one `DrawGUI` frame of length `dt`. */
  function Faded(fade: real, visible: bool, dt: real): real
  {
    var moved := if !visible && fade > 0.0 then fade - dt
                 else if visible && fade < 1.0 then fade + dt
                 else fade;
    Clamp01(moved)
  }

  /** The fade always ends a frame in [0, 1]; with a non-negative frame time
   *  it rises (up to 1) while the bar is visible and falls (down to 0) while
   *  it is hidden, by exactly `dt` when that stays inside [0, 1]. */
  lemma FadeStep(fade: real, visible: bool, dt: real)
    ensures 0.0 <= Faded(fade, visible, dt) <= 1.0
    ensures 0.0 <= fade <= 1.0 && dt >= 0.0 && visible ==> Faded(fade, visible, dt) == Min(1.0, fade + dt)
    ensures 0.0 <= fade <= 1.0 && dt >= 0.0 && !visible ==> Faded(fade, visible, dt) == Max(0.0, fade - dt)
    ensures dt >= 0.0 && visible ==> Faded(fade, visible, dt) >= Clamp01(fade)
    ensures dt >= 0.0 && !visible ==> Faded(fade, visible, dt) <= Clamp01(fade)
  {
  }

  /** The fade after `n` frames of the same length and visibility. */
  function FadedRepeatedly(fade: real, visible: bool, dt: real, n: nat): real
  {
    if n == 0 then fade else Faded(FadedRepeatedly(fade, visible, dt, n - 1), visible, dt)
  }

  /** `n * dt`, as `n` frames of length `dt` added one by one. */
  function Elapsed(n: nat, dt: real): real
  {
    if n == 0 then 0.0 else Elapsed(n - 1, dt) + dt
  }

  lemma {:induction false} ElapsedIsProduct(n: nat, dt: real)
    ensures Elapsed(n, dt) == (n as real) * dt
  {
    if n > 0 {
      ElapsedIsProduct(n - 1, dt);
      assert (n as real) * dt == ((n - 1) as real) * dt + dt;
    }
  }

  lemma {:induction false} ElapsedNonNegative(n: nat, dt: real)
    requires dt >= 0.0
    ensures Elapsed(n, dt) >= 0.0
  {
    if n > 0 {
      ElapsedNonNegative(n - 1, dt);
    }
  }

  /** One more frame after `t` seconds of fading in or out. */
  lemma FadeOneMore(fade: real, visible: bool, dt: real, t: real)
    requires 0.0 <= fade <= 1.0 && dt >= 0.0 && t >= 0.0
    ensures visible ==> Faded(Min(1.0, fade + t), visible, dt) == Min(1.0, fade + (t + dt))
    ensures !visible ==> Faded(Max(0.0, fade - t), visible, dt) == Max(0.0, fade - (t + dt))
  {
  }

  lemma {:induction false} FadeAfterElapsed(fade: real, visible: bool, dt: real, n: nat)
    requires 0.0 <= fade <= 1.0 && dt >= 0.0
    ensures visible ==> FadedRepeatedly(fade, visible, dt, n) == Min(1.0, fade + Elapsed(n, dt))
    ensures !visible ==> FadedRepeatedly(fade, visible, dt, n) == Max(0.0, fade - Elapsed(n, dt))
  {
    if n > 0 {
      FadeAfterElapsed(fade, visible, dt, n - 1);
      ElapsedNonNegative(n - 1, dt);
      FadeOneMore(fade, visible, dt, Elapsed(n - 1, dt));
    }
  }

  /** After `n` frames of length `dt` the bar has faded in by `n * dt` (up
   *  to fully visible) or out by `n * dt` (down to fully hidden). */
  lemma FadeAfterFrames(fade: real, visible: bool, dt: real, n: nat)
    requires 0.0 <= fade <= 1.0 && dt >= 0.0
    ensures visible ==> FadedRepeatedly(fade, visible, dt, n) == Min(1.0, fade + (n as real) * dt)
    ensures !visible ==> FadedRepeatedly(fade, visible, dt, n) == Max(0.0, fade - (n as real) * dt)
  {
    FadeAfterElapsed(fade, visible, dt, n);
    ElapsedIsProduct(n, dt);
  }

  // ---------------------------------------------------------------------
  // Moving the player

  /** `ApplySettings` for one frame: with a player and the right primary
   *  button held, the body moves along its facing direction by speed times
   *  frame time. */
  function Pushed(player: Option<Player>, input: Input, speed: real, dt: real): Option<Player>
  {
    if player.Some? && input.rightPrimary then
      Some(player.value.(position := Add(player.value.position, Scale(Scale(player.value.forward, speed), dt))))
    else player
  }

  /** Only the position changes, and only with a player and the button held;
   *  two frames move the player as far as one frame of their total length. */
  lemma PushedMovesForward(p: Player, input: Input, speed: real, dt1: real, dt2: real)
    ensures !input.rightPrimary ==> Pushed(Some(p), input, speed, dt1) == Some(p)
    ensures Pushed(None, input, speed, dt1) == None
    ensures Pushed(Some(p), input, speed, dt1).value.(position := p.position) == p
    ensures input.rightPrimary ==>
      Sub(Pushed(Some(p), input, speed, dt1).value.position, p.position) == Scale(p.forward, speed * dt1)
    ensures Pushed(Pushed(Some(p), input, speed, dt1), input, speed, dt2) == Pushed(Some(p), input, speed, dt1 + dt2)
  {
    var f := p.forward;
    assert f.x * speed * dt1 + f.x * speed * dt2 == f.x * speed * (dt1 + dt2);
    assert f.y * speed * dt1 + f.y * speed * dt2 == f.y * speed * (dt1 + dt2);
    assert f.z * speed * dt1 + f.z * speed * dt2 == f.z * speed * (dt1 + dt2);
    assert f.x * speed * dt1 == f.x * (speed * dt1);
    assert f.y * speed * dt1 == f.y * (speed * dt1);
    assert f.z * speed * dt1 == f.z * (speed * dt1);
  }

  // ---------------------------------------------------------------------
  // Persisted settings

  /** The speed and visibility `LoadSettings` reads: the stored ones, else 10
   *  and visible. */
  function LoadedSpeed(reals: map<Key, real>, flags: map<Key, bool>): (real, bool)
  {
    (Lookup(reals, SpeedKey, DefaultSpeed), Lookup(flags, VisibleKey, true))
  }

  /** Loading from a file without the entries gives speed 10 and a visible
   *  bar; loading what was saved gives back the saved values. */
  lemma LoadDefaultsAndRoundTrip(reals: map<Key, real>, flags: map<Key, bool>, speed: real, visible: bool)
    ensures LoadedSpeed(map[], map[]) == (DefaultSpeed, true)
    ensures LoadedSpeed(reals[SpeedKey := speed], flags[VisibleKey := visible]) == (speed, visible)
  {
  }

  // ---------------------------------------------------------------------
  // The manager

  class SpeedManager {
    var movementSpeed: real
    var isVisible: bool
    var guiFade: real
    const config: ConfigFile

    constructor (config: ConfigFile)
      ensures this.config == config
      ensures movementSpeed == DefaultSpeed && isVisible && guiFade == 1.0
    {
      this.config := config;
      movementSpeed := DefaultSpeed;
      isVisible := true;
      guiFade := 1.0;
    }

    method LoadSettings()
      modifies this, config
      ensures (movementSpeed, isVisible) == LoadedSpeed(old(config.reals), old(config.flags))
      ensures config.reals == Bound(old(config.reals), SpeedKey, DefaultSpeed)
      ensures config.flags == Bound(old(config.flags), VisibleKey, true)
      ensures guiFade == old(guiFade)
    {
      movementSpeed := config.BindReal(SpeedKey, DefaultSpeed);
      isVisible := config.BindFlag(VisibleKey, true);
    }

    method SaveSettings()
      modifies config
      ensures config.reals == old(config.reals)[SpeedKey := movementSpeed]
      ensures config.flags == old(config.flags)[VisibleKey := isVisible]
      ensures LoadedSpeed(config.reals, config.flags) == (movementSpeed, isVisible)
    {
      config.SetReal(SpeedKey, movementSpeed);
      config.SetFlag(VisibleKey, isVisible);
    }

    method ToggleVisibility()
      modifies this
      ensures isVisible == !old(isVisible)
      ensures movementSpeed == old(movementSpeed) && guiFade == old(guiFade)
    {
      isVisible := !isVisible;
    }

    /** `DrawGUI` during one frame of length `dt`: the fade update, then the
     *  slider and at most one button. */
    method DrawGUI(dt: real, drag: Option<real>, button: Option<MainButton>)
      modifies this
      ensures guiFade == Faded(old(guiFade), isVisible, dt) && 0.0 <= guiFade <= 1.0
      ensures movementSpeed == MainPanel(old(movementSpeed), drag, button)
      ensures isVisible == old(isVisible)
    {
      if !isVisible && guiFade > 0.0 {
        guiFade := guiFade - dt;
      } else if isVisible && guiFade < 1.0 {
        guiFade := guiFade + dt;
      }
      guiFade := Clamp01(guiFade);
      movementSpeed := Slider(movementSpeed, drag, MinSpeed, MaxSpeed);
      match button {
        case None =>
        case Some(Decrease) => movementSpeed := Max(MinSpeed, movementSpeed - 1.0);
        case Some(Increase) => movementSpeed := Min(MaxSpeed, movementSpeed + 1.0);
        case Some(ResetSpeed) => movementSpeed := DefaultSpeed;
        case Some(Legit) => movementSpeed := LegitSpeed;
      }
    }

    /** `DrawMiniGUI` during one frame: nothing is drawn, and no button can
     *  be pressed, once the bar is hidden and fully faded. */
    method DrawMiniGUI(button: Option<MiniButton>) returns (drawn: bool)
      modifies this
      ensures drawn <==> isVisible || guiFade > 0.0
      ensures movementSpeed == if drawn && button.Some? then MiniButtonResult(old(movementSpeed), button.value)
                               else old(movementSpeed)
      ensures isVisible == old(isVisible) && guiFade == old(guiFade)
    {
      if !isVisible && guiFade <= 0.0 {
        return false;
      }
      drawn := true;
      match button {
        case None =>
        case Some(Minus) => movementSpeed := movementSpeed - 1.0;
        case Some(Plus) => movementSpeed := movementSpeed + 1.0;
        case Some(MiniReset) => movementSpeed := DefaultSpeed;
        case Some(MiniLegit) => movementSpeed := LegitSpeed;
      }
    }

    method ApplySettings(player: Option<Player>, input: Input, dt: real) returns (player': Option<Player>)
      ensures player' == Pushed(player, input, movementSpeed, dt)
    {
      player' := player;
      if player.Some? && input.rightPrimary {
        var p := player.value;
        player' := Some(p.(position := Add(p.position, Scale(Scale(p.forward, movementSpeed), dt))));
      }
    }
  }
}
