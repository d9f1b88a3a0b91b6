/** The controller-position prediction step: each frame, while prediction is
 *  switched on, the velocity of each hand relative to the body is smoothed by
 *  an exponential moving average, and the hand is moved ahead along it by an
 *  amount proportional to the prediction strength. */
module Prediction {
  import opened Wrappers
  import opened Vectors
  import opened Config
  import opened Host
  import opened Widgets

  const DefaultStrength: real := 0.0
  const DefaultSmoothing: real := 0.1
  /** At or below this strength prediction is off. */
  const OffThreshold: real := 0.01
  /** The look-ahead time, in seconds, per unit of strength. */
  const LookAheadPerStrength: real := 0.005

  const StrengthKey: Key := Key("Prediction", "Strength")
  const SmoothingKey: Key := Key("Prediction", "SmoothingFactor")

  // ---------------------------------------------------------------------
  // One smoothing step

  /** The hand's velocity relative to the body over the last frame. */
  function RelativeVelocity(position: Vec3, lastPosition: Vec3, dt: real, bodyVelocity: Vec3): Vec3
    requires dt != 0.0
  {
    Sub(Div(Sub(position, lastPosition), dt), bodyVelocity)
  }

  /** One step of the moving average: weight `s` on the new sample and
   *  `1 - s` on the previous average. */
  function Smoothed(sample: Vec3, last: Vec3, s: real): Vec3
  {
    Add(Scale(sample, s), Scale(last, 1.0 - s))
  }

  /** `x` lies between `a` and `b`, in whichever order they come. */
  predicate Between(x: real, a: real, b: real)
  {
    (a <= x <= b) || (b <= x <= a)
  }

  lemma ScaledBetween(d: real, p: real)
    requires 0.0 <= p <= 1.0
    ensures Between(d * p, 0.0, d)
  {
    if d >= 0.0 {
      assert d * p >= 0.0;
      assert d - d * p == d * (1.0 - p) >= 0.0;
    } else {
      assert (-d) * p >= 0.0;
      assert d * p - d == (-d) * (1.0 - p) >= 0.0;
    }
  }

  /** A point whose distance from `a` is a fraction `p` of the way to `b`
   *  lies between the two. */
  lemma BetweenByGap(v: real, a: real, b: real, p: real)
    requires 0.0 <= p <= 1.0 && v - a == (b - a) * p
    ensures Between(v, a, b)
  {
    var d := b - a;
    var q := d * p;
    ScaledBetween(d, p);
    assert v == a + q;
  }

  /** With a weight in [0, 1] (the slider keeps it in [0.01, 0.5]) every
   *  component of the new average lies between the new sample and the
   *  previous average. */
  lemma SmoothedIsConvex(sample: Vec3, last: Vec3, s: real)
    requires 0.0 <= s <= 1.0
    ensures var v := Smoothed(sample, last, s);
      Between(v.x, sample.x, last.x) && Between(v.y, sample.y, last.y) && Between(v.z, sample.z, last.z)
  {
    var v := Smoothed(sample, last, s);
    assert v.x - last.x == (sample.x - last.x) * s;
    assert v.y - last.y == (sample.y - last.y) * s;
    assert v.z - last.z == (sample.z - last.z) * s;
    BetweenByGap(v.x, last.x, sample.x, s);
    BetweenByGap(v.y, last.y, sample.y, s);
    BetweenByGap(v.z, last.z, sample.z, s);
  }

  /** A sample equal to the previous average leaves the average where it is. */
  lemma SmoothedFixedPoint(v: Vec3, s: real)
    ensures Smoothed(v, v, s) == v
  {
    assert v.x * s + v.x * (1.0 - s) == v.x;
    assert v.y * s + v.y * (1.0 - s) == v.y;
    assert v.z * s + v.z * (1.0 - s) == v.z;
  }

  /** The average after `n` frames that all see the same sample. */
  function SmoothedRepeatedly(sample: Vec3, last: Vec3, s: real, n: nat): Vec3
  {
    if n == 0 then last else Smoothed(sample, SmoothedRepeatedly(sample, last, s, n - 1), s)
  }

  /** With a weight in [0, 1], frames that all see the same sample move the
   *  average towards it and never past it: after any number of frames every
   *  component still lies between the sample and where it started. */
  lemma {:induction false} SmoothingNeverOvershoots(sample: Vec3, last: Vec3, s: real, n: nat)
    requires 0.0 <= s <= 1.0
    ensures var v := SmoothedRepeatedly(sample, last, s, n);
      Between(v.x, sample.x, last.x) && Between(v.y, sample.y, last.y) && Between(v.z, sample.z, last.z)
  {
    if n > 0 {
      var prev := SmoothedRepeatedly(sample, last, s, n - 1);
      SmoothingNeverOvershoots(sample, last, s, n - 1);
      SmoothedIsConvex(sample, prev, s);
    }
  }

  /** `b` to the power `n`. */
  function Pow(b: real, n: nat): real
  {
    if n == 0 then 1.0 else b * Pow(b, n - 1)
  }

  lemma GapStep(a: real, l: real, s: real)
    ensures a * s + l * (1.0 - s) - a == (l - a) * (1.0 - s)
  {
  }

  lemma ScaleTwice(d: Vec3, p: real, q: real)
    ensures Scale(Scale(d, p), q) == Scale(d, q * p)
  {
    assert d.x * p * q == d.x * (q * p);
    assert d.y * p * q == d.y * (q * p);
    assert d.z * p * q == d.z * (q * p);
  }

  lemma ScaledTwice(g: Vec3, g0: Vec3, d: Vec3, p: real, q: real, pq: real)
    requires g == Scale(g0, q) && g0 == Scale(d, p) && pq == q * p
    ensures g == Scale(d, pq)
  {
    ScaleTwice(d, p, q);
  }

  /** One frame shrinks the distance from the average to the sample by the
   *  factor `1 - s`. */
  lemma SmoothedGap(sample: Vec3, last: Vec3, s: real)
    ensures Sub(Smoothed(sample, last, s), sample) == Scale(Sub(last, sample), 1.0 - s)
  {
    GapStep(sample.x, last.x, s);
    GapStep(sample.y, last.y, s);
    GapStep(sample.z, last.z, s);
  }

  /** After `n` frames that all see the same sample, the distance from the
   *  average to the sample is the initial distance times `(1 - s)^n`: the
   *  average converges to the sample geometrically. */
  lemma {:induction false} SmoothingConverges(sample: Vec3, last: Vec3, s: real, n: nat)
    ensures Sub(SmoothedRepeatedly(sample, last, s, n), sample) == Scale(Sub(last, sample), Pow(1.0 - s, n))
  {
    var d := Sub(last, sample);
    if n == 0 {
      assert Scale(d, 1.0) == d;
    } else {
      var prev := SmoothedRepeatedly(sample, last, s, n - 1);
      SmoothingConverges(sample, last, s, n - 1);
      SmoothedGap(sample, prev, s);
      assert SmoothedRepeatedly(sample, last, s, n) == Smoothed(sample, prev, s);
      assert Pow(1.0 - s, n) == (1.0 - s) * Pow(1.0 - s, n - 1);
      ScaledTwice(Sub(SmoothedRepeatedly(sample, last, s, n), sample), Sub(prev, sample), d,
                  Pow(1.0 - s, n - 1), 1.0 - s, Pow(1.0 - s, n));
    }
  }

  /** With a weight in (0, 1] the factor `(1 - s)^n` lies in [0, 1) once a
   *  frame has passed, so the distance to the sample never grows and
   *  strictly shrinks. */
  lemma {:induction false} DecayFactorBounds(s: real, n: nat)
    requires 0.0 < s <= 1.0
    ensures 0.0 <= Pow(1.0 - s, n) <= 1.0
    ensures n > 0 ==> Pow(1.0 - s, n) < 1.0
  {
    if n > 0 {
      DecayFactorBounds(s, n - 1);
      var b := 1.0 - s;
      var p := Pow(b, n - 1);
      assert Pow(b, n) == b * p;
      assert 0.0 <= b * p by {
        assert 0.0 <= b && 0.0 <= p;
      }
      assert b * p <= p by {
        assert p - b * p == p * (1.0 - b) >= 0.0;
      }
      assert b * p <= b by {
        assert b - b * p == b * (1.0 - p) >= 0.0;
      }
    }
  }

  // ---------------------------------------------------------------------
  // Extrapolation

  /** `PredictFuturePosition`: the position moved along `velocity` for
   *  `strength * 0.005` seconds. */
  function PredictFuturePosition(position: Vec3, velocity: Vec3, strength: real): Vec3
  {
    Add(position, Scale(velocity, strength * LookAheadPerStrength))
  }

  /** The prediction is the position plus an offset that is zero at strength
   *  zero, zero for a hand at rest, and grows in proportion to the strength. */
  lemma PredictionOffset(position: Vec3, velocity: Vec3, strength: real, k: real)
    ensures PredictFuturePosition(position, velocity, 0.0) == position
    ensures PredictFuturePosition(position, Zero, strength) == position
    ensures Sub(PredictFuturePosition(position, velocity, k * strength), position)
         == Scale(Sub(PredictFuturePosition(position, velocity, strength), position), k)
  {
    var c := strength * LookAheadPerStrength;
    assert velocity.x * (k * strength * LookAheadPerStrength) == velocity.x * c * k;
    assert velocity.y * (k * strength * LookAheadPerStrength) == velocity.y * c * k;
    assert velocity.z * (k * strength * LookAheadPerStrength) == velocity.z * c * k;
  }

  // ---------------------------------------------------------------------
  // The frame step, as a function of the tracking state

  /** The process-wide tracking state the step reads and writes. */
  datatype Tracking = Tracking(
    lastLeftPosition: Vec3,
    lastRightPosition: Vec3,
    lastLeftVelocity: Vec3,
    lastRightVelocity: Vec3,
    playerVelocity: Vec3,
    deltaTime: real)

  /** Prediction runs only when there is a player and the strength is above
   *  the off threshold. */
  predicate Predicting(strength: real, player: Option<Player>)
  {
    player.Some? && strength > OffThreshold
  }

  /** `ApplySettings` for one frame with frame time `dt`: the new tracking
   *  state and the player with its two hands moved. */
  function PredictStep(t: Tracking, strength: real, s: real, player: Option<Player>, dt: real): (Tracking, Option<Player>)
    requires Predicting(strength, player) ==> dt != 0.0
  {
    if !Predicting(strength, player) then (t, player)
    else
      var p := player.value;
      var lv := Smoothed(RelativeVelocity(p.leftHand, t.lastLeftPosition, dt, p.averagedVelocity), t.lastLeftVelocity, s);
      var rv := Smoothed(RelativeVelocity(p.rightHand, t.lastRightPosition, dt, p.averagedVelocity), t.lastRightVelocity, s);
      (Tracking(p.leftHand, p.rightHand, lv, rv, p.averagedVelocity, dt),
       Some(p.(leftHand := PredictFuturePosition(p.leftHand, lv, strength),
               rightHand := PredictFuturePosition(p.rightHand, rv, strength))))
  }

  /** Without a player, or at a strength at or below 0.01, the step changes
   *  nothing at all. */
  lemma StepGatedOff(t: Tracking, strength: real, s: real, player: Option<Player>, dt: real)
    requires player.None? || strength <= OffThreshold
    ensures PredictStep(t, strength, s, player, dt) == (t, player)
  {
  }

  /** When it runs, the step remembers the hand positions read this frame,
   *  not the predicted ones it writes, and moves nothing but the two hands;
   *  the left hand's prediction depends only on left-hand history. */
  lemma StepRemembersReadPositions(t: Tracking, strength: real, s: real, p: Player, dt: real)
    requires strength > OffThreshold && dt != 0.0
    ensures var (t', player') := PredictStep(t, strength, s, Some(p), dt);
      && t'.lastLeftPosition == p.leftHand
      && t'.lastRightPosition == p.rightHand
      && t'.playerVelocity == p.averagedVelocity
      && t'.deltaTime == dt
      && player'.Some?
      && player'.value.leftHand == PredictFuturePosition(p.leftHand, t'.lastLeftVelocity, strength)
      && player'.value.rightHand == PredictFuturePosition(p.rightHand, t'.lastRightVelocity, strength)
      && player'.value.(leftHand := p.leftHand, rightHand := p.rightHand) == p
      && t'.lastLeftVelocity == Smoothed(RelativeVelocity(p.leftHand, t.lastLeftPosition, dt, p.averagedVelocity), t.lastLeftVelocity, s)
      && t'.lastRightVelocity == Smoothed(RelativeVelocity(p.rightHand, t.lastRightPosition, dt, p.averagedVelocity), t.lastRightVelocity, s)
  {
  }

  /** A hand that moves with the body, from a state whose remembered
   *  velocity is zero, keeps a zero velocity and is not moved. */
  lemma StillHandStaysPut(t: Tracking, strength: real, s: real, p: Player, dt: real)
    requires strength > OffThreshold && dt != 0.0
    requires t.lastLeftVelocity == Zero
    requires p.leftHand == Add(t.lastLeftPosition, Scale(p.averagedVelocity, dt))
    ensures var (t', player') := PredictStep(t, strength, s, Some(p), dt);
      t'.lastLeftVelocity == Zero && player'.value.leftHand == p.leftHand
  {
    var rel := RelativeVelocity(p.leftHand, t.lastLeftPosition, dt, p.averagedVelocity);
    var d := Sub(p.leftHand, t.lastLeftPosition);
    assert d == Scale(p.averagedVelocity, dt);
    assert d.x / dt == p.averagedVelocity.x;
    assert d.y / dt == p.averagedVelocity.y;
    assert d.z / dt == p.averagedVelocity.z;
    assert rel == Zero;
    SmoothedFixedPoint(Zero, s);
    PredictionOffset(p.leftHand, Zero, strength, 1.0);
  }

  // ---------------------------------------------------------------------
  // The status line and the preset buttons

  datatype Status = Off | ActiveLow | ActiveMedium | ActiveHigh

  /** The status line under the presets. */
  function StatusOf(strength: real): Status
  {
    if strength <= OffThreshold then Off
    else if strength < 5.0 then ActiveLow
    else if strength < 20.0 then ActiveMedium
    else ActiveHigh
  }

  function Rank(st: Status): nat
  {
    match st
    case Off => 0
    case ActiveLow => 1
    case ActiveMedium => 2
    case ActiveHigh => 3
  }

  /** Each status covers exactly one interval of strengths. */
  lemma StatusIntervals(strength: real)
    ensures StatusOf(strength) == Off <==> strength <= 0.01
    ensures StatusOf(strength) == ActiveLow <==> 0.01 < strength < 5.0
    ensures StatusOf(strength) == ActiveMedium <==> 5.0 <= strength < 20.0
    ensures StatusOf(strength) == ActiveHigh <==> 20.0 <= strength
  {
  }

  /** A stronger setting never shows a lower status. */
  lemma StatusMonotone(a: real, b: real)
    requires a <= b
    ensures Rank(StatusOf(a)) <= Rank(StatusOf(b))
  {
  }

  /** The status says "OFF" exactly when a frame with a player does not
   *  predict. */
  lemma StatusMatchesGate(strength: real, p: Player)
    ensures StatusOf(strength) == Off <==> !Predicting(strength, Some(p))
  {
  }

  datatype PredictionPreset = OffPreset | VeryLow | Low | Pico | RiftS | Valve | Medium | High | Extreme

  function PresetStrength(p: PredictionPreset): real
  {
    match p
    case OffPreset => 0.0
    case VeryLow => 1.0
    case Low => 2.1
    case Pico => 6.0
    case RiftS => 7.34
    case Valve => 4.92
    case Medium => 15.0
    case High => 30.0
    case Extreme => 50.0
  }

  /** Every preset lies on the strength slider's track, and the status each
   *  one shows: "Off" is off, "Very Low", "Low" and "Valve" are low, "Pico",
   *  "RiftS" and "Medium" are medium, "High" and "Extreme" are high. */
  lemma PresetStatuses(p: PredictionPreset)
    ensures 0.0 <= PresetStrength(p) <= 100.0
    ensures StatusOf(PresetStrength(p)) == (match p
      case OffPreset => Off
      case VeryLow | Low | Valve => ActiveLow
      case Pico | RiftS | Medium => ActiveMedium
      case High | Extreme => ActiveHigh)
  {
  }

  /** The strength after one frame of the panel: the slider (0 to 100), then
   *  at most one preset button, which wins over the slider. */
  function EditedStrength(strength: real, drag: Option<real>, preset: Option<PredictionPreset>): real
  {
    match preset
    case None => Slider(strength, drag, 0.0, 100.0)
    case Some(p) => PresetStrength(p)
  }

  /** A frame in which the user touches the strength control leaves it on
   *  [0, 100]; a strength already there stays there; a preset sets exactly
   *  its own value. */
  lemma EditedStrengthOnTrack(strength: real, drag: Option<real>, preset: Option<PredictionPreset>)
    ensures (drag.Some? || preset.Some? || 0.0 <= strength <= 100.0) ==>
      0.0 <= EditedStrength(strength, drag, preset) <= 100.0
    ensures preset.Some? ==> EditedStrength(strength, drag, preset) == PresetStrength(preset.value)
    ensures drag.None? && preset.None? ==> EditedStrength(strength, drag, preset) == strength
  {
    if preset.Some? {
      PresetStatuses(preset.value);
    }
  }

  // ---------------------------------------------------------------------
  // Persisted settings

  /** The entries after `SaveSettings`. */
  function SavedPrediction(reals: map<Key, real>, strength: real, smoothing: real): (r: map<Key, real>)
    ensures r.Keys == reals.Keys + {StrengthKey, SmoothingKey}
  {
    reals[StrengthKey := strength][SmoothingKey := smoothing]
  }

  /** The two values `LoadSettings` reads: stored ones, else 0 and 0.1. */
  function LoadedPrediction(reals: map<Key, real>): (real, real)
  {
    (Lookup(reals, StrengthKey, DefaultStrength), Lookup(reals, SmoothingKey, DefaultSmoothing))
  }

  /** Saving then loading gives back the values saved, and saving leaves
   *  every other entry alone. */
  lemma SaveThenLoad(reals: map<Key, real>, strength: real, smoothing: real)
    ensures LoadedPrediction(SavedPrediction(reals, strength, smoothing)) == (strength, smoothing)
    ensures forall k :: k in reals && k != StrengthKey && k != SmoothingKey ==>
      SavedPrediction(reals, strength, smoothing)[k] == reals[k]
  {
    assert StrengthKey != SmoothingKey;
  }

  /** Loading from a file without the entries gives the same values as
   *  `ResetSettings`. */
  lemma LoadFromEmpty()
    ensures LoadedPrediction(map[]) == (DefaultStrength, DefaultSmoothing)
    ensures StatusOf(LoadedPrediction(map[]).0) == Off
  {
  }

  // ---------------------------------------------------------------------
  // The manager

  /** The prediction manager. Its settings and tracking vectors are static
   *  in the plugin; one object holds them here. */
  class PredictionManager {
    var predictionStrength: real
    var smoothingFactor: real
    var lastLeftPosition: Vec3
    var lastRightPosition: Vec3
    var playerVelocity: Vec3
    var lastLeftVelocity: Vec3
    var lastRightVelocity: Vec3
    var deltaTime: real
    const config: ConfigFile

    /** The settings start at their static initialisers (0 and 0.1); the
     *  constructor zeroes the four tracking vectors. */
    constructor (config: ConfigFile)
      ensures this.config == config
      ensures predictionStrength == DefaultStrength && smoothingFactor == DefaultSmoothing
      ensures Tracked() == Tracking(Zero, Zero, Zero, Zero, Zero, 0.0)
    {
      this.config := config;
      predictionStrength := DefaultStrength;
      smoothingFactor := DefaultSmoothing;
      playerVelocity := Zero;
      deltaTime := 0.0;
      lastLeftPosition := Zero;
      lastRightPosition := Zero;
      lastLeftVelocity := Zero;
      lastRightVelocity := Zero;
    }

    function Tracked(): Tracking
      reads this
    {
      Tracking(lastLeftPosition, lastRightPosition, lastLeftVelocity, lastRightVelocity, playerVelocity, deltaTime)
    }

    method LoadSettings()
      modifies this, config
      ensures (predictionStrength, smoothingFactor) == LoadedPrediction(old(config.reals))
      ensures config.reals == Bound(Bound(old(config.reals), StrengthKey, DefaultStrength), SmoothingKey, DefaultSmoothing)
      ensures config.flags == old(config.flags) && Tracked() == old(Tracked())
    {
      predictionStrength := config.BindReal(StrengthKey, DefaultStrength);
      smoothingFactor := config.BindReal(SmoothingKey, DefaultSmoothing);
    }

    method SaveSettings()
      modifies config
      ensures config.reals == SavedPrediction(old(config.reals), predictionStrength, smoothingFactor)
      ensures config.flags == old(config.flags)
    {
      config.SetReal(StrengthKey, predictionStrength);
      config.SetReal(SmoothingKey, smoothingFactor);
    }

    /** `DrawGUI` during one frame: the two sliders, then at most one preset
     *  button; the status line shown is returned. */
    method DrawGUI(strengthDrag: Option<real>, smoothingDrag: Option<real>, preset: Option<PredictionPreset>)
      returns (status: Status)
      modifies this
      ensures predictionStrength == EditedStrength(old(predictionStrength), strengthDrag, preset)
      ensures smoothingFactor == Slider(old(smoothingFactor), smoothingDrag, 0.01, 0.5)
      ensures status == StatusOf(predictionStrength)
      ensures Tracked() == old(Tracked())
    {
      predictionStrength := Slider(predictionStrength, strengthDrag, 0.0, 100.0);
      smoothingFactor := Slider(smoothingFactor, smoothingDrag, 0.01, 0.5);
      match preset {
        case None =>
        case Some(p) => predictionStrength := PresetStrength(p);
      }
      status := StatusOf(predictionStrength);
    }

    /** `ApplySettings` for one frame; `dt` is the frame time, which must not
     *  be zero when prediction runs. */
    method ApplySettings(player: Option<Player>, dt: real) returns (player': Option<Player>)
      requires Predicting(predictionStrength, player) ==> dt != 0.0
      modifies this
      ensures predictionStrength == old(predictionStrength) && smoothingFactor == old(smoothingFactor)
      ensures (Tracked(), player') == PredictStep(old(Tracked()), predictionStrength, smoothingFactor, player, dt)
    {
      if player.None? {
        return player;
      }
      if predictionStrength <= OffThreshold {
        return player;
      }
      player' := ApplyPrediction(player.value, dt);
    }

    method ApplyPrediction(p: Player, dt: real) returns (player': Option<Player>)
      requires dt != 0.0
      modifies this
      ensures var lv := Smoothed(RelativeVelocity(p.leftHand, old(lastLeftPosition), dt, p.averagedVelocity), old(lastLeftVelocity), smoothingFactor);
        var rv := Smoothed(RelativeVelocity(p.rightHand, old(lastRightPosition), dt, p.averagedVelocity), old(lastRightVelocity), smoothingFactor);
        && Tracked() == Tracking(p.leftHand, p.rightHand, lv, rv, p.averagedVelocity, dt)
        && player' == Some(p.(leftHand := PredictFuturePosition(p.leftHand, lv, predictionStrength),
                              rightHand := PredictFuturePosition(p.rightHand, rv, predictionStrength)))
      ensures predictionStrength == old(predictionStrength) && smoothingFactor == old(smoothingFactor)
    {
      deltaTime := dt;
      playerVelocity := p.averagedVelocity;
      var leftPosition := p.leftHand;
      var rightPosition := p.rightHand;
      var leftVelocity := Add(Scale(Sub(Div(Sub(leftPosition, lastLeftPosition), deltaTime), playerVelocity), smoothingFactor),
                              Scale(lastLeftVelocity, 1.0 - smoothingFactor));
      var rightVelocity := Add(Scale(Sub(Div(Sub(rightPosition, lastRightPosition), deltaTime), playerVelocity), smoothingFactor),
                               Scale(lastRightVelocity, 1.0 - smoothingFactor));
      player' := Some(p.(leftHand := PredictFuturePosition(leftPosition, leftVelocity, predictionStrength),
                         rightHand := PredictFuturePosition(rightPosition, rightVelocity, predictionStrength)));
      lastLeftPosition := leftPosition;
      lastRightPosition := rightPosition;
      lastLeftVelocity := leftVelocity;
      lastRightVelocity := rightVelocity;
    }

    /** `ResetSettings`: strength 0 and smoothing 0.1; the tracking state is
     *  kept. */
    method ResetSettings()
      modifies this
      ensures predictionStrength == DefaultStrength && smoothingFactor == DefaultSmoothing
      ensures Tracked() == old(Tracked())
    {
      predictionStrength := DefaultStrength;
      smoothingFactor := DefaultSmoothing;
    }
  }

  /** After a reset the status reads "OFF" and the next frame is a no-op. */
  lemma ResetSwitchesOff(t: Tracking, player: Option<Player>, dt: real)
    ensures StatusOf(DefaultStrength) == Off
    ensures PredictStep(t, DefaultStrength, DefaultSmoothing, player, dt) == (t, player)
  {
  }
}
