/** What the plugin reads from and writes to the host game, as plain values. */
module Host {
  import opened Vectors

  /** The button states the plugin polls each frame: the two joystick clicks
   *  come from the VR action set, the rest from the controller input poller. */
  datatype Input = Input(
    leftJoystickClick: bool,
    rightJoystickClick: bool,
    leftPrimary: bool,
    leftSecondary: bool,
    leftGrab: bool,
    rightPrimary: bool,
    rightSecondary: bool,
    rightGrab: bool)

  /** The fields of the host's player object that the plugin reads or writes:
   *  the jump tuning, the body position and facing direction, the averaged
   *  body velocity and the two controller positions. */
  datatype Player = Player(
    maxJumpSpeed: real,
    jumpMultiplier: real,
    position: Vec3,
    forward: Vec3,
    averagedVelocity: Vec3,
    leftHand: Vec3,
    rightHand: Vec3)
}
