/** Constants, status enums and touchdown tables of the Windows build's
    vessel header. */
module WindowsHeader {
  import opened OrbiterApi
  import opened Actuator

  /** Progress per second of the gear and the door. */
  const LANDING_GEAR_OPERATING_SPEED: real := 0.25

  // enum LandingGearStatus
  const GEAR_DOWN: int := 0
  const GEAR_UP: int := 1
  const GEAR_DEPLOYING: int := 2
  const GEAR_STOWING: int := 3

  // enum DoorStatus
  const DOOR_CLOSED: int := 0
  const DOOR_OPEN: int := 1
  const DOOR_CLOSING: int := 2
  const DOOR_OPENING: int := 3

  /** Touchdown points with the gear down: the nose wheel, the two main
      wheels, then the airframe points. */
  const NTDVTX_GEARDOWN: int := 13
  const TDVTX_GEARDOWN: seq<TouchdownVtx> := [
    TouchdownVtx(At(Vec3(-0.0676, -4.9817, 27.4759)), 10e6, 5e5, 1.6, 0.1),
    TouchdownVtx(At(Vec3(-15.0517, -4.9817, -27.4003)), 10e6, 5e5, 1.6, 0.1),
    TouchdownVtx(At(Vec3(15.0901, -4.9817, -27.4759)), 10e6, 5e5, 1.6, 0.1),

    TouchdownVtx(At(Vec3(-0.0412, -2.6323, -2.1116)), 1e7, 1e5, 3.0),
    TouchdownVtx(At(Vec3(-4.0892, -1.7353, -24.3643)), 1e7, 1e5, 3.0),
    TouchdownVtx(At(Vec3(4.0243, -1.7353, -24.3847)), 1e7, 1e5),
    TouchdownVtx(At(Vec3(-15.8078, 0.2901, -27.8032)), 1e7, 1e5, 3.0),
    TouchdownVtx(At(Vec3(15.6921, 0.2901, -27.8822)), 1e7, 1e5, 3.0),
    TouchdownVtx(At(Vec3(4.4373, 5.0727, -26.0741)), 1e7, 1e5, 3.0),
    TouchdownVtx(At(Vec3(-4.5627, 5.0727, -26.0515)), 1e7, 1e5, 3.0),
    TouchdownVtx(At(Vec3(-4.4162, 8.3727, -20.6627)), 1e7, 1e5, 3.0),
    TouchdownVtx(At(Vec3(0.0033, 2.3737, 15.4707)), 1e7, 1e5, 3.0),
    TouchdownVtx(At(Vec3(0.0001, 0.0308, 29.9769)), 1e7, 1e5, 3.0)
  ]

  /** Touchdown points with the gear up: the airframe points only. */
  const NTDVTX_GEARUP: int := 10
  const TDVTX_GEARUP: seq<TouchdownVtx> := [
    TouchdownVtx(At(Vec3(-0.0412, -2.6323, -2.1116)), 1e7, 1e5, 3.0),
    TouchdownVtx(At(Vec3(-4.0892, -1.7353, -24.3643)), 1e7, 1e5, 3.0),
    TouchdownVtx(At(Vec3(4.0243, -1.7353, -24.3847)), 1e7, 1e5),
    TouchdownVtx(At(Vec3(-15.8078, 0.2901, -27.8032)), 1e7, 1e5, 3.0),
    TouchdownVtx(At(Vec3(15.6921, 0.2901, -27.8822)), 1e7, 1e5, 3.0),
    TouchdownVtx(At(Vec3(4.4373, 5.0727, -26.0741)), 1e7, 1e5, 3.0),
    TouchdownVtx(At(Vec3(-4.5627, 5.0727, -26.0515)), 1e7, 1e5, 3.0),
    TouchdownVtx(At(Vec3(-4.4162, 8.3727, -20.6627)), 1e7, 1e5, 3.0),
    TouchdownVtx(At(Vec3(0.0033, 2.3737, 15.4707)), 1e7, 1e5, 3.0),
    TouchdownVtx(At(Vec3(0.0001, 0.0308, 29.9769)), 1e7, 1e5, 3.0)
  ]

  /** Both enums are declared in the actuator order, so the update's test
      `status >= GEAR_DEPLOYING` (or `>= DOOR_CLOSING`) picks exactly the
      two moving values, and GEAR_DEPLOYING drives progress toward 0:
      progress 0 is gear down, door closed. */
  lemma EnumsFollowActuatorOrder(s: int)
    ensures GEAR_DOWN == AT_ZERO && GEAR_UP == AT_ONE
    ensures GEAR_DEPLOYING == TOWARD_ZERO && GEAR_STOWING == TOWARD_ONE
    ensures DOOR_CLOSED == AT_ZERO && DOOR_OPEN == AT_ONE
    ensures DOOR_CLOSING == TOWARD_ZERO && DOOR_OPENING == TOWARD_ONE
    ensures GEAR_DOWN <= s <= GEAR_STOWING ==>
              (s >= GEAR_DEPLOYING <==> s == GEAR_DEPLOYING || s == GEAR_STOWING)
    ensures DOOR_CLOSED <= s <= DOOR_OPENING ==>
              (s >= DOOR_CLOSING <==> s == DOOR_CLOSING || s == DOOR_OPENING)
  {
  }

  /** The declared counts match the initialisers, and the gear-down set is
      the three wheel points followed by the whole gear-up set, in order. */
  lemma TouchdownTables()
    ensures |TDVTX_GEARDOWN| == NTDVTX_GEARDOWN && |TDVTX_GEARUP| == NTDVTX_GEARUP
    ensures NTDVTX_GEARDOWN == NTDVTX_GEARUP + 3
    ensures TDVTX_GEARDOWN[3..] == TDVTX_GEARUP
  {
  }

  /** From rest at 0, an actuator heading for 1 reaches it exactly when the
      tick lengths add up to at least 4 seconds. */
  lemma {:induction false} FullTravelTakesFourSeconds(simdts: seq<real>)
    requires NonNegative(simdts)
    ensures Run(State(TOWARD_ONE, 0.0), Ticks(simdts, LANDING_GEAR_OPERATING_SPEED)).proc == 1.0
            <==> Sum(simdts) >= 4.0
  {
    TicksNonNegative(simdts, LANDING_GEAR_OPERATING_SPEED);
    RunTowardOne(State(TOWARD_ONE, 0.0), Ticks(simdts, LANDING_GEAR_OPERATING_SPEED));
    SumTicks(simdts, LANDING_GEAR_OPERATING_SPEED);
  }
}
