/** Constants, status enums and touchdown tables of the Linux build's vessel
    header. */
module LinuxHeader {
  import opened OrbiterApi
  import opened Actuator

  /** Progress per second of every actuator: gear, door and nose cone. */
  const LANDING_GEAR_OPERATING_SPEED: real := 0.25

  // enum LandingGearStatus
  const GEAR_DOWN: int := 0
  const GEAR_UP: int := 1
  const GEAR_DEPLOYING: int := 2
  const GEAR_STOWING: int := 3

  // enum DoorStatus
  const DOOR_CLOSED: int := 0
  const DOOR_OPEN: int := 1
  const DOOR_CLOSING: int := 2
  const DOOR_OPENING: int := 3

  // enum NoseConeStatus: used by the Linux vessel but declared in no header
  // of this build; declared here in the order of the other two enums.
  const NOSEC_DEPLOYED: int := 0
  const NOSEC_STOWED: int := 1
  const NOSEC_DEPLOYING: int := 2
  const NOSEC_STOWING: int := 3

  /** Touchdown points with the gear down: the nose wheel, the two main
      wheels, then the airframe points. */
  const NTDVTX_GEARDOWN: int := 12
  const TDVTX_GEARDOWN: seq<TouchdownVtx> := [
    TouchdownVtx(At(Vec3(-0.0676, -4.9817, 27.4759)), 3e6, 3e5, 1.6, 0.1),
    TouchdownVtx(MeshLocation("TDP_Rear_left_landing_gearLocation"), 3e6, 3e5, 1.6, 0.1),
    TouchdownVtx(MeshLocation("TDP_Rear_right_landing_gearLocation"), 3e6, 3e5, 1.6, 0.1),

    TouchdownVtx(MeshLocation("TDP_FrontLocation"), 1e7, 1e5, 3.0),
    TouchdownVtx(MeshLocation("TDP_Rear_leftLocation"), 1e7, 1e5, 3.0),
    TouchdownVtx(MeshLocation("TDP_Rear_rightLocation"), 1e7, 1e5),
    TouchdownVtx(MeshLocation("TDP_Left_wingLocation"), 1e7, 1e5, 3.0),
    TouchdownVtx(MeshLocation("TDP_Right_wing_tdpLocation"), 1e7, 1e5, 3.0),
    TouchdownVtx(MeshLocation("TDP_Right_aileronLocation"), 1e7, 1e5, 3.0),
    TouchdownVtx(MeshLocation("TDP_Left_aileronLocation"), 1e7, 1e5, 3.0),
    TouchdownVtx(MeshLocation("TDP_Front_fuselageLocation"), 1e7, 1e5, 3.0),
    TouchdownVtx(MeshLocation("TDP_pitot_probeLocation"), 1e7, 1e5, 3.0)
  ]

  /** Touchdown points with the gear up: the airframe points only. */
  const NTDVTX_GEARUP: int := 9
  const TDVTX_GEARUP: seq<TouchdownVtx> := [
    TouchdownVtx(MeshLocation("TDP_FrontLocation"), 1e7, 1e5, 3.0),
    TouchdownVtx(MeshLocation("TDP_Rear_leftLocation"), 1e7, 1e5, 3.0),
    TouchdownVtx(MeshLocation("TDP_Rear_rightLocation"), 1e7, 1e5),
    TouchdownVtx(MeshLocation("TDP_Left_wingLocation"), 1e7, 1e5, 3.0),
    TouchdownVtx(MeshLocation("TDP_Right_wing_tdpLocation"), 1e7, 1e5, 3.0),
    TouchdownVtx(MeshLocation("TDP_Right_aileronLocation"), 1e7, 1e5, 3.0),
    TouchdownVtx(MeshLocation("TDP_Left_aileronLocation"), 1e7, 1e5, 3.0),
    TouchdownVtx(MeshLocation("TDP_Front_fuselageLocation"), 1e7, 1e5, 3.0),
    TouchdownVtx(MeshLocation("TDP_pitot_probeLocation"), 1e7, 1e5, 3.0)
  ]

  /** Each enum is declared in the actuator order, so the update's test
      `status >= X_DEPLOYING` (or `>= DOOR_CLOSING`) picks exactly the two
      moving values, and DEPLOYING drives progress toward 0: progress 0 is
      gear down, door closed, nose cone deployed. */
  lemma EnumsFollowActuatorOrder(s: int)
    ensures GEAR_DOWN == AT_ZERO && GEAR_UP == AT_ONE
    ensures GEAR_DEPLOYING == TOWARD_ZERO && GEAR_STOWING == TOWARD_ONE
    ensures DOOR_CLOSED == AT_ZERO && DOOR_OPEN == AT_ONE
    ensures DOOR_CLOSING == TOWARD_ZERO && DOOR_OPENING == TOWARD_ONE
    ensures NOSEC_DEPLOYED == AT_ZERO && NOSEC_STOWED == AT_ONE
    ensures NOSEC_DEPLOYING == TOWARD_ZERO && NOSEC_STOWING == TOWARD_ONE
    ensures GEAR_DOWN <= s <= GEAR_STOWING ==>
              (s >= GEAR_DEPLOYING <==> s == GEAR_DEPLOYING || s == GEAR_STOWING)
    ensures DOOR_CLOSED <= s <= DOOR_OPENING ==>
              (s >= DOOR_CLOSING <==> s == DOOR_CLOSING || s == DOOR_OPENING)
  {
  }

  /** The declared counts match the initialisers, and the gear-down set is
      the three wheel points followed by the whole gear-up set, in order. */
  lemma TouchdownTables()
    ensures |TDVTX_GEARDOWN| == NTDVTX_GEARDOWN && |TDVTX_GEARUP| == NTDVTX_GEARUP
    ensures NTDVTX_GEARDOWN == NTDVTX_GEARUP + 3
    ensures TDVTX_GEARDOWN[3..] == TDVTX_GEARUP
  {
  }

  /** From rest at 0, an actuator heading for 1 reaches it exactly when the
      tick lengths add up to at least 4 seconds. */
  lemma {:induction false} FullTravelTakesFourSeconds(simdts: seq<real>)
    requires NonNegative(simdts)
    ensures Run(State(TOWARD_ONE, 0.0), Ticks(simdts, LANDING_GEAR_OPERATING_SPEED)).proc == 1.0
            <==> Sum(simdts) >= 4.0
  {
    TicksNonNegative(simdts, LANDING_GEAR_OPERATING_SPEED);
    RunTowardOne(State(TOWARD_ONE, 0.0), Ticks(simdts, LANDING_GEAR_OPERATING_SPEED));
    SumTicks(simdts, LANDING_GEAR_OPERATING_SPEED);
  }
}
