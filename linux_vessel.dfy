/** The Linux build's vessel class: landing gear, bay door and nose cone
    driven by keyboard toggles and advanced once per simulation step, the
    two particle-stream levels, and the airfoil table lookups. Host getters
    (Mach number, altitude) become parameters; SetAnimation and
    SetTouchdownPoints become ghost fields holding the last value written. */
module LinuxVessel {
  import opened OrbiterApi
  import opened Actuator
  import opened Effects
  import opened LiftTable
  import opened LinuxHeader

  /** The toggle a buffered key event asks for. */
  datatype KeyAction = NoAction | ToggleGear | ToggleDoor | ToggleNoseCone

  /** Key-down of G, K or C selects the gear, door or nose-cone toggle;
      any other key, and any key-up, selects nothing. */
  function KeyActionOf(key: int, down: bool): (a: KeyAction)
    ensures a == ToggleGear <==> down && key == OAPI_KEY_G
    ensures a == ToggleDoor <==> down && key == OAPI_KEY_K
    ensures a == ToggleNoseCone <==> down && key == OAPI_KEY_C
  {
    if key == OAPI_KEY_G && down then ToggleGear
    else if key == OAPI_KEY_K && down then ToggleDoor
    else if key == OAPI_KEY_C && down then ToggleNoseCone
    else NoAction
  }

  /** The touchdown set after a gear tick that started in `status`: the
      gear-down set on every DEPLOYING tick, the gear-up set on every tick
      above it, untouched when the gear is idle. */
  function TouchdownAfterGearTick(status: int, last: seq<TouchdownVtx>): seq<TouchdownVtx>
  {
    if status == GEAR_DEPLOYING then TDVTX_GEARDOWN
    else if status > GEAR_DEPLOYING then TDVTX_GEARUP
    else last
  }

  class XB70 {
    var landingGearStatus: int
    var landingGearProc: real
    var doorStatus: int
    var doorProc: real
    var noseConeStatus: int
    var noseConeProc: real
    var lvl: real
    var lvlContrailCanards: real

    /** Last set passed to SetTouchdownPoints; empty before the first. */
    ghost var touchdown: seq<TouchdownVtx>
    /** Last value passed to SetAnimation for each animation; each animation
        is created at state 0. */
    ghost var gearAnimation: real
    ghost var doorAnimation: real
    ghost var noseConeAnimation: real

    function Gear(): State reads this { State(landingGearStatus, landingGearProc) }
    function Door(): State reads this { State(doorStatus, doorProc) }
    function NoseCone(): State reads this { State(noseConeStatus, noseConeProc) }

    ghost predicate Valid()
      reads this
    {
      Consistent(Gear()) && Consistent(Door()) && Consistent(NoseCone())
    }

    /** The constructor, with the nose cone put at rest at 0 the way the
        gear and the door are. */
    constructor ()
      ensures Gear() == State(GEAR_DOWN, 0.0) && Door() == State(DOOR_CLOSED, 0.0)
      ensures NoseCone() == State(NOSEC_DEPLOYED, 0.0)
      ensures touchdown == [] && gearAnimation == 0.0 && doorAnimation == 0.0 && noseConeAnimation == 0.0
      ensures Valid()
    {
      landingGearProc := 0.0;
      doorProc := 0.0;
      noseConeProc := 0.0;
      landingGearStatus := GEAR_DOWN;
      doorStatus := DOOR_CLOSED;
      noseConeStatus := NOSEC_DEPLOYED;
      touchdown := [];
      gearAnimation, doorAnimation, noseConeAnimation := 0.0, 0.0, 0.0;
    }

    /** The constructor as written: the nose-cone status and progress (and
        the two levels) are left holding whatever they held. */
    constructor AsWritten()
      ensures Gear() == State(GEAR_DOWN, 0.0) && Door() == State(DOOR_CLOSED, 0.0)
      ensures touchdown == [] && gearAnimation == 0.0 && doorAnimation == 0.0 && noseConeAnimation == 0.0
    {
      landingGearProc := 0.0;
      doorProc := 0.0;
      landingGearStatus := GEAR_DOWN;
      doorStatus := DOOR_CLOSED;
      touchdown := [];
      gearAnimation, doorAnimation, noseConeAnimation := 0.0, 0.0, 0.0;
    }

    method ActivateLandingGear(action: int)
      modifies this`landingGearStatus
      ensures landingGearStatus == action
    {
      landingGearStatus := action;
    }

    method ActivateDoor(action: int)
      modifies this`doorStatus
      ensures doorStatus == action
    {
      doorStatus := action;
    }

    method ActivateNoseCone(action: int)
      modifies this`noseConeStatus
      ensures noseConeStatus == action
    {
      noseConeStatus := action;
    }

    /** Gear toggle: DOWN or DEPLOYING turns to STOWING, anything else to
        DEPLOYING; progress is not touched. */
    method SetGearDown()
      modifies this`landingGearStatus
      ensures landingGearStatus == Toggled(old(landingGearStatus))
      ensures old(Valid()) ==> Valid()
    {
      ActivateLandingGear(
        if landingGearStatus == GEAR_DOWN || landingGearStatus == GEAR_DEPLOYING then GEAR_STOWING
        else GEAR_DEPLOYING);
    }

    /** Door toggle: CLOSED or CLOSING turns to OPENING, anything else to
        CLOSING; progress is not touched. */
    method CloseDoor()
      modifies this`doorStatus
      ensures doorStatus == Toggled(old(doorStatus))
      ensures old(Valid()) ==> Valid()
    {
      ActivateDoor(
        if doorStatus == DOOR_CLOSED || doorStatus == DOOR_CLOSING then DOOR_OPENING
        else DOOR_CLOSING);
    }

    /** Nose-cone toggle: DEPLOYED or DEPLOYING turns to STOWING, anything
        else to DEPLOYING; progress is not touched. */
    method DeployNoseCone()
      modifies this`noseConeStatus
      ensures noseConeStatus == Toggled(old(noseConeStatus))
      ensures old(Valid()) ==> Valid()
    {
      ActivateNoseCone(
        if noseConeStatus == NOSEC_DEPLOYED || noseConeStatus == NOSEC_DEPLOYING then NOSEC_STOWING
        else NOSEC_DEPLOYING);
    }

    /** One gear tick. Besides the actuator step, every moving tick rewrites
        the touchdown set and the animation state. */
    method UpdateLandingGearAnimation(simdt: real)
      modifies this`landingGearStatus, this`landingGearProc, this`touchdown, this`gearAnimation
      ensures Gear() == Advance(old(Gear()), simdt * LANDING_GEAR_OPERATING_SPEED)
      ensures touchdown == TouchdownAfterGearTick(old(landingGearStatus), old(touchdown))
      ensures gearAnimation == if old(landingGearStatus) >= GEAR_DEPLOYING then landingGearProc else old(gearAnimation)
    {
      if landingGearStatus >= GEAR_DEPLOYING {
        var da := simdt * LANDING_GEAR_OPERATING_SPEED;
        if landingGearStatus == GEAR_DEPLOYING {
          if landingGearProc > 0.0 {
            landingGearProc := Max(0.0, landingGearProc - da);
          } else {
            landingGearStatus := GEAR_DOWN;
          }
          touchdown := TDVTX_GEARDOWN;
        } else {
          if landingGearProc < 1.0 {
            landingGearProc := Min(1.0, landingGearProc + da);
          } else {
            landingGearStatus := GEAR_UP;
          }
          touchdown := TDVTX_GEARUP;
        }
        gearAnimation := landingGearProc;
      }
    }

    /** One door tick: CLOSING toward 0, OPENING toward 1; no touchdown
        change. */
    method UpdateDoorAnimation(simdt: real)
      modifies this`doorStatus, this`doorProc, this`doorAnimation
      ensures Door() == Advance(old(Door()), simdt * LANDING_GEAR_OPERATING_SPEED)
      ensures doorAnimation == if old(doorStatus) >= DOOR_CLOSING then doorProc else old(doorAnimation)
    {
      if doorStatus >= DOOR_CLOSING {
        var da := simdt * LANDING_GEAR_OPERATING_SPEED;
        if doorStatus == DOOR_CLOSING {
          if doorProc > 0.0 {
            doorProc := Max(0.0, doorProc - da);
          } else {
            doorStatus := DOOR_CLOSED;
          }
        } else {
          if doorProc < 1.0 {
            doorProc := Min(1.0, doorProc + da);
          } else {
            doorStatus := DOOR_OPEN;
          }
        }
        doorAnimation := doorProc;
      }
    }

    /** One nose-cone tick: NOSEC_DEPLOYING toward 0, NOSEC_STOWING toward 1;
        no touchdown change. */
    method UpdateNoseConeAnimation(simdt: real)
      modifies this`noseConeStatus, this`noseConeProc, this`noseConeAnimation
      ensures NoseCone() == Advance(old(NoseCone()), simdt * LANDING_GEAR_OPERATING_SPEED)
      ensures noseConeAnimation == if old(noseConeStatus) >= NOSEC_DEPLOYING then noseConeProc else old(noseConeAnimation)
    {
      if noseConeStatus >= NOSEC_DEPLOYING {
        var da := simdt * LANDING_GEAR_OPERATING_SPEED;
        if noseConeStatus == NOSEC_DEPLOYING {
          if noseConeProc > 0.0 {
            noseConeProc := Max(0.0, noseConeProc - da);
          } else {
            noseConeStatus := NOSEC_DEPLOYED;
          }
        } else {
          if noseConeProc < 1.0 {
            noseConeProc := Min(1.0, noseConeProc + da);
          } else {
            noseConeStatus := NOSEC_STOWED;
          }
        }
        noseConeAnimation := noseConeProc;
      }
    }

    /** clbkPostStep: each actuator advances once, then both levels are
        recomputed. A valid vessel stays valid for a non-negative step. */
    method PostStep(simdt: real, mach: real, altitude: real)
      modifies this
      ensures Gear() == Advance(old(Gear()), simdt * LANDING_GEAR_OPERATING_SPEED)
      ensures NoseCone() == Advance(old(NoseCone()), simdt * LANDING_GEAR_OPERATING_SPEED)
      ensures Door() == Advance(old(Door()), simdt * LANDING_GEAR_OPERATING_SPEED)
      ensures touchdown == TouchdownAfterGearTick(old(landingGearStatus), old(touchdown))
      ensures gearAnimation == if old(landingGearStatus) >= GEAR_DEPLOYING then landingGearProc else old(gearAnimation)
      ensures doorAnimation == if old(doorStatus) >= DOOR_CLOSING then doorProc else old(doorAnimation)
      ensures noseConeAnimation == if old(noseConeStatus) >= NOSEC_DEPLOYING then noseConeProc else old(noseConeAnimation)
      ensures lvl == SoundBarrierLevel(mach)
      ensures lvlContrailCanards == CanardContrailLevel(mach, altitude)
      ensures old(Valid()) && simdt >= 0.0 ==> Valid()
    {
      UpdateLandingGearAnimation(simdt);
      UpdateNoseConeAnimation(simdt);
      UpdateDoorAnimation(simdt);
      lvl := SoundBarrierLevel(mach);
      lvlContrailCanards := CanardContrailLevel(mach, altitude);
    }

    /** clbkConsumeBufferedKey: a G, K or C key-down runs exactly the matching
        toggle and is consumed (1); anything else changes nothing (0). */
    method ConsumeBufferedKey(key: int, down: bool) returns (consumed: int)
      modifies this`landingGearStatus, this`doorStatus, this`noseConeStatus
      ensures consumed == if KeyActionOf(key, down) == NoAction then 0 else 1
      ensures landingGearStatus ==
                if KeyActionOf(key, down) == ToggleGear then Toggled(old(landingGearStatus)) else old(landingGearStatus)
      ensures doorStatus ==
                if KeyActionOf(key, down) == ToggleDoor then Toggled(old(doorStatus)) else old(doorStatus)
      ensures noseConeStatus ==
                if KeyActionOf(key, down) == ToggleNoseCone then Toggled(old(noseConeStatus)) else old(noseConeStatus)
    {
      if key == OAPI_KEY_G && down {
        SetGearDown();
        return 1;
      }
      if key == OAPI_KEY_K && down {
        CloseDoor();
        return 1;
      }
      if key == OAPI_KEY_C && down {
        DeployNoseCone();
        return 1;
      }
      return 0;
    }
  }

  /** A nose-cone state the constructor as written can leave behind moves
      on the first step with no key pressed, and one outside [0, 1] stays
      outside it. */
  lemma UninitialisedNoseCone()
    ensures Advance(State(NOSEC_STOWING, 0.5), 0.02 * LANDING_GEAR_OPERATING_SPEED) == State(NOSEC_STOWING, 0.505)
    ensures !Consistent(Advance(State(NOSEC_DEPLOYING, 7.0), 0.02 * LANDING_GEAR_OPERATING_SPEED))
  {
  }

  /** Raising the gear from the initial state: the first step of 4 s brings
      progress to 1 but the gear is still STOWING with the gear-up touchdown
      set already in place; only the next step settles it at GEAR_UP. */
  method GearRaiseScenario()
  {
    var v := new XB70();
    v.SetGearDown();
    assert v.landingGearStatus == GEAR_STOWING && v.landingGearProc == 0.0;
    v.PostStep(4.0, 0.5, 1000.0);
    assert v.Gear() == State(GEAR_STOWING, 1.0) && v.touchdown == TDVTX_GEARUP;
    v.PostStep(0.02, 0.5, 1000.0);
    assert v.Gear() == State(GEAR_UP, 1.0);
    assert v.NoseCone() == State(NOSEC_DEPLOYED, 0.0) && v.Valid();
  }

  // Airfoil tables; RAD is passed in as `rad`.

  function VLiftAoa(rad: real): seq<real>
  {
    [-180.0 * rad, -60.0 * rad, -30.0 * rad, -15.0 * rad, 0.0 * rad, 15.0 * rad, 30.0 * rad, 60.0 * rad, 180.0 * rad]
  }
  const VLIFT_CL: seq<real> := [0.0, -0.56, -0.56, -0.16, 0.15, 0.46, 0.56, 0.56, 0.00]
  const VLIFT_CM: seq<real> := [0.0, 0.00, 0.00, 0.00, 0.00, 0.00, 0.00, 0.00, 0.00]

  function HLiftBeta(rad: real): seq<real>
  {
    [-180.0 * rad, -135.0 * rad, -90.0 * rad, -45.0 * rad, 45.0 * rad, 90.0 * rad, 135.0 * rad, 180.0 * rad]
  }
  const HLIFT_CL: seq<real> := [0.0, 0.3, 0.0, -0.3, 0.3, 0.0, -0.3, 0.0]

  /** The tables are well formed for any positive RAD, and the moment table
      is all zeros. */
  lemma VLiftTables(rad: real)
    requires rad > 0.0
    ensures |VLiftAoa(rad)| == |VLIFT_CL| == |VLIFT_CM| == 9
    ensures Increasing(VLiftAoa(rad))
    ensures forall k :: 0 <= k < |VLIFT_CM| ==> VLIFT_CM[k] == 0.0
  {
  }

  lemma HLiftTables(rad: real)
    requires rad > 0.0
    ensures |HLiftBeta(rad)| == |HLIFT_CL| == 8
    ensures Increasing(HLiftBeta(rad))
  {
  }

  /** VLiftCoeff without the drag term: the lift coefficient follows the
      table piecewise linearly, and with an all-zero moment table the moment
      coefficient is always 0. */
  method VLiftCoeff(rad: real, aoa: real) returns (cl: real, cm: real)
    requires rad > 0.0
    ensures Increasing(VLiftAoa(rad)) && |VLiftAoa(rad)| == |VLIFT_CL| == 9
    ensures PiecewiseLinear(VLiftAoa(rad), VLIFT_CL, aoa, cl)
    ensures cm == 0.0
  {
    VLiftTables(rad);
    var absc := VLiftAoa(rad);
    var i := Bracket(absc, aoa);
    if i < 8 {
      var f := (aoa - absc[i]) / (absc[i + 1] - absc[i]);
      cl := VLIFT_CL[i] + (VLIFT_CL[i + 1] - VLIFT_CL[i]) * f;
      cm := VLIFT_CM[i] + (VLIFT_CM[i + 1] - VLIFT_CM[i]) * f;
      assert cl == Evaluate(absc, VLIFT_CL, i, aoa);
    } else {
      cl := VLIFT_CL[8];
      cm := VLIFT_CM[8];
    }
    BracketEvaluates(absc, VLIFT_CL, aoa, i);
  }

  /** HLiftCoeff without the drag term: piecewise linear in the sideslip
      angle, and the moment coefficient is set to 0. */
  method HLiftCoeff(rad: real, beta: real) returns (cl: real, cm: real)
    requires rad > 0.0
    ensures Increasing(HLiftBeta(rad)) && |HLiftBeta(rad)| == |HLIFT_CL| == 8
    ensures PiecewiseLinear(HLiftBeta(rad), HLIFT_CL, beta, cl)
    ensures cm == 0.0
  {
    HLiftTables(rad);
    var absc := HLiftBeta(rad);
    var i := Bracket(absc, beta);
    if i < 7 {
      cl := HLIFT_CL[i] + (HLIFT_CL[i + 1] - HLIFT_CL[i]) * (beta - absc[i]) / (absc[i + 1] - absc[i]);
      LerpProductForm(absc[i], absc[i + 1], HLIFT_CL[i], HLIFT_CL[i + 1], beta);
    } else {
      cl := HLIFT_CL[7];
    }
    cm := 0.0;
    BracketEvaluates(absc, HLIFT_CL, beta, i);
  }
}
