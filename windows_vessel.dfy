/** The Windows build's vessel class: landing gear and bay door driven by
    keyboard toggles and advanced once per simulation step, the sonic-boom
    particle level, and the airfoil table lookups. The host's Mach-number
    getter becomes a parameter; SetAnimation and SetTouchdownPoints become
    ghost fields holding the last value written. */
module WindowsVessel {
  import opened OrbiterApi
  import opened Actuator
  import opened Effects
  import opened LiftTable
  import opened WindowsHeader

  /** The toggle a buffered key event asks for. */
  datatype KeyAction = NoAction | ToggleGear | ToggleDoor

  /** Key-down of G or K selects the gear or door toggle; every other key
      (C included) and every key-up selects nothing. */
  function KeyActionOf(key: int, down: bool): (a: KeyAction)
    ensures a == ToggleGear <==> down && key == OAPI_KEY_G
    ensures a == ToggleDoor <==> down && key == OAPI_KEY_K
    ensures key == OAPI_KEY_C ==> a == NoAction
  {
    if key == OAPI_KEY_G && down then ToggleGear
    else if key == OAPI_KEY_K && down then ToggleDoor
    else NoAction
  }

  /** The touchdown set after a gear tick that started in `status`: the
      gear-down set on every DEPLOYING tick, the gear-up set on every tick
      above it, untouched when the gear is idle. */
  function TouchdownAfterGearTick(status: int, last: seq<TouchdownVtx>): seq<TouchdownVtx>
  {
    if status == GEAR_DEPLOYING then TDVTX_GEARDOWN
    else if status > GEAR_DEPLOYING then TDVTX_GEARUP
    else last
  }

  class XB70 {
    var landingGearStatus: int
    var landingGearProc: real
    var doorStatus: int
    var doorProc: real
    var lvl: real

    /** Last set passed to SetTouchdownPoints; empty before the first. */
    ghost var touchdown: seq<TouchdownVtx>
    /** Last value passed to SetAnimation for each animation; each animation
        is created at state 0. */
    ghost var gearAnimation: real
    ghost var doorAnimation: real

    function Gear(): State reads this { State(landingGearStatus, landingGearProc) }
    function Door(): State reads this { State(doorStatus, doorProc) }

    ghost predicate Valid()
      reads this
    {
      Consistent(Gear()) && Consistent(Door())
    }

    /** Gear down and door closed, both at progress 0; `lvl` is left holding
        whatever it held until the first step. */
    constructor ()
      ensures Gear() == State(GEAR_DOWN, 0.0) && Door() == State(DOOR_CLOSED, 0.0)
      ensures touchdown == [] && gearAnimation == 0.0 && doorAnimation == 0.0
      ensures Valid()
    {
      landingGearProc := 0.0;
      doorProc := 0.0;
      landingGearStatus := GEAR_DOWN;
      doorStatus := DOOR_CLOSED;
      touchdown := [];
      gearAnimation, doorAnimation := 0.0, 0.0;
    }

    method ActivateLandingGear(action: int)
      modifies this`landingGearStatus
      ensures landingGearStatus == action
    {
      landingGearStatus := action;
    }

    method ActivateDoor(action: int)
      modifies this`doorStatus
      ensures doorStatus == action
    {
      doorStatus := action;
    }

    /** Gear toggle: DOWN or DEPLOYING turns to STOWING, anything else to
        DEPLOYING; progress is not touched. */
    method SetGearDown()
      modifies this`landingGearStatus
      ensures landingGearStatus == Toggled(old(landingGearStatus))
      ensures old(Valid()) ==> Valid()
    {
      ActivateLandingGear(
        if landingGearStatus == GEAR_DOWN || landingGearStatus == GEAR_DEPLOYING then GEAR_STOWING
        else GEAR_DEPLOYING);
    }

    /** Door toggle: CLOSED or CLOSING turns to OPENING, anything else to
        CLOSING; progress is not touched. */
    method CloseDoor()
      modifies this`doorStatus
      ensures doorStatus == Toggled(old(doorStatus))
      ensures old(Valid()) ==> Valid()
    {
      ActivateDoor(
        if doorStatus == DOOR_CLOSED || doorStatus == DOOR_CLOSING then DOOR_OPENING
        else DOOR_CLOSING);
    }

    /** One gear tick. Besides the actuator step, every moving tick rewrites
        the touchdown set and the animation state. */
    method UpdateLandingGearAnimation(simdt: real)
      modifies this`landingGearStatus, this`landingGearProc, this`touchdown, this`gearAnimation
      ensures Gear() == Advance(old(Gear()), simdt * LANDING_GEAR_OPERATING_SPEED)
      ensures touchdown == TouchdownAfterGearTick(old(landingGearStatus), old(touchdown))
      ensures gearAnimation == if old(landingGearStatus) >= GEAR_DEPLOYING then landingGearProc else old(gearAnimation)
    {
      if landingGearStatus >= GEAR_DEPLOYING {
        var da := simdt * LANDING_GEAR_OPERATING_SPEED;
        if landingGearStatus == GEAR_DEPLOYING {
          if landingGearProc > 0.0 {
            landingGearProc := Max(0.0, landingGearProc - da);
          } else {
            landingGearStatus := GEAR_DOWN;
          }
          touchdown := TDVTX_GEARDOWN;
        } else {
          if landingGearProc < 1.0 {
            landingGearProc := Min(1.0, landingGearProc + da);
          } else {
            landingGearStatus := GEAR_UP;
          }
          touchdown := TDVTX_GEARUP;
        }
        gearAnimation := landingGearProc;
      }
    }

    /** One door tick: CLOSING toward 0, OPENING toward 1; no touchdown
        change. */
    method UpdateDoorAnimation(simdt: real)
      modifies this`doorStatus, this`doorProc, this`doorAnimation
      ensures Door() == Advance(old(Door()), simdt * LANDING_GEAR_OPERATING_SPEED)
      ensures doorAnimation == if old(doorStatus) >= DOOR_CLOSING then doorProc else old(doorAnimation)
    {
      if doorStatus >= DOOR_CLOSING {
        var da := simdt * LANDING_GEAR_OPERATING_SPEED;
        if doorStatus == DOOR_CLOSING {
          if doorProc > 0.0 {
            doorProc := Max(0.0, doorProc - da);
          } else {
            doorStatus := DOOR_CLOSED;
          }
        } else {
          if doorProc < 1.0 {
            doorProc := Min(1.0, doorProc + da);
          } else {
            doorStatus := DOOR_OPEN;
          }
        }
        doorAnimation := doorProc;
      }
    }

    /** clbkPostStep: gear and door advance once, then the sonic-boom level
        (UpdateParticleLvl) is recomputed. A valid vessel stays valid for a
        non-negative step. */
    method PostStep(simdt: real, mach: real)
      modifies this
      ensures Gear() == Advance(old(Gear()), simdt * LANDING_GEAR_OPERATING_SPEED)
      ensures Door() == Advance(old(Door()), simdt * LANDING_GEAR_OPERATING_SPEED)
      ensures touchdown == TouchdownAfterGearTick(old(landingGearStatus), old(touchdown))
      ensures gearAnimation == if old(landingGearStatus) >= GEAR_DEPLOYING then landingGearProc else old(gearAnimation)
      ensures doorAnimation == if old(doorStatus) >= DOOR_CLOSING then doorProc else old(doorAnimation)
      ensures lvl == SoundBarrierLevel(mach)
      ensures old(Valid()) && simdt >= 0.0 ==> Valid()
    {
      UpdateLandingGearAnimation(simdt);
      UpdateDoorAnimation(simdt);
      lvl := SoundBarrierLevel(mach);
    }

    /** clbkConsumeBufferedKey: a G or K key-down runs exactly the matching
        toggle and is consumed (1); anything else changes nothing (0). */
    method ConsumeBufferedKey(key: int, down: bool) returns (consumed: int)
      modifies this`landingGearStatus, this`doorStatus
      ensures consumed == if KeyActionOf(key, down) == NoAction then 0 else 1
      ensures landingGearStatus ==
                if KeyActionOf(key, down) == ToggleGear then Toggled(old(landingGearStatus)) else old(landingGearStatus)
      ensures doorStatus ==
                if KeyActionOf(key, down) == ToggleDoor then Toggled(old(doorStatus)) else old(doorStatus)
    {
      if key == OAPI_KEY_G && down {
        SetGearDown();
        return 1;
      }
      if key == OAPI_KEY_K && down {
        CloseDoor();
        return 1;
      }
      return 0;
    }
  }

  /** Lowering the gear after it was raised: progress falls to 0 on the
      first long step with the gear-down touchdown set in place, and the
      gear settles at GEAR_DOWN on the step after. */
  method GearLowerScenario()
  {
    var v := new XB70();
    v.SetGearDown();
    v.PostStep(4.0, 0.5);
    v.PostStep(0.02, 0.5);
    assert v.Gear() == State(GEAR_UP, 1.0);
    v.SetGearDown();
    assert v.landingGearStatus == GEAR_DEPLOYING;
    v.PostStep(5.0, 0.5);
    assert v.Gear() == State(GEAR_DEPLOYING, 0.0) && v.touchdown == TDVTX_GEARDOWN;
    v.PostStep(0.02, 0.5);
    assert v.Gear() == State(GEAR_DOWN, 0.0) && v.Valid();
  }

  // Airfoil tables; RAD is passed in as `rad`.

  function VLiftAoa(rad: real): seq<real>
  {
    [-180.0 * rad, -60.0 * rad, -30.0 * rad, -2.0 * rad, 15.0 * rad, 20.0 * rad, 25.0 * rad, 60.0 * rad, 180.0 * rad]
  }
  const VLIFT_CL: seq<real> := [0.0, 0.0, -0.4, 0.0, 0.7, 1.0, 0.8, 0.0, 0.0]
  const VLIFT_CM: seq<real> := [0.0, 0.0, 0.014, 0.0039, -0.006, -0.008, -0.010, 0.0, 0.0]

  function HLiftBeta(rad: real): seq<real>
  {
    [-180.0 * rad, -135.0 * rad, -90.0 * rad, -45.0 * rad, 45.0 * rad, 90.0 * rad, 135.0 * rad, 180.0 * rad]
  }
  const HLIFT_CL: seq<real> := [0.0, 0.3, 0.0, -0.3, 0.3, 0.0, -0.3, 0.0]

  /** The tables are well formed for any positive RAD. */
  lemma VLiftTables(rad: real)
    requires rad > 0.0
    ensures |VLiftAoa(rad)| == |VLIFT_CL| == |VLIFT_CM| == 9
    ensures Increasing(VLiftAoa(rad))
  {
  }

  lemma HLiftTables(rad: real)
    requires rad > 0.0
    ensures |HLiftBeta(rad)| == |HLIFT_CL| == 8
    ensures Increasing(HLiftBeta(rad))
  {
  }

  /** VLiftCoeff without the drag term: lift and moment coefficients both
      follow their tables piecewise linearly, from one search. */
  method VLiftCoeff(rad: real, aoa: real) returns (cl: real, cm: real)
    requires rad > 0.0
    ensures Increasing(VLiftAoa(rad)) && |VLiftAoa(rad)| == |VLIFT_CL| == |VLIFT_CM| == 9
    ensures PiecewiseLinear(VLiftAoa(rad), VLIFT_CL, aoa, cl)
    ensures PiecewiseLinear(VLiftAoa(rad), VLIFT_CM, aoa, cm)
  {
    VLiftTables(rad);
    var absc := VLiftAoa(rad);
    var i := Bracket(absc, aoa);
    if i < 8 {
      var f := (aoa - absc[i]) / (absc[i + 1] - absc[i]);
      cl := VLIFT_CL[i] + (VLIFT_CL[i + 1] - VLIFT_CL[i]) * f;
      cm := VLIFT_CM[i] + (VLIFT_CM[i + 1] - VLIFT_CM[i]) * f;
      assert cl == Evaluate(absc, VLIFT_CL, i, aoa);
      assert cm == Evaluate(absc, VLIFT_CM, i, aoa);
    } else {
      cl := VLIFT_CL[8];
      cm := VLIFT_CM[8];
    }
    BracketEvaluates(absc, VLIFT_CL, aoa, i);
    BracketEvaluates(absc, VLIFT_CM, aoa, i);
  }

  /** HLiftCoeff without the drag term: piecewise linear in the sideslip
      angle, and the moment coefficient is set to 0. */
  method HLiftCoeff(rad: real, beta: real) returns (cl: real, cm: real)
    requires rad > 0.0
    ensures Increasing(HLiftBeta(rad)) && |HLiftBeta(rad)| == |HLIFT_CL| == 8
    ensures PiecewiseLinear(HLiftBeta(rad), HLIFT_CL, beta, cl)
    ensures cm == 0.0
  {
    HLiftTables(rad);
    var absc := HLiftBeta(rad);
    var i := Bracket(absc, beta);
    if i < 7 {
      cl := HLIFT_CL[i] + (HLIFT_CL[i + 1] - HLIFT_CL[i]) * (beta - absc[i]) / (absc[i + 1] - absc[i]);
      LerpProductForm(absc[i], absc[i + 1], HLIFT_CL[i], HLIFT_CL[i + 1], beta);
    } else {
      cl := HLIFT_CL[7];
    }
    cm := 0.0;
    BracketEvaluates(absc, HLIFT_CL, beta, i);
  }
}
