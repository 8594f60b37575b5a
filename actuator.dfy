/** The deployment-state timer that the landing gear, the bay door and the
    nose cone each run: a status from a four-valued enum and a progress value
    `proc`. All three enums are declared in the same order, so one numbering
    serves them all:

      AT_ZERO      GEAR_DOWN       DOOR_CLOSED   NOSEC_DEPLOYED
      AT_ONE       GEAR_UP         DOOR_OPEN     NOSEC_STOWED
      TOWARD_ZERO  GEAR_DEPLOYING  DOOR_CLOSING  NOSEC_DEPLOYING
      TOWARD_ONE   GEAR_STOWING    DOOR_OPENING  NOSEC_STOWING

    A status is a plain integer because the scenario loader reads it with
    `%d` and stores it unchecked; every value above TOWARD_ZERO moves toward 1
    and every value below it is idle. */
module Actuator {
  import opened OrbiterApi

  const AT_ZERO: int := 0
  const AT_ONE: int := 1
  const TOWARD_ZERO: int := 2
  const TOWARD_ONE: int := 3

  datatype State = State(status: int, proc: real)

  /** Progress lies in [0, 1] and a settled status sits at its own bound. */
  predicate Consistent(s: State)
  {
    0.0 <= s.proc <= 1.0
    && (s.status == AT_ZERO ==> s.proc == 0.0)
    && (s.status == AT_ONE ==> s.proc == 1.0)
  }

  /** The status a toggle request selects: at rest at 0 or heading there, the
      actuator turns toward 1; from anything else it turns toward 0. */
  function Toggled(status: int): (r: int)
    ensures r == TOWARD_ZERO || r == TOWARD_ONE
    ensures r == TOWARD_ONE <==> status == AT_ZERO || status == TOWARD_ZERO
  {
    if status == AT_ZERO || status == TOWARD_ZERO then TOWARD_ONE else TOWARD_ZERO
  }

  /** One tick, where `da` is the tick's length times the operating speed.
      While moving, progress steps by `da` and is clamped at the bound; the
      status settles only on a tick that STARTS at the bound, and that tick
      leaves progress where it is. */
  function Advance(s: State, da: real): (r: State)
    ensures s.status < TOWARD_ZERO ==> r == s
    ensures r.status == s.status || r.proc == s.proc
    ensures r.status != s.status ==>
              (r.status == AT_ZERO && s.status == TOWARD_ZERO && s.proc <= 0.0)
              || (r.status == AT_ONE && s.status > TOWARD_ZERO && s.proc >= 1.0)
    ensures Consistent(s) && da >= 0.0 ==> Consistent(r)
  {
    if s.status >= TOWARD_ZERO then
      if s.status == TOWARD_ZERO then
        if s.proc > 0.0 then State(s.status, Max(0.0, s.proc - da)) else State(AT_ZERO, s.proc)
      else
        if s.proc < 1.0 then State(s.status, Min(1.0, s.proc + da)) else State(AT_ONE, s.proc)
    else
      s
  }

  /** Toggling twice turns a moving actuator back to its original direction,
      and toggling never touches progress, so consistency survives it. */
  lemma ToggleTwice(s: State)
    requires s.status == TOWARD_ZERO || s.status == TOWARD_ONE
    ensures Toggled(Toggled(s.status)) == s.status
  {
  }

  lemma ToggleKeepsConsistent(s: State)
    requires Consistent(s)
    ensures Consistent(State(Toggled(s.status), s.proc))
  {
  }

  /** Sum of a sequence of tick increments. */
  function Sum(das: seq<real>): real
    decreases |das|
  {
    if das == [] then 0.0 else Sum(das[..|das| - 1]) + das[|das| - 1]
  }

  predicate NonNegative(das: seq<real>)
  {
    forall k :: 0 <= k < |das| ==> das[k] >= 0.0
  }

  /** The state after one tick per increment of `das`, in order. */
  function Run(s: State, das: seq<real>): State
    decreases |das|
  {
    if das == [] then s else Advance(Run(s, das[..|das| - 1]), das[|das| - 1])
  }

  /** The tick increments `simdt * speed` for a sequence of tick lengths. */
  function Ticks(simdts: seq<real>, speed: real): seq<real>
  {
    seq(|simdts|, k requires 0 <= k < |simdts| => simdts[k] * speed)
  }

  lemma {:induction false} SumTicks(simdts: seq<real>, speed: real)
    ensures Sum(Ticks(simdts, speed)) == speed * Sum(simdts)
    decreases |simdts|
  {
    if simdts != [] {
      var n := |simdts|;
      var pre := simdts[..n - 1];
      forall k | 0 <= k < n - 1 ensures Ticks(simdts, speed)[..n - 1][k] == Ticks(pre, speed)[k] {
        assert pre[k] == simdts[k];
      }
      assert Ticks(simdts, speed)[..n - 1] == Ticks(pre, speed);
      SumTicks(pre, speed);
      assert speed * Sum(simdts) == speed * Sum(pre) + speed * simdts[n - 1];
    }
  }

  lemma {:induction false} TicksNonNegative(simdts: seq<real>, speed: real)
    requires NonNegative(simdts) && speed >= 0.0
    ensures NonNegative(Ticks(simdts, speed))
  {
    forall k | 0 <= k < |simdts| ensures Ticks(simdts, speed)[k] >= 0.0 {
      assert simdts[k] >= 0.0;
    }
  }

  /** Once settled, further ticks change nothing. */
  lemma {:induction false} RunIdle(s: State, das: seq<real>)
    requires s.status < TOWARD_ZERO
    ensures Run(s, das) == s
    decreases |das|
  {
    if das != [] {
      RunIdle(s, das[..|das| - 1]);
    }
  }

  /** Consistency is kept by any run of non-negative ticks. */
  lemma {:induction false} RunKeepsConsistent(s: State, das: seq<real>)
    requires Consistent(s) && NonNegative(das)
    ensures Consistent(Run(s, das))
    decreases |das|
  {
    if das != [] {
      var pre := das[..|das| - 1];
      assert NonNegative(pre) by {
        forall k | 0 <= k < |pre| ensures pre[k] >= 0.0 { assert pre[k] == das[k]; }
      }
      RunKeepsConsistent(s, pre);
      assert das[|das| - 1] >= 0.0;
    }
  }

  /** Moving toward 1 from progress p: after the ticks, progress is
      min(1, p + sum), and the status has settled at AT_ONE exactly when
      progress had already reached 1 before the last tick. */
  lemma {:induction false} RunTowardOne(s: State, das: seq<real>)
    requires s.status >= TOWARD_ONE && 0.0 <= s.proc <= 1.0 && NonNegative(das)
    ensures Run(s, das).proc == Min(1.0, s.proc + Sum(das))
    ensures Run(s, das).status == s.status || Run(s, das).status == AT_ONE
    ensures Run(s, das).status == AT_ONE <==> |das| >= 1 && s.proc + Sum(das[..|das| - 1]) >= 1.0
    decreases |das|
  {
    if das != [] {
      var n := |das|;
      var pre := das[..n - 1];
      assert NonNegative(pre) by {
        forall k | 0 <= k < |pre| ensures pre[k] >= 0.0 { assert pre[k] == das[k]; }
      }
      RunTowardOne(s, pre);
      var d := das[n - 1];
      assert d >= 0.0;
      if n >= 2 {
        assert pre[..n - 2] == das[..n - 2];
        assert pre[n - 2] >= 0.0;
      }
    }
  }

  /** Moving toward 0 from progress p: after the ticks, progress is
      max(0, p - sum), and the status has settled at AT_ZERO exactly when
      progress had already reached 0 before the last tick. */
  lemma {:induction false} RunTowardZero(s: State, das: seq<real>)
    requires s.status == TOWARD_ZERO && 0.0 <= s.proc <= 1.0 && NonNegative(das)
    ensures Run(s, das).proc == Max(0.0, s.proc - Sum(das))
    ensures Run(s, das).status == TOWARD_ZERO || Run(s, das).status == AT_ZERO
    ensures Run(s, das).status == AT_ZERO <==> |das| >= 1 && s.proc - Sum(das[..|das| - 1]) <= 0.0
    decreases |das|
  {
    if das != [] {
      var n := |das|;
      var pre := das[..n - 1];
      assert NonNegative(pre) by {
        forall k | 0 <= k < |pre| ensures pre[k] >= 0.0 { assert pre[k] == das[k]; }
      }
      RunTowardZero(s, pre);
      var d := das[n - 1];
      assert d >= 0.0;
      if n >= 2 {
        assert pre[..n - 2] == das[..n - 2];
        assert pre[n - 2] >= 0.0;
      }
    }
  }

  /** While an actuator travels toward 1, progress never goes back. */
  lemma {:induction false} RunTowardOneMonotone(s: State, das: seq<real>, j: nat)
    requires s.status >= TOWARD_ONE && 0.0 <= s.proc <= 1.0 && NonNegative(das)
    requires j <= |das|
    ensures Run(s, das[..j]).proc <= Run(s, das).proc
  {
    assert NonNegative(das[..j]) by {
      forall k | 0 <= k < j ensures das[..j][k] >= 0.0 { assert das[..j][k] == das[k]; }
    }
    RunTowardOne(s, das[..j]);
    RunTowardOne(s, das);
    SumPrefix(das, j);
  }

  /** While an actuator travels toward 0, progress never goes up. */
  lemma {:induction false} RunTowardZeroMonotone(s: State, das: seq<real>, j: nat)
    requires s.status == TOWARD_ZERO && 0.0 <= s.proc <= 1.0 && NonNegative(das)
    requires j <= |das|
    ensures Run(s, das).proc <= Run(s, das[..j]).proc
  {
    assert NonNegative(das[..j]) by {
      forall k | 0 <= k < j ensures das[..j][k] >= 0.0 { assert das[..j][k] == das[k]; }
    }
    RunTowardZero(s, das[..j]);
    RunTowardZero(s, das);
    SumPrefix(das, j);
  }

  /** A prefix of non-negative increments sums to no more than the whole. */
  lemma {:induction false} SumPrefix(das: seq<real>, j: nat)
    requires NonNegative(das) && j <= |das|
    ensures Sum(das[..j]) <= Sum(das)
    decreases |das|
  {
    if j < |das| {
      var pre := das[..|das| - 1];
      assert NonNegative(pre) by {
        forall k | 0 <= k < |pre| ensures pre[k] >= 0.0 { assert pre[k] == das[k]; }
      }
      assert pre[..j] == das[..j];
      SumPrefix(pre, j);
      assert das[|das| - 1] >= 0.0;
    } else {
      assert das[..j] == das;
    }
  }
}
