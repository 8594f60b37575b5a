/** The particle-stream levels the vessel recomputes on every tick from the
    host's Mach number and altitude getters, passed in here as parameters. */
module Effects {

  /** Sonic-boom cloud: fully on in the narrow band around Mach 1 (both ends
      included), off everywhere else. The Windows build's UpdateParticleLvl
      is the same comparison. */
  function SoundBarrierLevel(mach: real): (lvl: real)
    ensures lvl == 1.0 <==> 0.999 <= mach <= 1.001
    ensures lvl == 0.0 <==> !(0.999 <= mach <= 1.001)
  {
    if mach >= 0.999 && mach <= 1.001 then 1.0 else 0.0
  }

  /** Canard contrails: on only above Mach 2 and above 15000 (both strict). */
  function CanardContrailLevel(mach: real, altitude: real): (lvl: real)
    ensures lvl == 1.0 <==> mach > 2.0 && altitude > 15000.0
    ensures lvl == 0.0 <==> !(mach > 2.0 && altitude > 15000.0)
  {
    if mach > 2.0 && altitude > 15000.0 then 1.0 else 0.0
  }

  /** The two effects never show at once. */
  lemma EffectsExclusive(mach: real, altitude: real)
    ensures SoundBarrierLevel(mach) == 0.0 || CanardContrailLevel(mach, altitude) == 0.0
  {
  }
}
