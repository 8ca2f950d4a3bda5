/** internal/logparser/deathcauses.go: the means of death, a string type
    with 29 named values. Any string converts to it, so a kill line's last
    token is kept as it is, named or not. */
module DeathCauses {

  /** meansOfDeath: a distinct type over string. */
  datatype MeansOfDeath = MeansOfDeath(value: string)
  {
    /** String: the underlying string; converting it back gives the same value. */
    function String(): (s: string)
      ensures MeansOfDeath(s) == this
    {
      value
    }
  }

  const MOD_UNKNOWN: MeansOfDeath := MeansOfDeath("MOD_UNKNOWN")
  const MOD_SHOTGUN: MeansOfDeath := MeansOfDeath("MOD_SHOTGUN")
  const MOD_GAUNTLET: MeansOfDeath := MeansOfDeath("MOD_GAUNTLET")
  const MOD_MACHINEGUN: MeansOfDeath := MeansOfDeath("MOD_MACHINEGUN")
  const MOD_GRENADE: MeansOfDeath := MeansOfDeath("MOD_GRENADE")
  const MOD_GRENADE_SPLASH: MeansOfDeath := MeansOfDeath("MOD_GRENADE_SPLASH")
  const MOD_ROCKET: MeansOfDeath := MeansOfDeath("MOD_ROCKET")
  const MOD_ROCKET_SPLASH: MeansOfDeath := MeansOfDeath("MOD_ROCKET_SPLASH")
  const MOD_PLASMA: MeansOfDeath := MeansOfDeath("MOD_PLASMA")
  const MOD_PLASMA_SPLASH: MeansOfDeath := MeansOfDeath("MOD_PLASMA_SPLASH")
  const MOD_RAILGUN: MeansOfDeath := MeansOfDeath("MOD_RAILGUN")
  const MOD_LIGHTNING: MeansOfDeath := MeansOfDeath("MOD_LIGHTNING")
  const MOD_BFG: MeansOfDeath := MeansOfDeath("MOD_BFG")
  const MOD_BFG_SPLASH: MeansOfDeath := MeansOfDeath("MOD_BFG_SPLASH")
  const MOD_WATER: MeansOfDeath := MeansOfDeath("MOD_WATER")
  const MOD_SLIME: MeansOfDeath := MeansOfDeath("MOD_SLIME")
  const MOD_LAVA: MeansOfDeath := MeansOfDeath("MOD_LAVA")
  const MOD_CRUSH: MeansOfDeath := MeansOfDeath("MOD_CRUSH")
  const MOD_TELEFRAG: MeansOfDeath := MeansOfDeath("MOD_TELEFRAG")
  const MOD_FALLING: MeansOfDeath := MeansOfDeath("MOD_FALLING")
  const MOD_SUICIDE: MeansOfDeath := MeansOfDeath("MOD_SUICIDE")
  const MOD_TARGET_LASER: MeansOfDeath := MeansOfDeath("MOD_TARGET_LASER")
  const MOD_TRIGGER_HURT: MeansOfDeath := MeansOfDeath("MOD_TRIGGER_HURT")
  const MOD_NAIL: MeansOfDeath := MeansOfDeath("MOD_NAIL")
  const MOD_CHAINGUN: MeansOfDeath := MeansOfDeath("MOD_CHAINGUN")
  const MOD_PROXIMITY_MINE: MeansOfDeath := MeansOfDeath("MOD_PROXIMITY_MINE")
  const MOD_KAMIKAZE: MeansOfDeath := MeansOfDeath("MOD_KAMIKAZE")
  const MOD_JUICED: MeansOfDeath := MeansOfDeath("MOD_JUICED")
  const MOD_GRAPPLE: MeansOfDeath := MeansOfDeath("MOD_GRAPPLE")

  /** The named values, in declaration order. */
  const Named: seq<MeansOfDeath> := [
      MOD_UNKNOWN,
      MOD_SHOTGUN,
      MOD_GAUNTLET,
      MOD_MACHINEGUN,
      MOD_GRENADE,
      MOD_GRENADE_SPLASH,
      MOD_ROCKET,
      MOD_ROCKET_SPLASH,
      MOD_PLASMA,
      MOD_PLASMA_SPLASH,
      MOD_RAILGUN,
      MOD_LIGHTNING,
      MOD_BFG,
      MOD_BFG_SPLASH,
      MOD_WATER,
      MOD_SLIME,
      MOD_LAVA,
      MOD_CRUSH,
      MOD_TELEFRAG,
      MOD_FALLING,
      MOD_SUICIDE,
      MOD_TARGET_LASER,
      MOD_TRIGGER_HURT,
      MOD_NAIL,
      MOD_CHAINGUN,
      MOD_PROXIMITY_MINE,
      MOD_KAMIKAZE,
      MOD_JUICED,
      MOD_GRAPPLE
    ]

  /** String undoes the conversion for every string, inside the named set or not. */
  lemma StringOfConversion(s: string)
    ensures MeansOfDeath(s).String() == s
  {
  }

  /** Every named value reads MOD_ followed by a non-empty suffix. */
  lemma NamedHavePrefix(i: int)
    requires 0 <= i < |Named|
    ensures |Named| == 29
    ensures "MOD_" < Named[i].String()
  {
    OneOfTheConstants(Named[i]);
  }

  /** A member of Named is one of the declared constants. */
  lemma OneOfTheConstants(m: MeansOfDeath)
    requires m in Named
    ensures || m == MOD_UNKNOWN
      || m == MOD_SHOTGUN
      || m == MOD_GAUNTLET
      || m == MOD_MACHINEGUN
      || m == MOD_GRENADE
      || m == MOD_GRENADE_SPLASH
      || m == MOD_ROCKET
      || m == MOD_ROCKET_SPLASH
      || m == MOD_PLASMA
      || m == MOD_PLASMA_SPLASH
      || m == MOD_RAILGUN
      || m == MOD_LIGHTNING
      || m == MOD_BFG
      || m == MOD_BFG_SPLASH
      || m == MOD_WATER
      || m == MOD_SLIME
      || m == MOD_LAVA
      || m == MOD_CRUSH
      || m == MOD_TELEFRAG
      || m == MOD_FALLING
      || m == MOD_SUICIDE
      || m == MOD_TARGET_LASER
      || m == MOD_TRIGGER_HURT
      || m == MOD_NAIL
      || m == MOD_CHAINGUN
      || m == MOD_PROXIMITY_MINE
      || m == MOD_KAMIKAZE
      || m == MOD_JUICED
      || m == MOD_GRAPPLE
  {
  }

  /** The 29 named values are pairwise distinct. */
  lemma NamedDistinct(i: int, j: int)
    requires 0 <= i < j < |Named|
    ensures Named[i] != Named[j]
  {
  }

  /** String tells the named values apart. */
  lemma StringInjectiveOnNamed(i: int, j: int)
    requires 0 <= i < |Named| && 0 <= j < |Named|
    requires Named[i].String() == Named[j].String()
    ensures i == j
  {
    if i < j {
      NamedDistinct(i, j);
    } else if j < i {
      NamedDistinct(j, i);
    }
  }

  /** A token outside the named set is kept, not mapped to MOD_UNKNOWN, and
      reads differently from every named value. */
  lemma UnnamedTokenKept(s: string)
    requires MeansOfDeath(s) !in Named
    ensures MeansOfDeath(s).String() == s
    ensures MeansOfDeath(s) != MOD_UNKNOWN
    ensures forall i :: 0 <= i < |Named| ==> Named[i].String() != s
  {
  }

  /** The conversion has no fallback: only the token "MOD_UNKNOWN" itself
      becomes MOD_UNKNOWN. */
  lemma OnlyItsTokenIsUnknown(s: string)
    ensures MeansOfDeath(s) == MOD_UNKNOWN <==> s == "MOD_UNKNOWN"
  {
  }

  /** Tokens outside the named set occur: MOD_HEADBUTT is one. */
  lemma UnnamedTokenExample()
    ensures MeansOfDeath("MOD_HEADBUTT") !in Named
    ensures MeansOfDeath("MOD_HEADBUTT").String() == "MOD_HEADBUTT"
  {
  }
}
