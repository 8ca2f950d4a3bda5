/** internal/logparser/player.go: a player of the second aggregator, updated
    in place through its methods. */
module Players {
  import opened DeathCauses

  /** The value of a Player's fields at one moment. */
  datatype PlayerState = PlayerState(id: string, name: string, kills: int, deathCauses: seq<MeansOfDeath>)

  /** The state NewPlayer(id) creates: no name, no kills, no deaths. */
  function FreshState(id: string): PlayerState
  {
    PlayerState(id, "", 0, [])
  }

  class Player {
    var id: string
    var name: string
    var kills: int
    var deathCauses: seq<MeansOfDeath>

    ghost function State(): PlayerState
      reads this
    {
      PlayerState(id, name, kills, deathCauses)
    }

    /** NewPlayer. */
    constructor (id: string)
      ensures this.id == id && name == [] && kills == 0 && deathCauses == []
      ensures State() == FreshState(id)
    {
      this.id := id;
      name := "";
      kills := 0;
      deathCauses := [];
    }

    /** RecordKill: one more kill; the victim is not touched unless it is
        this same player. */
    method RecordKill(victim: Player)
      modifies this
      ensures kills == old(kills) + 1
      ensures id == old(id) && name == old(name) && deathCauses == old(deathCauses)
      ensures victim != this ==> unchanged(victim)
    {
      kills := kills + 1;
    }

    /** RecordDeath: appends the means of death. */
    method RecordDeath(mean: MeansOfDeath)
      modifies this
      ensures deathCauses == old(deathCauses) + [mean]
      ensures id == old(id) && name == old(name) && kills == old(kills)
    {
      deathCauses := deathCauses + [mean];
    }

    /** UpdateNickname: sets the name and nothing else, so a second call
        with the same name changes nothing. */
    method UpdateNickname(name: string)
      modifies this
      ensures this.name == name
      ensures id == old(id) && kills == old(kills) && deathCauses == old(deathCauses)
      ensures old(this.name) == name ==> State() == old(State())
    {
      this.name := name;
    }
  }
}
