/** internal/logparser/match.go: the second aggregator. A Match owns its
    players by reference and is updated by one handler per event; deaths are
    kept per player as a list of causes, and the kills by means of death are
    counted only when the match is turned into its JSON record. */
module Matches {
  import opened GoStrings
  import opened Events
  import opened Tally
  import opened DeathCauses
  import opened Players

  // ---------------------------------------------------------------------
  // The players of a match as values

  /** The players of a match at one moment, keyed by player ID. */
  type Roster = map<string, PlayerState>

  /** Every player is stored under its own ID. */
  predicate KeyedRoster(ps: Roster)
  {
    forall k :: k in ps ==> ps[k].id == k
  }

  /** The player findOrCreatePlayer yields for `id`: the stored one, or a
      fresh one. */
  function Lookup(ps: Roster, id: string): PlayerState
  {
    if id in ps then ps[id] else FreshState(id)
  }

  function DeathCount(p: PlayerState): int { |p.deathCauses| }

  function KillCount(p: PlayerState): int { p.kills }

  /** The number of deaths recorded over all players. */
  ghost function TotalDeaths(ps: Roster): int
  {
    Sum(Project(ps, DeathCount))
  }

  /** The number of kills credited over all players. */
  ghost function TotalKills(ps: Roster): int
  {
    Sum(Project(ps, KillCount))
  }

  function WithDeath(ps: Roster, id: string, cause: MeansOfDeath): Roster
  {
    var p := Lookup(ps, id);
    ps[id := p.(deathCauses := p.deathCauses + [cause])]
  }

  function WithKill(ps: Roster, id: string): Roster
  {
    var p := Lookup(ps, id);
    ps[id := p.(kills := p.kills + 1)]
  }

  function WithName(ps: Roster, id: string, name: string): Roster
  {
    var p := Lookup(ps, id);
    ps[id := p.(name := name)]
  }

  /** The cause OnKill records: the last token, converted as it is (there
      is no fallback for tokens outside the named means of death). */
  function CauseOf(log: seq<string>): MeansOfDeath
    requires |log| >= 1
  {
    MeansOfDeath(log[|log| - 1])
  }

  /** The players after OnKill(log): the victim log[3] records the cause,
      then the killer log[2] is credited a kill unless it is the world. */
  function AfterKill(ps: Roster, log: seq<string>): Roster
    requires |log| >= 4
  {
    var dead := WithDeath(ps, log[3], CauseOf(log));
    if log[2] == WorldId then dead else WithKill(dead, log[2])
  }

  /** The players after OnPlayerInfoChange(payload). */
  function AfterInfoChange(ps: Roster, payload: string): Roster
    requires NameWellFormed(payload)
  {
    WithName(ps, PlayerId(payload), Nickname(payload))
  }

  lemma WithDeathTotals(ps: Roster, id: string, cause: MeansOfDeath)
    ensures TotalDeaths(WithDeath(ps, id, cause)) == TotalDeaths(ps) + 1
    ensures TotalKills(WithDeath(ps, id, cause)) == TotalKills(ps)
  {
    var p := Lookup(ps, id);
    var q := p.(deathCauses := p.deathCauses + [cause]);
    ProjectUpdate(ps, DeathCount, id, q);
    ProjectUpdate(ps, KillCount, id, q);
  }

  lemma WithKillTotals(ps: Roster, id: string)
    ensures TotalDeaths(WithKill(ps, id)) == TotalDeaths(ps)
    ensures TotalKills(WithKill(ps, id)) == TotalKills(ps) + 1
  {
    var p := Lookup(ps, id);
    var q := p.(kills := p.kills + 1);
    ProjectUpdate(ps, DeathCount, id, q);
    ProjectUpdate(ps, KillCount, id, q);
  }

  lemma WithNameTotals(ps: Roster, id: string, name: string)
    ensures TotalDeaths(WithName(ps, id, name)) == TotalDeaths(ps)
    ensures TotalKills(WithName(ps, id, name)) == TotalKills(ps)
  {
    var p := Lookup(ps, id);
    var q := p.(name := name);
    ProjectUpdate(ps, DeathCount, id, q);
    ProjectUpdate(ps, KillCount, id, q);
  }

  /** findOrCreatePlayer(id) followed by an update `p` of that player is
      one update of `before`. */
  lemma CreateThenUpdate(before: Roster, found: Roster, now: Roster, id: string, p: PlayerState)
    requires found == before[id := Lookup(before, id)]
    requires now == found[id := p]
    ensures now == before[id := p]
  {
  }

  /** OnKill player by player: the victim and a non-world killer are
      created if unseen; the victim gains the cause; a killer that is not
      the world gains one kill, also when it is the victim itself; the world
      is credited nothing; no name, ID or other player changes. */
  lemma AfterKillPlayers(ps: Roster, log: seq<string>)
    requires |log| >= 4
    ensures var r, killer, victim := AfterKill(ps, log), log[2], log[3];
      && r.Keys == ps.Keys + {victim} + (if killer == WorldId then {} else {killer})
      && r[victim].deathCauses == Lookup(ps, victim).deathCauses + [CauseOf(log)]
      && (killer != WorldId ==> r[killer].kills == Lookup(ps, killer).kills + 1)
      && (killer == WorldId ==> forall k :: k in r ==> r[k].kills == Lookup(ps, k).kills)
      && (killer != victim ==> r[victim].kills == Lookup(ps, victim).kills)
      && (killer != victim && killer != WorldId ==>
            r[killer].deathCauses == Lookup(ps, killer).deathCauses)
      && (forall k :: k in r ==> r[k].id == Lookup(ps, k).id && r[k].name == Lookup(ps, k).name)
      && (forall k :: k in ps && k != victim && k != killer ==> r[k] == ps[k])
  {
  }

  /** A player killing themselves gains one death and one kill. */
  lemma SelfKill(ps: Roster, log: seq<string>)
    requires |log| >= 4 && log[2] == log[3] && log[2] != WorldId
    ensures var r, id := AfterKill(ps, log), log[3];
      && r[id].kills == Lookup(ps, id).kills + 1
      && r[id].deathCauses == Lookup(ps, id).deathCauses + [CauseOf(log)]
  {
  }

  /** OnKill adds exactly one death, and one kill unless the world killed. */
  lemma AfterKillTotals(ps: Roster, log: seq<string>)
    requires |log| >= 4
    ensures TotalDeaths(AfterKill(ps, log)) == TotalDeaths(ps) + 1
    ensures TotalKills(AfterKill(ps, log)) == TotalKills(ps) + (if log[2] == WorldId then 0 else 1)
  {
    var dead := WithDeath(ps, log[3], CauseOf(log));
    WithDeathTotals(ps, log[3], CauseOf(log));
    if log[2] != WorldId {
      WithKillTotals(dead, log[2]);
    }
  }

  /** OnPlayerInfoChange touches only the name of the payload's player,
      creating that player if unseen, so no total changes, and repeating
      the same change changes nothing more. */
  lemma AfterInfoChangeEffect(ps: Roster, payload: string)
    requires NameWellFormed(payload)
    ensures var r, id := AfterInfoChange(ps, payload), PlayerId(payload);
      && r.Keys == ps.Keys + {id}
      && r[id] == Lookup(ps, id).(name := Nickname(payload))
      && (forall k :: k in ps && k != id ==> r[k] == ps[k])
      && TotalDeaths(r) == TotalDeaths(ps)
      && TotalKills(r) == TotalKills(ps)
      && AfterInfoChange(r, payload) == r
  {
    WithNameTotals(ps, PlayerId(payload), Nickname(payload));
  }

  /** Both handlers keep every player under its own ID. */
  lemma AfterKillKeyed(ps: Roster, log: seq<string>)
    requires KeyedRoster(ps) && |log| >= 4
    ensures KeyedRoster(AfterKill(ps, log))
  {
  }

  lemma AfterInfoChangeKeyed(ps: Roster, payload: string)
    requires KeyedRoster(ps) && NameWellFormed(payload)
    ensures KeyedRoster(AfterInfoChange(ps, payload))
  {
  }

  // ---------------------------------------------------------------------
  // Any sequence of events

  /** One call of a handler: OnKill with the tokens of a kill line, or
      OnPlayerInfoChange with a payload. */
  datatype Event = KillEvent(log: seq<string>) | InfoEvent(payload: string)

  /** The handler does not panic on this event. */
  predicate Handles(e: Event)
  {
    match e
    case KillEvent(log) => |log| >= 4
    case InfoEvent(payload) => NameWellFormed(payload)
  }

  function Apply(ps: Roster, e: Event): Roster
    requires Handles(e)
  {
    match e
    case KillEvent(log) => AfterKill(ps, log)
    case InfoEvent(payload) => AfterInfoChange(ps, payload)
  }

  /** The players after handling `events` in order. */
  function Play(ps: Roster, events: seq<Event>): Roster
    requires forall i :: 0 <= i < |events| ==> Handles(events[i])
  {
    if events == [] then ps
    else Apply(Play(ps, events[..|events| - 1]), events[|events| - 1])
  }

  function KillEvents(events: seq<Event>): nat
  {
    if events == [] then 0
    else KillEvents(events[..|events| - 1]) + (if events[|events| - 1].KillEvent? then 1 else 0)
  }

  /** Over any sequence of events, the deaths recorded grow by the number of
      kill events and the kills credited by at most that; starting from
      NewMatch, the score (one per kill event) therefore equals the number of
      recorded deaths and bounds the number of kills. */
  lemma {:induction false} PlayTotals(ps: Roster, events: seq<Event>)
    requires forall i :: 0 <= i < |events| ==> Handles(events[i])
    ensures TotalDeaths(Play(ps, events)) == TotalDeaths(ps) + KillEvents(events)
    ensures TotalKills(Play(ps, events)) <= TotalKills(ps) + KillEvents(events)
  {
    if events != [] {
      var init, e := events[..|events| - 1], events[|events| - 1];
      PlayTotals(ps, init);
      var mid := Play(ps, init);
      match e
      case KillEvent(log) => AfterKillTotals(mid, log);
      case InfoEvent(payload) => AfterInfoChangeEffect(mid, payload);
    }
  }

  /** Over any sequence of events every player stays under its own ID. */
  lemma {:induction false} PlayKeyed(ps: Roster, events: seq<Event>)
    requires forall i :: 0 <= i < |events| ==> Handles(events[i])
    requires KeyedRoster(ps)
    ensures KeyedRoster(Play(ps, events))
  {
    if events != [] {
      var init, e := events[..|events| - 1], events[|events| - 1];
      PlayKeyed(ps, init);
      var mid := Play(ps, init);
      match e
      case KillEvent(log) => AfterKillKeyed(mid, log);
      case InfoEvent(payload) => AfterInfoChangeKeyed(mid, payload);
    }
  }

  // ---------------------------------------------------------------------
  // The JSON record

  /** The names of the players listed in `order`, in that order. */
  function NamesIn(ps: Roster, order: seq<string>): (names: seq<string>)
    requires forall i :: 0 <= i < |order| ==> order[i] in ps
    ensures |names| == |order|
    ensures forall i :: 0 <= i < |order| ==> names[i] == ps[order[i]].name
  {
    if order == [] then []
    else NamesIn(ps, order[..|order| - 1]) + [ps[order[|order| - 1]].name]
  }

  /** The death causes of the players listed in `order`, player by player. */
  function CausesIn(ps: Roster, order: seq<string>): seq<MeansOfDeath>
    requires forall i :: 0 <= i < |order| ==> order[i] in ps
  {
    if order == [] then []
    else CausesIn(ps, order[..|order| - 1]) + ps[order[|order| - 1]].deathCauses
  }

  /** `kbm` counts, under each cause's string, how often it occurs in `causes`. */
  ghost predicate Tallies(kbm: map<string, int>, causes: seq<MeansOfDeath>)
  {
    && (forall c :: c in kbm <==> MeansOfDeath(c) in causes)
    && (forall c :: c in kbm ==> kbm[c] == multiset(causes)[MeansOfDeath(c)])
    && Sum(kbm) == |causes|
  }

  /** The kills-by-means map after counting one more `dc`. */
  function Bump(kbm: map<string, int>, dc: MeansOfDeath): map<string, int>
  {
    var key := dc.String();
    if key !in kbm then kbm[key := 1] else kbm[key := kbm[key] + 1]
  }

  lemma TalliesBump(kbm: map<string, int>, seen: seq<MeansOfDeath>, dc: MeansOfDeath)
    requires Tallies(kbm, seen)
    ensures Tallies(Bump(kbm, dc), seen + [dc])
  {
    var key, r, counted := dc.String(), Bump(kbm, dc), seen + [dc];
    SumUpdate(kbm, key, if key in kbm then kbm[key] + 1 else 1);
    assert multiset(counted) == multiset(seen) + multiset{dc};
    forall c ensures c in r <==> MeansOfDeath(c) in counted {
      assert MeansOfDeath(c) in counted <==> MeansOfDeath(c) in seen || c == key;
    }
  }

  lemma AppendLast<T>(a: seq<T>, b: seq<T>)
    requires b != []
    ensures a + b == (a + b[..|b| - 1]) + [b[|b| - 1]]
  {
    assert b == b[..|b| - 1] + [b[|b| - 1]];
  }

  /** The kills-by-means map after counting all of `causes`, in order. */
  function BumpAll(kbm: map<string, int>, causes: seq<MeansOfDeath>): map<string, int>
  {
    if causes == [] then kbm
    else Bump(BumpAll(kbm, causes[..|causes| - 1]), causes[|causes| - 1])
  }

  lemma {:induction false} TalliesBumpAll(kbm: map<string, int>, seen: seq<MeansOfDeath>, causes: seq<MeansOfDeath>)
    requires Tallies(kbm, seen)
    ensures Tallies(BumpAll(kbm, causes), seen + causes)
  {
    if causes == [] {
      assert seen + causes == seen;
    } else {
      var init, dc := causes[..|causes| - 1], causes[|causes| - 1];
      var mid := BumpAll(kbm, init);
      TalliesBumpAll(kbm, seen, init);
      TalliesBump(mid, seen + init, dc);
      AppendLast(seen, causes);
    }
  }

  /** The inner loop of MarshalJSON: counts one player's death causes
      into the kills-by-means map, keeping it a count of all causes seen. */
  method CountMeans(kbm: map<string, int>, causes: seq<MeansOfDeath>) returns (r: map<string, int>)
    ensures r == BumpAll(kbm, causes)
    ensures forall seen :: Tallies(kbm, seen) ==> Tallies(r, seen + causes)
  {
    r := kbm;
    var j := 0;
    while j < |causes|
      invariant 0 <= j <= |causes|
      invariant r == BumpAll(kbm, causes[..j])
    {
      var dc := causes[j];
      var key := dc.String();
      if key !in r {
        r := r[key := 1];
      } else {
        r := r[key := r[key] + 1];
      }
      assert causes[..j + 1][..j] == causes[..j];
      j := j + 1;
    }
    assert causes[..j] == causes;
    forall seen | Tallies(kbm, seen) ensures Tallies(r, seen + causes) {
      TalliesBumpAll(kbm, seen, causes);
    }
  }

  /** Whether `names` is ordered by non-increasing kills. */
  predicate ByKills(names: seq<string>, kills: map<string, int>)
  {
    forall i, j :: 0 <= i < j < |names| ==> Get(kills, names[i]) >= Get(kills, names[j])
  }

  /** While a[j] moves left through a[..i + 1]: the other elements are in
      order, and the moving one has at least the kills of those to its right. */
  predicate Sinking(s: seq<string>, kills: map<string, int>, i: int, j: int)
    requires 0 <= j <= i < |s|
  {
    && (forall p, q :: 0 <= p < q <= i && p != j && q != j ==> Get(kills, s[p]) >= Get(kills, s[q]))
    && (forall q :: j < q <= i ==> Get(kills, s[j]) >= Get(kills, s[q]))
  }

  lemma SinkingSwap(s: seq<string>, kills: map<string, int>, i: int, j: int)
    requires 0 < j <= i < |s| && Sinking(s, kills, i, j)
    requires Get(kills, s[j - 1]) < Get(kills, s[j])
    ensures Sinking(s[j - 1 := s[j]][j := s[j - 1]], kills, i, j - 1)
    ensures multiset(s[j - 1 := s[j]][j := s[j - 1]]) == multiset(s)
  {
  }

  lemma SinkingDone(s: seq<string>, kills: map<string, int>, i: int, j: int)
    requires 0 <= j <= i < |s| && Sinking(s, kills, i, j)
    requires j == 0 || Get(kills, s[j - 1]) >= Get(kills, s[j])
    ensures ByKills(s[..i + 1], kills)
  {
  }

  /** One step of insertion sort: moves a[i] left into the sorted a[..i]. */
  method InsertByKills(a: array<string>, kills: map<string, int>, i: int)
    requires 0 <= i < a.Length && ByKills(a[..i], kills)
    modifies a
    ensures ByKills(a[..i + 1], kills)
    ensures multiset(a[..]) == multiset(old(a[..]))
  {
    var j := i;
    while j > 0 && Get(kills, a[j - 1]) < Get(kills, a[j])
      invariant 0 <= j <= i
      invariant multiset(a[..]) == multiset(old(a[..]))
      invariant Sinking(a[..], kills, i, j)
    {
      SinkingSwap(a[..], kills, i, j);
      a[j - 1], a[j] := a[j], a[j - 1];
      j := j - 1;
    }
    SinkingDone(a[..], kills, i, j);
  }

  /** sort.Slice on the players by descending kills: the result is a
      permutation ordered by non-increasing kills. Players with equal kills
      may end up in any order, as sort.Slice is not stable. */
  method SortByKills(a: array<string>, kills: map<string, int>)
    modifies a
    ensures multiset(a[..]) == multiset(old(a[..]))
    ensures ByKills(a[..], kills)
  {
    var i := 0;
    while i < a.Length
      invariant 0 <= i <= a.Length
      invariant ByKills(a[..i], kills)
      invariant multiset(a[..]) == multiset(old(a[..]))
    {
      InsertByKills(a, kills, i);
      i := i + 1;
    }
    assert a[..i] == a[..];
  }

  /** The players' names sorted in a fresh array, as sort.Slice does on
      the slice data.Players. */
  method SortedByKills(names: seq<string>, kills: map<string, int>) returns (r: seq<string>)
    ensures multiset(r) == multiset(names)
    ensures ByKills(r, kills)
  {
    var a := new string[|names|](i requires 0 <= i < |names| => names[i]);
    assert a[..] == names;
    SortByKills(a, kills);
    r := a[..];
  }

  /** What the loop of MarshalJSON has built after visiting the players in
      `order`: the names, the kills by name, and the kills by means. */
  datatype Listing = Listing(names: seq<string>, kills: map<string, int>, killsByMeans: map<string, int>)

  function ListPlayers(ps: Roster, order: seq<string>): Listing
    requires forall i :: 0 <= i < |order| ==> order[i] in ps
  {
    if order == [] then Listing([], map[], map[])
    else
      var l, p := ListPlayers(ps, order[..|order| - 1]), ps[order[|order| - 1]];
      Listing(l.names + [p.name], l.kills[p.name := p.kills], BumpAll(l.killsByMeans, p.deathCauses))
  }

  /** The listing holds every visited player's name, for each name the
      kills of some player of that name (the last one visited), and the
      number of occurrences of every means of death. */
  lemma {:induction false} ListPlayersFacts(ps: Roster, order: seq<string>)
    requires forall i :: 0 <= i < |order| ==> order[i] in ps
    ensures var l := ListPlayers(ps, order);
      && l.names == NamesIn(ps, order)
      && (forall n :: n in l.kills <==> n in l.names)
      && (forall n :: n in l.kills ==> exists k :: k in ps && ps[k].name == n && ps[k].kills == l.kills[n])
      && Tallies(l.killsByMeans, CausesIn(ps, order))
  {
    if order != [] {
      var init, id := order[..|order| - 1], order[|order| - 1];
      ListPlayersFacts(ps, init);
      var l, r := ListPlayers(ps, init), ListPlayers(ps, order);
      TalliesBumpAll(l.killsByMeans, CausesIn(ps, init), ps[id].deathCauses);
      forall n | n in r.kills ensures exists k :: k in ps && ps[k].name == n && ps[k].kills == r.kills[n] {
        if n == ps[id].name {
          assert ps[id].name == n && ps[id].kills == r.kills[n];
        }
      }
    }
  }

  /** The keys listed in `order`. */
  function Listed(order: seq<string>): set<string>
  {
    set i | 0 <= i < |order| :: order[i]
  }

  /** The causes of distinct listed players number the deaths recorded for
      them: all deaths minus those of the players not listed. */
  lemma {:induction false} CausesInCount(ps: Roster, order: seq<string>)
    requires forall i :: 0 <= i < |order| ==> order[i] in ps
    requires forall i, j :: 0 <= i < j < |order| ==> order[i] != order[j]
    ensures |CausesIn(ps, order)| + TotalDeaths(ps - Listed(order)) == TotalDeaths(ps)
  {
    if order != [] {
      var init, id := order[..|order| - 1], order[|order| - 1];
      CausesInCount(ps, init);
      var rest, left := ps - Listed(init), ps - Listed(order);
      assert Listed(order) == Listed(init) + {id};
      assert id in rest && left == rest - {id};
      SumRemove(Project(rest, DeathCount), id);
      assert Project(rest, DeathCount) - {id} == Project(left, DeathCount);
      assert CausesIn(ps, order) == CausesIn(ps, init) + ps[id].deathCauses;
    } else {
      assert ps - Listed(order) == ps;
    }
  }

  /** What MarshalJSON's loop builds over a whole roster, in any iteration
      order: every player's name, each name's kills taken from a player of
      that name, and the occurrences of every means of death, which add up
      to the deaths of the roster. */
  lemma ListingSound(ps: Roster, order: seq<string>)
    requires Enumerates(order, ps.Keys)
    ensures forall i :: 0 <= i < |order| ==> order[i] in ps
    ensures var l := ListPlayers(ps, order);
      && l.names == NamesIn(ps, order)
      && (forall n :: n in l.kills <==> n in l.names)
      && (forall n :: n in l.kills ==> exists k :: k in ps && ps[k].name == n && ps[k].kills == l.kills[n])
      && Tallies(l.killsByMeans, CausesIn(ps, order))
      && Sum(l.killsByMeans) == TotalDeaths(ps)
  {
    assert forall i :: 0 <= i < |order| ==> order[i] in ps;
    ListPlayersFacts(ps, order);
    CausesInCount(ps, order);
    assert ps - Listed(order) == map[];
    assert Project(ps - Listed(order), DeathCount) == map[];
  }

  /** The fields of the JSON record of a match. */
  datatype MatchJson = MatchJson(
    totalKills: int,
    players: seq<string>,
    kills: map<string, int>,
    killsByMeans: map<string, int>)

  // ---------------------------------------------------------------------
  // The match object

  /** Every player object is stored under its own ID, so distinct keys
      hold distinct objects. */
  ghost predicate Keyed(players: map<string, Player>)
    reads players.Values
  {
    forall k :: k in players ==> players[k].id == k
  }

  /** The players' current field values. */
  ghost function Snapshot(players: map<string, Player>): Roster
    reads players.Values
  {
    map k | k in players :: players[k].State()
  }

  /** The loop of MarshalJSON over the players map: visits every player
      once, in some order, collecting what ListPlayers describes. */
  method VisitPlayers(players: map<string, Player>)
    returns (names: seq<string>, kills: map<string, int>, killsByMeans: map<string, int>, ghost order: seq<string>)
    ensures Enumerates(order, players.Keys)
    ensures forall i :: 0 <= i < |order| ==> order[i] in players
    ensures Listing(names, kills, killsByMeans) == ListPlayers(Snapshot(players), order)
  {
    ghost var ps := Snapshot(players);
    names, kills, killsByMeans := [], map[], map[];
    var remaining := players.Keys;
    order := [];
    while remaining != {}
      invariant remaining <= players.Keys
      invariant forall x :: x in order <==> x in players.Keys - remaining
      invariant forall i :: 0 <= i < |order| ==> order[i] in players
      invariant forall i, j :: 0 <= i < j < |order| ==> order[i] != order[j]
      invariant Listing(names, kills, killsByMeans) == ListPlayers(ps, order)
      decreases remaining
    {
      var id :| id in remaining;
      assert id !in order;
      var player := players[id];
      assert ps[id] == player.State();
      names := names + [player.name];
      kills := kills[player.name := player.kills];
      killsByMeans := CountMeans(killsByMeans, player.deathCauses);
      assert (order + [id])[..|order|] == order;
      order := order + [id];
      remaining := remaining - {id};
    }
  }

  class Match {
    var score: int
    var players: map<string, Player>
    var matchLog: seq<string>

    /** The score is the number of recorded deaths and bounds the kills. */
    ghost predicate Valid()
      reads this, players.Values
    {
      && Keyed(players)
      && score == TotalDeaths(Snapshot(players))
      && TotalKills(Snapshot(players)) <= score
    }

    /** NewMatch. */
    constructor (loglines: seq<string>)
      ensures score == 0 && players == map[] && matchLog == loglines
      ensures Valid()
    {
      score := 0;
      players := map[];
      matchLog := loglines;
      new;
      assert Project(Snapshot(players), DeathCount) == map[];
      assert Project(Snapshot(players), KillCount) == map[];
    }

    /** findOrCreatePlayer: the stored player when the ID is present,
        otherwise a new player inserted under that ID; no other entry changes. */
    method FindOrCreatePlayer(playerId: string) returns (p: Player)
      requires Keyed(players)
      modifies this
      ensures Keyed(players)
      ensures score == old(score) && matchLog == old(matchLog)
      ensures playerId in players && players[playerId] == p
      ensures playerId in old(players) ==> players == old(players)
      ensures playerId !in old(players) ==> fresh(p) && players == old(players)[playerId := p]
      ensures Snapshot(players) == old(Snapshot(players))[playerId := Lookup(old(Snapshot(players)), playerId)]
    {
      if playerId in players {
        p := players[playerId];
      } else {
        p := new Player(playerId);
        players := players[p.id := p];
      }
    }

    /** Only the player stored under `id` has changed since the old state. */
    twostate lemma OnlyChanged(id: string)
      requires unchanged(this) && old(Keyed(players)) && id in players
      requires forall k :: k in players && k != id ==> unchanged(players[k])
      requires players[id].id == old(players[id].id)
      ensures Keyed(players)
      ensures Snapshot(players) == old(Snapshot(players))[id := players[id].State()]
    {
    }

    /** The victim half of OnKill: findOrCreatePlayer(victimId), then
        RecordDeath(cause) on that player. */
    method RecordDeathOf(victimId: string, cause: MeansOfDeath) returns (v: Player)
      requires Keyed(players)
      modifies this, players.Values
      ensures Keyed(players)
      ensures score == old(score) && matchLog == old(matchLog)
      ensures victimId in players && players[victimId] == v
      ensures victimId in old(players) ==> players == old(players)
      ensures victimId !in old(players) ==> fresh(v) && players == old(players)[victimId := v]
      ensures Snapshot(players) == WithDeath(old(Snapshot(players)), victimId, cause)
    {
      ghost var before := Snapshot(players);
      v := FindOrCreatePlayer(victimId);
      ghost var found := Snapshot(players);
      assert v.State() == found[victimId] == Lookup(before, victimId);
      label Found:
      v.RecordDeath(cause);
      assert forall k :: k in players && k != victimId ==> unchanged@Found(players[k]);
      OnlyChanged@Found(victimId);
      CreateThenUpdate(before, found, Snapshot(players), victimId, v.State());
    }

    /** The killer half of OnKill: findOrCreatePlayer(killerId), then
        RecordKill(v) on that player. */
    method RecordKillBy(killerId: string, v: Player)
      requires Keyed(players)
      modifies this, players.Values
      ensures Keyed(players)
      ensures score == old(score) && matchLog == old(matchLog)
      ensures Snapshot(players) == WithKill(old(Snapshot(players)), killerId)
    {
      ghost var before := Snapshot(players);
      var k := FindOrCreatePlayer(killerId);
      ghost var found := Snapshot(players);
      assert k.State() == found[killerId] == Lookup(before, killerId);
      label Found:
      k.RecordKill(v);
      assert forall x :: x in players && x != killerId ==> unchanged@Found(players[x]);
      OnlyChanged@Found(killerId);
      CreateThenUpdate(before, found, Snapshot(players), killerId, k.State());
    }

    /** OnKill with the tokens of a kill line: one more point of score, a
        death for the victim and, unless the world killed, a kill for the
        killer. */
    method OnKill(log: seq<string>)
      requires Valid() && |log| >= 4
      modifies this, players.Values
      ensures Valid()
      ensures score == old(score) + 1 && matchLog == old(matchLog)
      ensures Snapshot(players) == AfterKill(old(Snapshot(players)), log)
    {
      ghost var before := Snapshot(players);
      var lastPosition := |log| - 1;
      var deathCause := log[lastPosition];
      var cause := MeansOfDeath(deathCause);

      score := score + 1;
      assert Snapshot(players) == before;

      var victimId := log[3];
      var v := RecordDeathOf(victimId, cause);

      var killerId := log[2];
      if killerId == WorldId {
        AfterKillTotals(before, log);
        return;
      }

      RecordKillBy(killerId, v);
      AfterKillTotals(before, log);
    }

    /** OnPlayerInfoChange with the payload of a ClientUserinfoChanged line. */
    method OnPlayerInfoChange(log: string)
      requires Valid() && NameWellFormed(log)
      modifies this, players.Values
      ensures Valid()
      ensures score == old(score) && matchLog == old(matchLog)
      ensures Snapshot(players) == AfterInfoChange(old(Snapshot(players)), log)
    {
      ghost var before := Snapshot(players);
      var playerId := Split(log, " ")[0];
      var startIndex := Index(log, NameOpen) + |NameOpen|;
      var endIndex := Index(log, NameClose);
      var name := log[startIndex..endIndex];

      var p := FindOrCreatePlayer(playerId);
      ghost var found := Snapshot(players);
      assert p.State() == Snapshot(players)[playerId] == Lookup(before, playerId);
      label Found:
      p.UpdateNickname(name);
      assert forall k :: k in players && k != playerId ==> unchanged@Found(players[k]);
      OnlyChanged@Found(playerId);
      CreateThenUpdate(before, found, Snapshot(players), playerId, p.State());
      AfterInfoChangeEffect(before, log);
    }

    /** The record MarshalJSON encodes: the score; one name per player,
        ordered by non-increasing kills; each name's kills, taken from some
        player of that name; and for each means of death its number of
        occurrences over all players' death causes, which sum to the score. */
    method MarshalJson() returns (data: MatchJson, ghost order: seq<string>, ghost ps: Roster)
      requires Valid()
      ensures ps == old(Snapshot(players))
      ensures data.totalKills == score
      ensures Enumerates(order, ps.Keys)
      ensures multiset(data.players) == multiset(NamesIn(ps, order))
      ensures ByKills(data.players, data.kills)
      ensures forall n :: n in data.kills <==> n in data.players
      ensures forall n :: n in data.kills ==> exists k :: k in ps && ps[k].name == n && ps[k].kills == data.kills[n]
      ensures Tallies(data.killsByMeans, CausesIn(ps, order))
      ensures Sum(data.killsByMeans) == score
    {
      ps := Snapshot(players);
      var names, kills, killsByMeans;
      names, kills, killsByMeans, order := VisitPlayers(players);
      ListingSound(ps, order);
      var sorted := SortedByKills(names, kills);
      assert forall n :: n in sorted <==> n in names by {
        assert forall n :: n in sorted <==> multiset(sorted)[n] > 0;
        assert forall n :: n in names <==> multiset(names)[n] > 0;
      }
      data := MatchJson(score, sorted, kills, killsByMeans);
    }
  }
}
