/** internal/logparser/parser.go: the match segmenter (detectMatches), the
    first aggregator (parseMatchEvents, processMatches) and the players
    projection of its MarshalJSON. */
module Parser {
  import opened GoStrings
  import opened Events
  import opened Tally

  // ---------------------------------------------------------------------
  // Match segmentation

  /** A line that detectMatches keeps in a batch: neither a boundary nor a separator. */
  predicate IsRelevant(line: string)
  {
    !IsBoundary(line) && !IsSeparator(line)
  }

  /** The state of detectMatches after some prefix of the log: the batches
      emitted so far, the buffer `lines` and the flag `inMatch`. */
  datatype Scan = Scan(batches: seq<seq<string>>, lines: seq<string>, inMatch: bool)

  /** One iteration of the scanning loop. */
  function ScanLine(s: Scan, line: string): Scan
  {
    if IsBoundary(line) then
      if s.inMatch then Scan(s.batches + [s.lines], [], false)
      else s.(inMatch := true)
    else if !IsSeparator(line) then Scan(s.batches, s.lines + [line], true)
    else s
  }

  /** The scanning state after the whole of `input`. */
  function ScanAll(input: seq<string>): Scan
    decreases |input|
  {
    if input == [] then Scan([], [], false)
    else ScanLine(ScanAll(input[..|input| - 1]), input[|input| - 1])
  }

  /** The batches detectMatches appends for `input`: those emitted at
      boundaries, then the buffer if it is non-empty at end of input. */
  function Segments(input: seq<string>): seq<seq<string>>
  {
    var s := ScanAll(input);
    if |s.lines| != 0 then s.batches + [s.lines] else s.batches
  }

  /** The relevant lines of `input`, in order. */
  function Relevant(input: seq<string>): seq<string>
    decreases |input|
  {
    if input == [] then []
    else
      var last := input[|input| - 1];
      Relevant(input[..|input| - 1]) + (if IsRelevant(last) then [last] else [])
  }

  /** The concatenation of the batches, in order. */
  function Flatten(batches: seq<seq<string>>): seq<string>
    decreases |batches|
  {
    if batches == [] then []
    else Flatten(batches[..|batches| - 1]) + batches[|batches| - 1]
  }

  /** The scan loses, duplicates and reorders nothing: the emitted batches
      followed by the buffer are exactly the relevant lines read so far, and
      a non-empty buffer always has `inMatch` set. */
  lemma {:induction false} ScanAllInvariant(input: seq<string>)
    ensures Flatten(ScanAll(input).batches) + ScanAll(input).lines == Relevant(input)
    ensures ScanAll(input).lines != [] ==> ScanAll(input).inMatch
  {
    if input != [] {
      var prefix, last := input[..|input| - 1], input[|input| - 1];
      ScanAllInvariant(prefix);
      var s := ScanAll(prefix);
      if IsBoundary(last) && s.inMatch {
        assert (s.batches + [s.lines])[..|s.batches|] == s.batches;
      }
    }
  }

  /** Concatenated in order, the batches of Segments are the input with every
      boundary line and every separator line removed. */
  lemma SegmentsFlatten(input: seq<string>)
    ensures Flatten(Segments(input)) == Relevant(input)
  {
    ScanAllInvariant(input);
    var s := ScanAll(input);
    if |s.lines| != 0 {
      assert (s.batches + [s.lines])[..|s.batches|] == s.batches;
    }
  }

  /** Every line in every batch is a relevant line of the input. */
  lemma {:induction false} RelevantMembers(input: seq<string>, x: string)
    requires x in Relevant(input)
    ensures x in input && IsRelevant(x)
  {
    if input != [] {
      var prefix := input[..|input| - 1];
      if x in Relevant(prefix) {
        RelevantMembers(prefix, x);
      }
    }
  }

  lemma {:induction false} FlattenMembers(batches: seq<seq<string>>, i: int, x: string)
    requires 0 <= i < |batches| && x in batches[i]
    ensures x in Flatten(batches)
  {
    if i < |batches| - 1 {
      FlattenMembers(batches[..|batches| - 1], i, x);
    }
  }

  lemma SegmentsOnlyRelevant(input: seq<string>, i: int, x: string)
    requires 0 <= i < |Segments(input)| && x in Segments(input)[i]
    ensures x in input && !IsBoundary(x) && !IsSeparator(x)
  {
    FlattenMembers(Segments(input), i, x);
    SegmentsFlatten(input);
    RelevantMembers(input, x);
  }

  /** A log that ends with a relevant line, with no closing boundary, still
      yields a final batch, and that line ends it. */
  lemma TrailingBatch(input: seq<string>)
    requires input != [] && IsRelevant(input[|input| - 1])
    ensures Segments(input) != []
    ensures var b := Segments(input)[|Segments(input)| - 1];
            b != [] && b[|b| - 1] == input[|input| - 1]
  {
  }

  /** Outside a match (at the start of the log, or just after a boundary
      closed one), two boundaries in a row emit exactly one batch, and it is
      empty: the first only sets `inMatch`, the second flushes the empty
      buffer and leaves the scan outside a match again. */
  lemma DoubleBoundaryEmitsEmpty(input: seq<string>, b1: string, b2: string)
    requires !ScanAll(input).inMatch && IsBoundary(b1) && IsBoundary(b2)
    ensures ScanAll(input + [b1, b2]).batches == ScanAll(input).batches + [[]]
    ensures ScanAll(input + [b1, b2]).lines == [] && !ScanAll(input + [b1, b2]).inMatch
  {
    ScanAllInvariant(input);
    var extended := input + [b1, b2];
    assert extended[..|extended| - 1] == input + [b1];
    assert (input + [b1])[..|input|] == input;
  }

  /** The smallest instance: a log made of two boundary lines yields a
      single, empty, batch. */
  lemma EmptyBatchAfterDoubleBoundary()
    ensures Segments(["InitGame:", "InitGame:"]) == [[]]
  {
    assert OccursAt("InitGame:", BoundaryMarker, 0);
    var input := ["InitGame:", "InitGame:"];
    assert input[..1][..0] == [];
    assert ScanAll(input[..1]) == Scan([], [], true);
  }

  // ---------------------------------------------------------------------
  // Aggregation of one batch

  datatype PlayerData = PlayerData(name: string, kills: int, deaths: int)

  datatype Match = Match(totalKills: int, players: map<string, PlayerData>, matchLog: seq<string>)

  function PlayerKills(p: PlayerData): int { p.kills }
  function PlayerDeaths(p: PlayerData): int { p.deaths }

  /** The sum of Kills over all players. */
  ghost function KillSum(players: map<string, PlayerData>): int
  {
    Sum(Project(players, PlayerKills))
  }

  /** The sum of Deaths over all players. */
  ghost function DeathSum(players: map<string, PlayerData>): int
  {
    Sum(Project(players, PlayerDeaths))
  }

  /** The entry for `id`, or the zero PlayerData Go's map lookup would miss. */
  function Entry(players: map<string, PlayerData>, id: string): PlayerData
  {
    if id in players then players[id] else PlayerData("", 0, 0)
  }

  /** A line on which parseMatchEvents does not panic: a Kill line has at
      least four fields, and a ClientUserinfoChanged line has a payload whose
      nickname slice is in bounds. */
  predicate Parsable(line: string)
  {
    if IsKill(line) then |Fields(line)| >= 4
    else if IsUserinfo(line) then HasPayload(line) && NameWellFormed(Payload(line))
    else true
  }

  predicate AllParsable(lines: seq<string>)
  {
    forall i :: 0 <= i < |lines| ==> Parsable(lines[i])
  }

  /** The killer is credited with a kill: not the world, not the victim. */
  predicate Credited(killer: string, victim: string)
  {
    killer != WorldId && killer != victim
  }

  function AddDeath(players: map<string, PlayerData>, id: string): map<string, PlayerData>
  {
    if id in players then players[id := players[id].(deaths := players[id].deaths + 1)]
    else players[id := PlayerData("", 0, 1)]
  }

  function AddKill(players: map<string, PlayerData>, id: string): map<string, PlayerData>
  {
    if id in players then players[id := players[id].(kills := players[id].kills + 1)]
    else players[id := PlayerData("", 1, 0)]
  }

  function SetName(players: map<string, PlayerData>, id: string, name: string): map<string, PlayerData>
  {
    if id in players then players[id := players[id].(name := name)]
    else players[id := PlayerData(name, 0, 0)]
  }

  /** The effect of a Kill line whose killer and victim fields are given. */
  function KillStep(m: Match, killer: string, victim: string): Match
  {
    var m := m.(totalKills := m.totalKills + 1);
    if killer == WorldId then m.(players := AddDeath(m.players, victim))
    else if killer != victim then m.(players := AddDeath(AddKill(m.players, killer), victim))
    else m.(players := AddDeath(m.players, victim))
  }

  /** The effect of one line of the batch on the match. */
  function Step(m: Match, line: string): Match
    requires Parsable(line)
  {
    if IsKill(line) then
      var f := Fields(line);
      KillStep(m, f[2], f[3])
    else if IsUserinfo(line) then
      var payload := Payload(line);
      m.(players := SetName(m.players, PlayerId(payload), Nickname(payload)))
    else m
  }

  /** The match after applying `lines` to `m`, in order. */
  function Replay(m: Match, lines: seq<string>): Match
    requires AllParsable(lines)
    decreases |lines|
  {
    if lines == [] then m
    else Step(Replay(m, lines[..|lines| - 1]), lines[|lines| - 1])
  }

  lemma ReplayNext(m: Match, lines: seq<string>, i: int)
    requires AllParsable(lines) && 0 <= i < |lines|
    ensures AllParsable(lines[..i]) && AllParsable(lines[..i + 1])
    ensures Replay(m, lines[..i + 1]) == Step(Replay(m, lines[..i]), lines[i])
  {
    assert lines[..i + 1][..i] == lines[..i];
  }

  /** The match parseMatchEvents builds from a batch. */
  function Aggregate(lines: seq<string>): Match
    requires AllParsable(lines)
  {
    Replay(Match(0, map[], lines), lines)
  }

  /** The number of lines containing `Kill`. */
  function KillLines(lines: seq<string>): nat
    decreases |lines|
  {
    if lines == [] then 0
    else KillLines(lines[..|lines| - 1]) + (if IsKill(lines[|lines| - 1]) then 1 else 0)
  }

  /** The number of Kill lines that credit their killer with a kill. */
  function CreditedLines(lines: seq<string>): nat
    requires AllParsable(lines)
    decreases |lines|
  {
    if lines == [] then 0
    else
      var last := lines[|lines| - 1];
      CreditedLines(lines[..|lines| - 1])
      + (if IsKill(last) && Credited(Fields(last)[2], Fields(last)[3]) then 1 else 0)
  }

  lemma AddDeathEffect(players: map<string, PlayerData>, id: string)
    ensures var r := AddDeath(players, id);
      && r == players[id := Entry(players, id).(deaths := Entry(players, id).deaths + 1)]
      && DeathSum(r) == DeathSum(players) + 1
      && KillSum(r) == KillSum(players)
  {
    var p := Entry(players, id);
    ProjectUpdate(players, PlayerDeaths, id, p.(deaths := p.deaths + 1));
    ProjectUpdate(players, PlayerKills, id, p.(deaths := p.deaths + 1));
  }

  lemma AddKillEffect(players: map<string, PlayerData>, id: string)
    ensures var r := AddKill(players, id);
      && r == players[id := Entry(players, id).(kills := Entry(players, id).kills + 1)]
      && DeathSum(r) == DeathSum(players)
      && KillSum(r) == KillSum(players) + 1
  {
    var p := Entry(players, id);
    ProjectUpdate(players, PlayerDeaths, id, p.(kills := p.kills + 1));
    ProjectUpdate(players, PlayerKills, id, p.(kills := p.kills + 1));
  }

  /** A Kill event counts one kill and one death for the victim; its killer
      gains a kill only when credited; nobody else and no name changes, and
      a player the event creates has an empty name. */
  lemma KillStepEffect(m: Match, killer: string, victim: string)
    ensures var r := KillStep(m, killer, victim);
      && r.totalKills == m.totalKills + 1
      && r.matchLog == m.matchLog
      && r.players.Keys == m.players.Keys + {victim} + (if Credited(killer, victim) then {killer} else {})
      && r.players[victim].deaths == Entry(m.players, victim).deaths + 1
      && (Credited(killer, victim) ==> r.players[killer].kills == Entry(m.players, killer).kills + 1)
      && r.players[victim].kills == Entry(m.players, victim).kills
      && (Credited(killer, victim) ==> r.players[killer].deaths == Entry(m.players, killer).deaths)
      && (forall id :: id in m.players && id != killer && id != victim ==> r.players[id] == m.players[id])
      && (forall id :: id in m.players ==> r.players[id].name == m.players[id].name)
      && (forall id :: id in r.players && id !in m.players ==> r.players[id].name == "")
      && Entry(r.players, WorldId).kills == Entry(m.players, WorldId).kills
  {
  }

  /** A Kill event adds one to the deaths over all players, and one to the
      kills exactly when its killer is credited. */
  lemma KillStepTotals(m: Match, killer: string, victim: string)
    ensures var r := KillStep(m, killer, victim);
      && DeathSum(r.players) == DeathSum(m.players) + 1
      && KillSum(r.players) == KillSum(m.players) + (if Credited(killer, victim) then 1 else 0)
  {
    if Credited(killer, victim) {
      AddKillEffect(m.players, killer);
      AddDeathEffect(AddKill(m.players, killer), victim);
    } else {
      AddDeathEffect(m.players, victim);
    }
  }

  /** A Kill line takes its killer from field 2 and its victim from field 3. */
  lemma StepKill(m: Match, line: string)
    requires Parsable(line) && IsKill(line)
    ensures Step(m, line) == KillStep(m, Fields(line)[2], Fields(line)[3])
  {
  }

  /** A ClientUserinfoChanged line that is not a Kill line upserts the name
      of the player its payload names and changes nothing else. */
  lemma StepUserinfo(m: Match, line: string)
    requires Parsable(line) && !IsKill(line) && IsUserinfo(line)
    ensures var p := Payload(line); var id := PlayerId(p); var r := Step(m, line);
      && r.totalKills == m.totalKills
      && r.matchLog == m.matchLog
      && r.players.Keys == m.players.Keys + {id}
      && r.players[id] == Entry(m.players, id).(name := Nickname(p))
      && (forall o :: o in m.players && o != id ==> r.players[o] == m.players[o])
      && DeathSum(r.players) == DeathSum(m.players)
      && KillSum(r.players) == KillSum(m.players)
  {
    var p := Payload(line);
    var id := PlayerId(p);
    StepName(m, line);
    SetNameEffect(m.players, id, Nickname(p));
  }

  lemma StepName(m: Match, line: string)
    requires Parsable(line) && !IsKill(line) && IsUserinfo(line)
    ensures Step(m, line) == m.(players := SetName(m.players, PlayerId(Payload(line)), Nickname(Payload(line))))
  {
  }

  lemma SetNameEffect(players: map<string, PlayerData>, id: string, name: string)
    ensures var r := SetName(players, id, name);
      && r == players[id := Entry(players, id).(name := name)]
      && DeathSum(r) == DeathSum(players)
      && KillSum(r) == KillSum(players)
  {
    var q := Entry(players, id).(name := name);
    ProjectUpdate(players, PlayerDeaths, id, q);
    ProjectUpdate(players, PlayerKills, id, q);
  }

  /** Any other line leaves the match as it is. */
  lemma StepOther(m: Match, line: string)
    requires !IsKill(line) && !IsUserinfo(line)
    ensures Step(m, line) == m
  {
  }

  /** A later ClientUserinfoChanged line for the same ID overwrites the name. */
  lemma LaterNameWins(m: Match, first: string, second: string)
    requires Parsable(first) && !IsKill(first) && IsUserinfo(first)
    requires Parsable(second) && !IsKill(second) && IsUserinfo(second)
    requires PlayerId(Payload(first)) == PlayerId(Payload(second))
    ensures var id := PlayerId(Payload(second));
      Step(Step(m, first), second).players[id] ==
        Entry(m.players, id).(name := Nickname(Payload(second)))
  {
    StepUserinfo(m, first);
    StepUserinfo(Step(m, first), second);
  }

  /** What one line adds to the counts. */
  lemma StepCounts(m: Match, line: string)
    requires Parsable(line)
    ensures var r := Step(m, line);
      && r.totalKills == m.totalKills + (if IsKill(line) then 1 else 0)
      && DeathSum(r.players) == DeathSum(m.players) + (if IsKill(line) then 1 else 0)
      && KillSum(r.players) == KillSum(m.players)
           + (if IsKill(line) && Credited(Fields(line)[2], Fields(line)[3]) then 1 else 0)
      && Entry(r.players, WorldId).kills == Entry(m.players, WorldId).kills
      && r.matchLog == m.matchLog
  {
    if IsKill(line) {
      StepKill(m, line);
      KillStepEffect(m, Fields(line)[2], Fields(line)[3]);
      KillStepTotals(m, Fields(line)[2], Fields(line)[3]);
    } else if IsUserinfo(line) {
      StepUserinfo(m, line);
      var id := PlayerId(Payload(line));
      if id == WorldId {
        assert Step(m, line).players[id].kills == Entry(m.players, id).kills;
      }
    } else {
      StepOther(m, line);
    }
  }

  /** Replaying a batch adds one to TotalKills and one death per Kill line,
      and one kill per credited Kill line; the world never gains a kill. */
  lemma {:induction false} ReplayCounts(m: Match, lines: seq<string>)
    requires AllParsable(lines)
    ensures var r := Replay(m, lines);
      && r.totalKills == m.totalKills + KillLines(lines)
      && DeathSum(r.players) == DeathSum(m.players) + KillLines(lines)
      && KillSum(r.players) == KillSum(m.players) + CreditedLines(lines)
      && CreditedLines(lines) <= KillLines(lines)
      && Entry(r.players, WorldId).kills == Entry(m.players, WorldId).kills
      && r.matchLog == m.matchLog
  {
    if lines != [] {
      var prefix, last := lines[..|lines| - 1], lines[|lines| - 1];
      ReplayCounts(m, prefix);
      StepCounts(Replay(m, prefix), last);
    }
  }

  /** The statistics of one batch: TotalKills is the number of Kill lines,
      the deaths sum to TotalKills, the kills sum to the number of credited
      Kill lines and so at most TotalKills, and the world has no kills. */
  lemma AggregateCounts(lines: seq<string>)
    requires AllParsable(lines)
    ensures var m := Aggregate(lines);
      && m.totalKills == KillLines(lines)
      && DeathSum(m.players) == m.totalKills
      && KillSum(m.players) == CreditedLines(lines)
      && KillSum(m.players) <= m.totalKills
      && Entry(m.players, WorldId).kills == 0
      && m.matchLog == lines
  {
    var m0 := Match(0, map[], lines);
    ReplayCounts(m0, lines);
    assert Project(m0.players, PlayerKills) == map[];
    assert Project(m0.players, PlayerDeaths) == map[];
  }

  /** The Kill branch of parseMatchEvents: one more kill for the match, one
      death for the victim, and one kill for a credited killer. */
  method CountKill(m0: Match, killerId: string, victimId: string) returns (m: Match)
    ensures m == KillStep(m0, killerId, victimId)
  {
    m := m0.(totalKills := m0.totalKills + 1);
    if killerId == WorldId {
      if victimId !in m.players {
        m := m.(players := m.players[victimId := PlayerData("", 0, 1)]);
      } else {
        var p := m.players[victimId];
        m := m.(players := m.players[victimId := p.(deaths := p.deaths + 1)]);
      }
      assert m.players == AddDeath(m0.players, victimId);
    } else if killerId != victimId {
      if killerId !in m.players {
        m := m.(players := m.players[killerId := PlayerData("", 1, 0)]);
      } else {
        var p := m.players[killerId];
        m := m.(players := m.players[killerId := p.(kills := p.kills + 1)]);
      }
      ghost var credited := m.players;
      assert credited == AddKill(m0.players, killerId);
      if victimId !in m.players {
        m := m.(players := m.players[victimId := PlayerData("", 0, 1)]);
      } else {
        var p := m.players[victimId];
        m := m.(players := m.players[victimId := p.(deaths := p.deaths + 1)]);
      }
      assert m.players == AddDeath(credited, victimId);
    } else {
      if victimId !in m.players {
        m := m.(players := m.players[victimId := PlayerData("", 0, 1)]);
      } else {
        var p := m.players[victimId];
        m := m.(players := m.players[victimId := p.(deaths := p.deaths + 1)]);
      }
      assert m.players == AddDeath(m0.players, victimId);
    }
  }

  /** parseMatchEvents: folds a batch into a Match, line by line. */
  method ParseMatchEvents(lines: seq<string>) returns (m: Match)
    requires AllParsable(lines)
    ensures m == Aggregate(lines)
    ensures m.matchLog == lines
    ensures m.totalKills == KillLines(lines)
    ensures DeathSum(m.players) == m.totalKills
    ensures KillSum(m.players) == CreditedLines(lines) <= m.totalKills
    ensures Entry(m.players, WorldId).kills == 0
  {
    m := Match(0, map[], lines);
    var i := 0;
    while i < |lines|
      invariant 0 <= i <= |lines|
      invariant m == Replay(Match(0, map[], lines), lines[..i])
    {
      var line := lines[i];
      assert Parsable(line);
      ghost var before := m;
      if Contains(line, KillMarker) {
        var eventData := Fields(line);
        m := CountKill(m, eventData[2], eventData[3]);
        StepKill(before, line);
      } else if Contains(line, UserinfoMarker) {
        var logs := Split(line, UserinfoPrefix);
        var eventData := logs[1];
        var playerId := Split(eventData, " ")[0];
        var startIndex := Index(eventData, NameOpen) + |NameOpen|;
        var endIndex := Index(eventData, NameClose);
        var playerNickName := eventData[startIndex..endIndex];
        if playerId !in m.players {
          m := m.(players := m.players[playerId := PlayerData(playerNickName, 0, 0)]);
        } else {
          m := m.(players := m.players[playerId := m.players[playerId].(name := playerNickName)]);
        }
        assert m == Step(before, line);
      } else {
        StepOther(before, line);
      }
      assert m == Step(before, line);
      ReplayNext(Match(0, map[], lines), lines, i);
      assert m == Replay(Match(0, map[], lines), lines[..i + 1]);
      i := i + 1;
    }
    assert lines[..|lines|] == lines;
    AggregateCounts(lines);
  }

  // ---------------------------------------------------------------------
  // The players projection of MarshalJSON

  /** The JSON view of a Match without the name-keyed kills map. */
  datatype MatchJson = MatchJson(totalKills: int, players: seq<string>)

  /** MarshalJSON (without the encoding): the total, and one name per
      registered player, in the map's iteration order `order`. */
  method MarshalJson(m: Match) returns (data: MatchJson, ghost order: seq<string>)
    ensures data.totalKills == m.totalKills
    ensures Enumerates(order, m.players.Keys)
    ensures |data.players| == |order|
    ensures forall i :: 0 <= i < |order| ==> data.players[i] == m.players[order[i]].name
  {
    var names: seq<string> := [];
    var remaining := m.players.Keys;
    order := [];
    while remaining != {}
      invariant remaining <= m.players.Keys
      invariant forall x :: x in order <==> x in m.players.Keys - remaining
      invariant forall i :: 0 <= i < |order| ==> order[i] in m.players
      invariant forall i, j :: 0 <= i < j < |order| ==> order[i] != order[j]
      invariant |names| == |order|
      invariant forall i :: 0 <= i < |order| ==> names[i] == m.players[order[i]].name
      decreases remaining
    {
      var id :| id in remaining;
      assert id !in order;
      names := names + [m.players[id].name];
      order := order + [id];
      remaining := remaining - {id};
    }
    data := MatchJson(m.totalKills, names);
  }

  // ---------------------------------------------------------------------
  // The parser object

  /** LogParser: the log still to be read, and the batches detected so far. */
  class LogParser {
    var logfile: seq<string>
    var matchesLog: seq<seq<string>>

    /** NewLogParser. */
    constructor (logFile: seq<string>, log: seq<seq<string>>)
      ensures logfile == logFile && matchesLog == log
    {
      logfile := logFile;
      matchesLog := log;
    }

    /** detectMatches: reads the whole log and appends its batches to
        matchesLog. The old batches stay a prefix, and the new ones,
        concatenated, are the relevant lines of the log. */
    method DetectMatches()
      modifies this
      ensures matchesLog == old(matchesLog) + Segments(old(logfile))
      ensures old(matchesLog) <= matchesLog
      ensures Flatten(matchesLog[|old(matchesLog)|..]) == Relevant(old(logfile))
      ensures logfile == []
    {
      ghost var input := logfile;
      ghost var read := 0;
      var lines: seq<string> := [];
      var inMatch := false;
      while logfile != []
        invariant 0 <= read <= |input| && logfile == input[read..]
        invariant matchesLog == old(matchesLog) + ScanAll(input[..read]).batches
        invariant lines == ScanAll(input[..read]).lines
        invariant inMatch == ScanAll(input[..read]).inMatch
        invariant lines != [] ==> inMatch
        decreases |logfile|
      {
        var line := logfile[0];
        logfile := logfile[1..];
        ghost var before := ScanAll(input[..read]);
        assert input[..read + 1][..read] == input[..read];
        read := read + 1;
        assert ScanAll(input[..read]) == ScanLine(before, line);
        if Contains(line, BoundaryMarker) {
          if inMatch {
            matchesLog := matchesLog + [lines];
            lines := [];
            inMatch := false;
          } else {
            inMatch := true;
          }
        } else {
          if !Contains(line, SeparatorMarker) {
            inMatch := true;
            lines := lines + [line];
          }
        }
      }
      assert input[..read] == input;
      if |lines| != 0 {
        matchesLog := matchesLog + [lines];
      }
      SegmentsFlatten(input);
      assert matchesLog[|old(matchesLog)|..] == Segments(input);
    }

    /** processMatches (without the printing): one Match per batch, in
        batch order, each keeping its batch as MatchLog. */
    method ProcessMatches() returns (matchData: seq<Match>)
      requires forall i :: 0 <= i < |matchesLog| ==> AllParsable(matchesLog[i])
      ensures |matchData| == |matchesLog|
      ensures forall i :: 0 <= i < |matchesLog| ==>
        matchData[i] == Aggregate(matchesLog[i]) && matchData[i].matchLog == matchesLog[i]
    {
      matchData := [];
      var i := 0;
      while i < |matchesLog|
        invariant 0 <= i <= |matchesLog|
        invariant |matchData| == i
        invariant forall k :: 0 <= k < i ==>
          matchData[k] == Aggregate(matchesLog[k]) && matchData[k].matchLog == matchesLog[k]
      {
        var m := ParseMatchEvents(matchesLog[i]);
        matchData := matchData + [m];
        i := i + 1;
      }
    }
  }
}
