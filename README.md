# Quake 3 kill-log parser, modelled in Dafny

The Go package `internal/logparser` reads a Quake 3 Arena server log and
turns it into per-match kill statistics. This project models its core and
proves what the code promises.

- **Match segmentation** (`detectMatches`):
  - the log is cut into one batch of lines per match at every `InitGame:` boundary;
  - lines containing `---` are dropped.
- **Aggregator A** (`parseMatchEvents`, `processMatches`) folds a batch into a
  `Match` of `PlayerData{Name, Kills, Deaths}` records:
  - a line containing `Kill` counts a kill and a death;
  - a line containing `ClientUserinfoChanged` sets a nickname.
  - Its `MarshalJSON` lists the players' names.
- **Aggregator B** (`Match.OnKill`, `Match.OnPlayerInfoChange`, `Player`):
  - players are objects updated in place through their methods;
  - deaths are kept per player as a list of means of death (`meansOfDeath`);
  - `MarshalJSON` counts the kills by means and sorts the names by kills.

The modules follow the source files:

| module | file | what it holds |
|---|---|---|
| `Parser` | `parser.go` | See the breakdown below. |
| `Matches` | `match.go` | The class `Match` and the value-level `Roster` specification it is proved against. |
| `Players` | `player.go` | The class `Player`. |
| `DeathCauses` | `deathcauses.go` | The means of death and the 29 named constants. |
| `Events` | shared | The markers and token extraction that both aggregators use. |
| `GoStrings` | Go standard library | `strings.Index`, `strings.Contains`, `strings.Fields`, `strings.Split`, `strings.Join`. |
| `Tally` | helper | Sums over the values of a finite map. |

`Parser` holds:
- the class `LogParser` with `DetectMatches` and `ProcessMatches`;
- the fold specifications `ScanAll`/`Segments` and `Replay`/`Aggregate`;
- the `ParseMatchEvents` method that is proved against `Aggregate`.

The methods modelled on imperative Go code are imperative. Each loop is
proved against a specification function (a left fold over the input), and
the properties are lemmas about those functions.

A Go panic becomes a precondition:
- a Kill line with fewer than four fields;
- a `ClientUserinfoChanged` line without the `ClientUserinfoChanged: ` text;
- a nickname slice whose start lies after its end.

The iteration order of a Go map is unspecified. The model therefore takes it
as a ghost out-parameter `order`, for which `Enumerates(order, keys)` holds.

## Where the code and the design differ

The model follows the code in each case.

- **Two boundaries in a row emit an empty batch.**
  - The first `InitGame:` line only sets `inMatch`; the second flushes the empty buffer (internal/logparser/parser.go:186-192).
  - The design says consecutive boundaries must not produce an empty batch.
  - `Parser.DoubleBoundaryEmitsEmpty` states the code's behaviour for every log outside a match, and `Parser.EmptyBatchAfterDoubleBoundary` for the two-line log.
- **A line with both `InitGame:` and `---` is a boundary.**
  - The `---` test is made only on lines that are not boundaries (internal/logparser/parser.go:184-198).
- **In aggregator B, a self kill credits a kill.**
  - `OnKill` records the death and then credits the killer unless it is `1022`, also when killer and victim are the same player (internal/logparser/match.go:53-65).
  - Aggregator A records only the death in that case.
- **There is no fallback to `MOD_UNKNOWN`.**
  - The cause is the last token converted as it is (internal/logparser/match.go:43).
- **A missing `n\` is not an error.**
  - `strings.Index` returns -1, so the nickname starts at byte 1 (see "## Left out" for what this means for a multi-byte first character).
  - Only a start after the end panics, for example when `\t` is missing.
- **The player ID is `strings.Split(payload, " ")[0]`,** the text before the first space. It is empty when the payload starts with a space.
- **Aggregator A does not count kills by means of death.**
  - Aggregator B counts them only in its `MarshalJSON`.
- **The code is sequential.** The concurrent pipeline of the design does not exist in it.

## Model

| member | source | states |
|---|---|---|
| `GoStrings.Index` | internal/logparser/parser.go:161-162 | The offset of the first occurrence, or -1 exactly when there is none. |
| `GoStrings.Contains` | internal/logparser/parser.go:108 | True exactly when the substring occurs somewhere. |
| `GoStrings.Fields` | internal/logparser/parser.go:109 | The fields are non-empty and space-free. Concatenated, they are exactly the non-space characters of the line, in order. |
| `GoStrings.FieldsOfJoin` | internal/logparser/parser.go:109 | Fields cuts at the maximal runs: words without white space, joined by single spaces, split back into exactly those words. |
| `GoStrings.Split` | internal/logparser/parser.go:157 | Joining the pieces with the separator gives the input back, and no piece contains the separator. There are two or more pieces exactly when the separator occurs. A single piece is the whole input; otherwise the first piece ends at the first occurrence. |
| `GoStrings.SecondPieceEnds` | internal/logparser/parser.go:157-158 | The second piece ends where the separator occurs next after the first occurrence, or at the end of the input. |
| `GoStrings.SplitRest` | internal/logparser/parser.go:157 | After the first piece, the pieces are the split of the text after the first occurrence, so the cuts are the leftmost non-overlapping occurrences. |
| `Events.Payload` | internal/logparser/parser.go:157-159 | The text that starts right after the first `ClientUserinfoChanged: ` and ends at the next occurrence or at the end of the line. It does not contain the prefix. |
| `Events.PlayerId` | internal/logparser/parser.go:160 | A space-free prefix of the payload, followed by a space unless it is the whole payload. |
| `Events.Nickname` | internal/logparser/parser.go:161-163 | The text from just after the first `n\`, followed by the first `\t`, which it does not contain. |
| `Parser.ScanAllInvariant` | internal/logparser/parser.go:182-200 | The emitted batches followed by the buffer are exactly the relevant lines read so far. A non-empty buffer always has `inMatch` set. |
| `Parser.SegmentsFlatten` | internal/logparser/parser.go:182-203 | The batches, concatenated in order, are the input with every boundary line and every `---` line removed. |
| `Parser.RelevantMembers` | internal/logparser/parser.go:193-198 | A kept line is a line of the input that is neither a boundary nor a separator. |
| `Parser.SegmentsOnlyRelevant` | internal/logparser/parser.go:184-203 | Every line of every batch is an input line that is neither a boundary nor a separator. |
| `Parser.TrailingBatch` | internal/logparser/parser.go:201-203 | A log ending in a relevant line with no closing boundary still yields a last batch, which ends with that line. |
| `Parser.DoubleBoundaryEmitsEmpty` | internal/logparser/parser.go:186-192 | Outside a match (at the start, or right after a boundary closed one), two boundary lines in a row emit exactly one batch, which is empty, and leave the scan outside a match with an empty buffer. |
| `Parser.EmptyBatchAfterDoubleBoundary` | internal/logparser/parser.go:186-192 | The log made of just two `InitGame:` lines yields a single, empty, batch. |
| `Parser.AddDeathEffect` | internal/logparser/parser.go:119-125 | One more death for the ID, which is created with one death if unseen. Deaths over all players grow by one; kills stay. |
| `Parser.AddKillEffect` | internal/logparser/parser.go:129-135 | One more kill for the ID, which is created with one kill if unseen. Kills over all players grow by one; deaths stay. |
| `Parser.KillStepEffect` | internal/logparser/parser.go:111-153 | A Kill event adds one to `TotalKills` and one death to the victim. The killer gains a kill only when it is neither `1022` nor the victim. The victim's kills never change, and a credited killer's deaths do not change. No other player and no existing name changes, and a player the event creates has an empty name. The world's kills never grow. |
| `Parser.KillStepTotals` | internal/logparser/parser.go:116-153 | Deaths over all players grow by one. Kills grow by one exactly when the killer is credited. |
| `Parser.StepKill` | internal/logparser/parser.go:108-114 | Proof step of `Step`'s definition: a Kill line takes its killer from field 2 and its victim from field 3. |
| `Parser.StepUserinfo` | internal/logparser/parser.go:156-171 | A `ClientUserinfoChanged` line that is not a Kill line upserts the named player's name. It creates the player with zero counts if unseen and changes no count and no other player. |
| `Parser.StepName` | internal/logparser/parser.go:157-171 | Proof step of `Step`'s definition: a `ClientUserinfoChanged` line sets the name of the payload's first token to the nickname. |
| `Parser.SetNameEffect` | internal/logparser/parser.go:165-171 | Setting a name overwrites one entry and leaves the sums of kills and deaths as they are. |
| `Parser.StepOther` | internal/logparser/parser.go:106-172 | Proof step of `Step`'s definition: any other line leaves the match unchanged. |
| `Parser.LaterNameWins` | internal/logparser/parser.go:165-171 | A later `ClientUserinfoChanged` line for the same ID overwrites the name. |
| `Parser.StepCounts` | internal/logparser/parser.go:105-172 | One line adds one to `TotalKills` and to the deaths exactly when it is a Kill line, and a kill exactly when that Kill line credits its killer. The world gains no kill. |
| `Parser.ReplayCounts` | internal/logparser/parser.go:105-173 | A batch adds one to `TotalKills` and one death per Kill line, and one kill per credited Kill line, which is at most the number of Kill lines. |
| `Parser.AggregateCounts` | internal/logparser/parser.go:99-175 | `TotalKills` is the number of Kill lines and the deaths sum to it. The kills sum to the credited Kill lines, at most `TotalKills`. The world has no kills, and `MatchLog` is the batch. |
| `Parser.CountKill` | internal/logparser/parser.go:111-153 | The Kill branch's three-way switch computes the Kill event specification. |
| `Parser.ParseMatchEvents` | internal/logparser/parser.go:99-175 | The loop computes the fold of the batch. It also carries every count of `AggregateCounts`. |
| `Parser.MarshalJson` | internal/logparser/parser.go:41-60 | `total_kills` is `TotalKills`, and `players` holds one name per registered player, in the map's iteration order. |
| `Parser.LogParser.constructor` | internal/logparser/parser.go:18-23 | Stores the log to read and the batches given. |
| `Parser.LogParser.DetectMatches` | internal/logparser/parser.go:177-210 | The old batches stay a prefix, and the appended batches are those of the segmentation. Concatenated, they are the relevant lines of the log; the log is read to its end. |
| `Parser.LogParser.ProcessMatches` | internal/logparser/parser.go:82-97 | One match per batch, in batch order, each aggregated from its batch and keeping it as `MatchLog`. |
| `DeathCauses.MeansOfDeath.String` | internal/logparser/deathcauses.go:37-39 | Converting the result back gives the same means of death. |
| `DeathCauses.StringOfConversion` | internal/logparser/deathcauses.go:37-39 | `String(meansOfDeath(s)) == s` for every string, named or not. |
| `DeathCauses.NamedHavePrefix` | internal/logparser/deathcauses.go:5-35 | There are 29 named values, and each reads `MOD_` followed by a non-empty suffix. |
| `DeathCauses.OneOfTheConstants` | internal/logparser/deathcauses.go:6-34 | A named value is one of the 29 declared constants, whose strings are their identifiers. |
| `DeathCauses.NamedDistinct` | internal/logparser/deathcauses.go:5-35 | The 29 named values are pairwise distinct. |
| `DeathCauses.StringInjectiveOnNamed` | internal/logparser/deathcauses.go:5-39 | Named values with the same string are the same constant. |
| `DeathCauses.UnnamedTokenKept` | internal/logparser/match.go:43 | Every token outside the named set converts to itself: not to `MOD_UNKNOWN`, and to no named value. |
| `DeathCauses.OnlyItsTokenIsUnknown` | internal/logparser/match.go:43 | The conversion has no fallback: a token becomes `MOD_UNKNOWN` exactly when it is `"MOD_UNKNOWN"`. |
| `DeathCauses.UnnamedTokenExample` | internal/logparser/match.go:43 | Unnamed tokens occur: `MOD_HEADBUTT` is outside the named set and stays `MOD_HEADBUTT`. |
| `Players.Player.constructor` | internal/logparser/player.go:23-27 | `NewPlayer(id)` has that ID, an empty name, no kills and no death causes. |
| `Players.Player.RecordKill` | internal/logparser/player.go:10-13 | One more kill. ID, name and death causes stay, and a victim that is another player is untouched. |
| `Players.Player.RecordDeath` | internal/logparser/player.go:15-17 | The cause is appended. ID, name and kills stay. |
| `Players.Player.UpdateNickname` | internal/logparser/player.go:19-21 | Sets the name and nothing else, so a repeated call with the same name changes nothing. |
| `Matches.WithDeathTotals` | internal/logparser/match.go:53-54 | Recording a death adds one to the deaths over all players and leaves the kills. |
| `Matches.WithKillTotals` | internal/logparser/match.go:64-65 | Recording a kill adds one to the kills over all players and leaves the deaths. |
| `Matches.WithNameTotals` | internal/logparser/match.go:74-75 | Renaming changes neither the deaths nor the kills over all players. |
| `Matches.CreateThenUpdate` | internal/logparser/match.go:30-37 | Proof step: finding or creating a player and then updating it is one update of the players. |
| `Matches.AfterKillPlayers` | internal/logparser/match.go:39-66 | The victim (field 3) and a non-world killer (field 2) are created if unseen, and the victim gains the last token as cause. A killer other than `1022` gains one kill, also when it is the victim. The world credits no kill, and no name, ID or other player changes. |
| `Matches.SelfKill` | internal/logparser/match.go:53-65 | A player other than `1022` killing themselves gains one death and one kill. |
| `Matches.AfterKillTotals` | internal/logparser/match.go:46-65 | `OnKill` adds one death over all players, and one kill unless the world killed. |
| `Matches.AfterInfoChangeEffect` | internal/logparser/match.go:68-76 | Only the payload player's name changes, and the player is created if unseen. No total changes, and repeating the change changes nothing. |
| `Matches.AfterKillKeyed` | internal/logparser/match.go:30-37 | After `OnKill` every player is still stored under its own ID. |
| `Matches.AfterInfoChangeKeyed` | internal/logparser/match.go:30-37 | After `OnPlayerInfoChange` every player is still stored under its own ID. |
| `Matches.PlayTotals` | internal/logparser/match.go:39-76 | Over any sequence of events, deaths grow by the number of kill events and kills by at most that. From `NewMatch`, the score equals the recorded deaths and bounds the kills. |
| `Matches.PlayKeyed` | internal/logparser/match.go:30-37 | Over any sequence of events every player stays under its own ID. |
| `Matches.NamesIn` | internal/logparser/match.go:93-94 | One name per listed player, in the listed order. |
| `Matches.TalliesBump` | internal/logparser/match.go:97-104 | Counting one more cause keeps the map an exact count of the causes seen: the keys are the causes present, and the values are their occurrences, summing to their number. |
| `Matches.TalliesBumpAll` | internal/logparser/match.go:97-105 | The same holds after counting a whole list of causes. |
| `Matches.CountMeans` | internal/logparser/match.go:97-105 | The inner loop counts the causes one by one and keeps the map an exact count of all causes seen. |
| `Matches.InsertByKills` | internal/logparser/match.go:108-110 | One insertion step extends the prefix ordered by non-increasing kills. The array is permuted. |
| `Matches.SortByKills` | internal/logparser/match.go:108-110 | The array ends ordered by non-increasing kills and is a permutation of its old contents. |
| `Matches.SortedByKills` | internal/logparser/match.go:108-110 | A permutation of the names, ordered by non-increasing kills. |
| `Matches.ListPlayersFacts` | internal/logparser/match.go:93-106 | The loop lists every visited name and, for each name, the kills of a player of that name. It counts every means of death over the visited players. |
| `Matches.CausesInCount` | internal/logparser/match.go:93-106 | The causes of the visited players number all deaths minus those of the players not yet visited. |
| `Matches.ListingSound` | internal/logparser/match.go:93-106 | Over all players, the kills by means count every death cause and sum to the deaths recorded. |
| `Matches.VisitPlayers` | internal/logparser/match.go:93-106 | Visits every player once, in some order, and collects names, kills and kills by means as the listing specification says. |
| `Matches.Match.constructor` | internal/logparser/match.go:23-28 | `NewMatch` has score 0, no players and the given lines as `MatchLog`. |
| `Matches.Match.FindOrCreatePlayer` | internal/logparser/match.go:30-37 | Returns the stored player unchanged when the ID is present. Otherwise it inserts a fresh player under that ID. No other entry, and neither the score nor the log, changes. |
| `Matches.Match.RecordDeathOf` | internal/logparser/match.go:53-54 | The victim, found or created, gains the cause. Nothing else changes. |
| `Matches.Match.RecordKillBy` | internal/logparser/match.go:64-65 | The killer, found or created, gains one kill. Nothing else changes. |
| `Matches.Match.OnKill` | internal/logparser/match.go:39-66 | The score grows by exactly one and the players change as the kill specification says. The score keeps equal to the recorded deaths and bounding the kills. |
| `Matches.Match.OnPlayerInfoChange` | internal/logparser/match.go:68-76 | The players change as the rename specification says. The score and the counting invariant are kept. |
| `Matches.Match.MarshalJson` | internal/logparser/match.go:78-113 | The record holds the score and one name per player, ordered by non-increasing kills. Each name maps to the kills of a player of that name. Each means of death maps to its occurrences over all death causes, and these sum to the score. |

## Left out

- The JSON encoding (`json.Marshal`, the field tags, `omitempty`), `toJSON` and its file writing in both files, and the `Matches` map type of `match.go`. These are serialisation and file I/O.
- The printing in `processMatches`: output only.
- `Run` and `cmd/parser/main.go`: process wiring and I/O.
- `bufio.Scanner`, its line-length limit and `scanner.Err`. The log is a sequence of lines, and `DetectMatches` reads it to its end.
- The error variables of `match.go`: message formatting only.
- `internal/logparser/parser_test.go` is not part of this model.
- Parser.MarshalJson: the name-keyed `Kills` map is not modelled. Duplicate names overwrite one another in the unspecified iteration order of the map.
- Go's `int` is 64 bits wide. Counts here are unbounded, because a match would need 2^63 lines to overflow.
- Strings are sequences of characters, not UTF-8 bytes, and offsets count characters where Go counts bytes. The two agree at every offset that strings.Index returns for an ASCII marker (`ClientUserinfoChanged: `, ` `, `n\`, `\t`). They differ for the nickname start when `n\` is missing: Go's `-1 + len("n\")` is byte 1, and the model's `NameStart` is character 1. When the payload's first character takes several bytes, Go slices inside it (payload `é\t` gives Go the byte `\xA9` and the model the empty name). The model matches Go only when the payload's first character is ASCII, as a client number is. Invalid UTF-8 is not modelled.
- The pointers to `PlayerData` in aggregator A are modelled as values in a map. Nothing else holds them, so no aliasing is lost.
- Matches.SortedByKills: `sort.Slice` sorts the slice in place with an unstable algorithm. The model copies the names into an array, sorts it there by insertion and proves only what every such sort guarantees: a permutation ordered by non-increasing kills. Players with equal kills may come out in another order.
- Matches.Match.OnKill is written with two helper methods, `RecordDeathOf` and `RecordKillBy`, for its victim half and its killer half.
- Matches.Match.MarshalJson runs its loop in the helper method `VisitPlayers`.
- Parser.ParseMatchEvents runs its Kill branch in the helper method `CountKill`.
- Matches.Match.OnKill, Matches.Match.OnPlayerInfoChange and Matches.Match.MarshalJson require the class invariant `Valid()`. The constructor establishes it and both handlers keep it. It says that every player is stored under its own ID, and that the score equals the recorded deaths and bounds the kills.
