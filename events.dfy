/** The event classifier shared by both aggregators: the markers that
    internal/logparser/parser.go and match.go look for, and the extraction of
    the player ID and nickname from a ClientUserinfoChanged payload. */
module Events {
  import opened GoStrings

  /** The killer ID the game uses for deaths caused by the world. */
  const WorldId: string := "1022"

  const BoundaryMarker: string := "InitGame:"
  const SeparatorMarker: string := "---"
  const KillMarker: string := "Kill"
  const UserinfoMarker: string := "ClientUserinfoChanged"
  const UserinfoPrefix: string := "ClientUserinfoChanged: "
  /** The two-character delimiters `n\` and `\t` of the payload's key/value encoding. */
  const NameOpen: string := "n\\"
  const NameClose: string := "\\t"

  predicate IsBoundary(line: string) { Contains(line, BoundaryMarker) }
  predicate IsSeparator(line: string) { Contains(line, SeparatorMarker) }
  predicate IsKill(line: string) { Contains(line, KillMarker) }
  predicate IsUserinfo(line: string) { Contains(line, UserinfoMarker) }

  /** The line has the element at index 1 of strings.Split(line, "ClientUserinfoChanged: "). */
  predicate HasPayload(line: string) { Contains(line, UserinfoPrefix) }

  /** strings.Split(line, "ClientUserinfoChanged: ")[1]: the text after the
      first occurrence of the prefix, up to its next occurrence if any. */
  function Payload(line: string): (p: string)
    requires HasPayload(line)
    ensures Index(line, UserinfoPrefix) >= 0
    ensures p <= line[Index(line, UserinfoPrefix) + |UserinfoPrefix|..]
    ensures !Contains(p, UserinfoPrefix)
    ensures EndsPiece(line, UserinfoPrefix, Index(line, UserinfoPrefix) + |UserinfoPrefix| + |p|)
  {
    SecondPieceEnds(line, UserinfoPrefix);
    Split(line, UserinfoPrefix)[1]
  }

  /** strings.Split(payload, " ")[0]: the text before the first space. */
  function PlayerId(payload: string): (id: string)
    ensures id <= payload
    ensures forall i :: 0 <= i < |id| ==> id[i] != ' '
    ensures |id| < |payload| ==> payload[|id|] == ' '
  {
    var i := Index(payload, " ");
    forall j | 0 <= j < |payload| ensures OccursAt(payload, " ", j) <==> payload[j] == ' ' {
      OccursAtChar(payload, ' ', j);
    }
    Split(payload, " ")[0]
  }

  /** Where the nickname starts: just after the first `n\`, or at offset 1
      when there is none (strings.Index returns -1). */
  function NameStart(payload: string): int
  {
    Index(payload, NameOpen) + |NameOpen|
  }

  /** Where the nickname ends: the first `\t`, or -1 when there is none. */
  function NameEnd(payload: string): int
  {
    Index(payload, NameClose)
  }

  /** The slice payload[NameStart:NameEnd] does not panic. */
  predicate NameWellFormed(payload: string)
  {
    NameStart(payload) <= NameEnd(payload)
  }

  /** The nickname: the text from NameStart up to the first `\t`, which
      immediately follows it and which it does not contain. */
  function Nickname(payload: string): (name: string)
    requires NameWellFormed(payload)
    ensures name + NameClose <= payload[NameStart(payload)..]
    ensures !Contains(name, NameClose)
  {
    var a, b := NameStart(payload), NameEnd(payload);
    forall j | OccursAt(payload[a..b], NameClose, j) ensures false {
      OccursInSlice(payload, NameClose, a, b, j);
    }
    payload[a..b]
  }
}
