/** The functions of Go's `strings` package that the log parser relies on,
    over strings of characters. Go strings are UTF-8 bytes and Go offsets
    count bytes; the two agree wherever an offset is that of an ASCII marker
    found by strings.Index. The one offset the parser computes otherwise is
    the nickname start when `n\` is missing (-1 + 2 = 1), which is the same
    text only when the payload's first character is ASCII. */
module GoStrings {

  /** `sub` occurs in `s` starting at offset `i`. */
  predicate OccursAt(s: string, sub: string, i: int)
  {
    0 <= i && i + |sub| <= |s| && s[i..i + |sub|] == sub
  }

  /** strings.Index: the offset of the first occurrence of `sub` in `s`, or -1. */
  function Index(s: string, sub: string): (r: int)
    ensures r == -1 || r >= 0
    ensures r >= 0 ==> OccursAt(s, sub, r)
    ensures r >= 0 ==> forall j :: 0 <= j < r ==> !OccursAt(s, sub, j)
    ensures r == -1 <==> forall j :: !OccursAt(s, sub, j)
  {
    IndexFrom(s, sub, 0)
  }

  function IndexFrom(s: string, sub: string, i: nat): (r: int)
    requires i <= |s|
    requires forall j :: 0 <= j < i ==> !OccursAt(s, sub, j)
    ensures r == -1 || i <= r
    ensures r >= 0 ==> OccursAt(s, sub, r)
    ensures r >= 0 ==> forall j :: 0 <= j < r ==> !OccursAt(s, sub, j)
    ensures r == -1 <==> forall j :: !OccursAt(s, sub, j)
    decreases |s| - i
  {
    if OccursAt(s, sub, i) then i
    else if i == |s| then
      assert forall j :: j > |s| ==> !OccursAt(s, sub, j);
      -1
    else IndexFrom(s, sub, i + 1)
  }

  /** strings.Contains: `sub` occurs somewhere in `s`. */
  predicate Contains(s: string, sub: string)
    ensures Contains(s, sub) <==> exists j :: OccursAt(s, sub, j)
  {
    Index(s, sub) >= 0
  }

  /** unicode.IsSpace, the separator test of strings.Fields. */
  predicate IsSpace(c: char)
  {
    var n := c as int;
    (9 <= n <= 13) || n == 0x20 || n == 0x85 || n == 0xA0 || n == 0x1680
    || (0x2000 <= n <= 0x200A) || n == 0x2028 || n == 0x2029
    || n == 0x202F || n == 0x205F || n == 0x3000
  }

  predicate NoSpace(w: string)
  {
    forall i :: 0 <= i < |w| ==> !IsSpace(w[i])
  }

  /** The characters of `s` that are not white space, in order. */
  function NonSpace(s: string): string
  {
    if s == [] then []
    else (if IsSpace(s[0]) then [] else [s[0]]) + NonSpace(s[1..])
  }

  /** The concatenation of a sequence of strings. */
  function Concat(ws: seq<string>): string
  {
    if ws == [] then [] else ws[0] + Concat(ws[1..])
  }

  /** The length of the longest prefix of `s` holding no white space. */
  function WordLength(s: string): (n: nat)
    ensures n <= |s|
    ensures NoSpace(s[..n])
    ensures n == |s| || IsSpace(s[n])
  {
    if s == [] || IsSpace(s[0]) then 0
    else
      var n := 1 + WordLength(s[1..]);
      assert s[..n] == [s[0]] + s[1..][..n - 1];
      n
  }

  lemma {:induction false} NonSpaceOfWord(s: string, n: nat)
    requires n <= |s| && NoSpace(s[..n])
    ensures NonSpace(s) == s[..n] + NonSpace(s[n..])
  {
    if n > 0 {
      assert s[1..][..n - 1] == s[1..n];
      NonSpaceOfWord(s[1..], n - 1);
      assert s[1..][n - 1..] == s[n..];
      assert s[..n] == [s[0]] + s[1..n];
    }
  }

  /** strings.Fields: the maximal runs of non-space characters of `s`. Every
      field is non-empty and space-free, and together they hold exactly the
      non-space characters of `s`, in order. */
  function Fields(s: string): (r: seq<string>)
    ensures forall i :: 0 <= i < |r| ==> r[i] != [] && NoSpace(r[i])
    ensures Concat(r) == NonSpace(s)
    decreases |s|
  {
    if s == [] then []
    else if IsSpace(s[0]) then Fields(s[1..])
    else
      var n := WordLength(s);
      NonSpaceOfWord(s, n);
      [s[..n]] + Fields(s[n..])
  }

  /** After the first piece, the rest of a split is the split of what follows
      the first occurrence: the cuts are the leftmost non-overlapping
      occurrences, also for a separator that can overlap itself. */
  lemma SplitRest(s: string, sep: string)
    requires sep != [] && Contains(s, sep)
    ensures Split(s, sep)[1..] == Split(s[Index(s, sep) + |sep|..], sep)
  {
  }

  /** An occurrence in a suffix starts the rest of the whole string there. */
  lemma OccursInSuffix(s: string, sub: string, k: nat, j: int)
    requires k <= |s| && OccursAt(s[k..], sub, j)
    ensures sub <= s[k + j..]
  {
    assert s[k..][j..j + |sub|] == s[k + j..k + j + |sub|];
  }

  /** A piece of a split of `s` can end at `e`: at the end of `s`, or where
      the separator starts. */
  predicate EndsPiece(s: string, sep: string, e: int)
  {
    e == |s| || (0 <= e <= |s| && sep <= s[e..])
  }

  /** A piece starting at `k` that is the first piece of splitting `s[k..]`
      ends where a piece can end. */
  lemma NextPieceEnds(s: string, sep: string, k: nat, rest: seq<string>)
    requires sep != [] && k <= |s| && |rest| >= 1
    requires |rest| == 1 ==> rest[0] == s[k..]
    requires |rest| >= 2 ==> OccursAt(s[k..], sep, |rest[0]|)
    ensures EndsPiece(s, sep, k + |rest[0]|)
  {
    if |rest| >= 2 {
      OccursInSuffix(s, sep, k, |rest[0]|);
    }
  }

  lemma RestFirstPieceEnds(s: string, sep: string)
    requires sep != [] && Contains(s, sep)
    ensures var k := Index(s, sep) + |sep|; EndsPiece(s, sep, k + |Split(s[k..], sep)[0]|)
  {
    var k := Index(s, sep) + |sep|;
    NextPieceEnds(s, sep, k, Split(s[k..], sep));
  }

  /** The second piece of a split ends where the separator occurs next, or
      at the end of `s`. */
  lemma SecondPieceEnds(s: string, sep: string)
    requires sep != [] && Contains(s, sep)
    ensures EndsPiece(s, sep, Index(s, sep) + |sep| + |Split(s, sep)[1]|)
  {
    RestFirstPieceEnds(s, sep);
    SplitRest(s, sep);
  }

  /** A prefix made of a space-free word followed by white space or the end
      is exactly the word WordLength measures. */
  lemma WordLengthOfWord(s: string, w: string)
    requires w <= s && NoSpace(w)
    requires |w| == |s| || IsSpace(s[|w|])
    ensures WordLength(s) == |w|
  {
  }

  /** Fields cuts at the maximal runs: joining non-empty, space-free words
      with single spaces and splitting the result gives the words back. */
  lemma {:induction false} FieldsOfJoin(ws: seq<string>)
    requires forall i :: 0 <= i < |ws| ==> ws[i] != [] && NoSpace(ws[i])
    ensures Fields(Join(ws, " ")) == ws
    decreases |ws|
  {
    if ws != [] {
      var w, s := ws[0], Join(ws, " ");
      assert s[0] == w[0] && !IsSpace(w[0]);
      if |ws| == 1 {
        WordLengthOfWord(s, w);
        assert s[..|w|] == w && s[|w|..] == [];
        assert Fields(s) == [w] + Fields([]);
      } else {
        var rest := Join(ws[1..], " ");
        assert s == w + (" " + rest);
        assert s[|w|] == ' ';
        WordLengthOfWord(s, w);
        assert s[..|w|] == w;
        assert s[|w|..] == " " + rest;
        assert Fields(s) == [w] + Fields(" " + rest);
        assert (" " + rest)[1..] == rest;
        assert Fields(" " + rest) == Fields(rest);
        FieldsOfJoin(ws[1..]);
      }
      assert ws == [w] + ws[1..];
    }
  }

  /** strings.Join. */
  function Join(parts: seq<string>, sep: string): string
  {
    if parts == [] then []
    else if |parts| == 1 then parts[0]
    else parts[0] + sep + Join(parts[1..], sep)
  }

  /** An occurrence of `sub` inside a slice of `s` is an occurrence in `s`. */
  lemma OccursInSlice(s: string, sub: string, a: nat, b: nat, j: int)
    requires a <= b <= |s| && OccursAt(s[a..b], sub, j)
    ensures OccursAt(s, sub, a + j)
  {
    var t := s[a..b];
    var u, v := t[j..j + |sub|], s[a + j..a + j + |sub|];
    forall k | 0 <= k < |sub| ensures u[k] == v[k] {
      assert u[k] == t[j + k] == s[a + j + k];
    }
    assert u == v;
  }

  /** A one-character string occurs exactly where that character stands. */
  lemma OccursAtChar(s: string, c: char, j: int)
    requires 0 <= j < |s|
    ensures OccursAt(s, [c], j) <==> s[j] == c
  {
    assert s[j..j + 1] == [s[j]];
  }

  /** The text before the first occurrence of `sep` does not contain `sep`. */
  lemma FirstPieceFree(s: string, sep: string, i: int)
    requires sep != [] && i == Index(s, sep) && i >= 0
    ensures !Contains(s[..i], sep)
  {
    forall j | OccursAt(s[..i], sep, j) ensures false {
      OccursInSlice(s, sep, 0, i, j);
    }
  }

  /** strings.Split for a non-empty separator: the pieces between the
      successive leftmost occurrences of `sep`. Joining them with `sep` gives
      `s` back, no piece contains `sep`, and there is more than one piece
      exactly when `sep` occurs in `s`; the first piece runs up to the first
      occurrence (SplitRest states the rest). */
  function Split(s: string, sep: string): (r: seq<string>)
    requires sep != []
    ensures |r| >= 1 && r[0] <= s
    ensures |r| >= 2 <==> Contains(s, sep)
    ensures Join(r, sep) == s
    ensures forall i :: 0 <= i < |r| ==> !Contains(r[i], sep)
    ensures |r| == 1 ==> r[0] == s
    ensures |r| >= 2 ==> |r[0]| == Index(s, sep)
    decreases |s|
  {
    var i := Index(s, sep);
    if i < 0 then [s]
    else
      var rest := Split(s[i + |sep|..], sep);
      FirstPieceFree(s, sep, i);
      assert s == s[..i] + sep + s[i + |sep|..];
      [s[..i]] + rest
  }
}
