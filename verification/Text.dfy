/** The string operations of the source's standard library that the parsers rely on. */
module Text {
  import opened Types

  /** The Unicode White_Space property. */
  predicate IsWhitespace(c: char) {
    || '\U{9}' <= c <= '\U{D}' || c == ' ' || c == '\U{85}' || c == '\U{A0}' || c == '\U{1680}'
    || '\U{2000}' <= c <= '\U{200A}' || c == '\U{2028}' || c == '\U{2029}' || c == '\U{202F}'
    || c == '\U{205F}' || c == '\U{3000}'
  }

  function TrimStart(s: string): (r: string)
    ensures r != [] ==> !IsWhitespace(r[0])
    ensures |r| <= |s| && r == s[|s| - |r|..]
  {
    if s != [] && IsWhitespace(s[0]) then TrimStart(s[1..]) else s
  }

  function TrimEnd(s: string): (r: string)
    ensures r != [] ==> !IsWhitespace(r[|r| - 1])
    ensures |r| <= |s| && r == s[..|r|]
  {
    if s != [] && IsWhitespace(s[|s| - 1]) then TrimEnd(s[..|s| - 1]) else s
  }

  function Trim(s: string): string {
    TrimEnd(TrimStart(s))
  }

  function TrimEndDots(s: string): (r: string)
    ensures r != [] ==> r[|r| - 1] != '.'
    ensures |r| <= |s| && r == s[..|r|]
  {
    if s != [] && s[|s| - 1] == '.' then TrimEndDots(s[..|s| - 1]) else s
  }

  function LowerChar(c: char): char {
    if 'A' <= c <= 'Z' then (c as int + 32) as char else c
  }

  function Lower(s: string): (r: string)
    ensures |r| == |s|
    ensures forall i | 0 <= i < |s| :: r[i] == LowerChar(s[i])
  {
    if s == [] then [] else [LowerChar(s[0])] + Lower(s[1..])
  }

  function IndexOf(s: string, c: char): (k: nat)
    ensures k <= |s|
    ensures c !in s[..k]
    ensures k < |s| ==> s[k] == c
  {
    if s == [] || s[0] == c then 0
    else
      var rest := IndexOf(s[1..], c);
      assert s[..rest + 1] == [s[0]] + s[1..][..rest];
      rest + 1
  }

  /** The pieces between separators; at least one. */
  function Split(s: string, c: char): (r: seq<string>)
    ensures r != []
    decreases |s|
  {
    var k := IndexOf(s, c);
    if k == |s| then [s] else [s[..k]] + Split(s[k + 1..], c)
  }

  function SplitOnce(s: string, c: char): Option<(string, string)> {
    var k := IndexOf(s, c);
    if k == |s| then None else Some((s[..k], s[k + 1..]))
  }

  function Join(parts: seq<string>, c: char): string
    requires parts != []
  {
    if |parts| == 1 then parts[0] else parts[0] + [c] + Join(parts[1..], c)
  }

  function WordLength(s: string): (k: nat)
    ensures k <= |s|
    ensures forall i | 0 <= i < k :: !IsWhitespace(s[i])
    ensures k < |s| ==> IsWhitespace(s[k])
  {
    if s == [] || IsWhitespace(s[0]) then 0 else WordLength(s[1..]) + 1
  }

  /** The maximal runs of characters that are not white space. */
  function SplitWhitespace(s: string): seq<string>
    decreases |s|
  {
    var t := TrimStart(s);
    if t == [] then []
    else [t[..WordLength(t)]] + SplitWhitespace(t[WordLength(t)..])
  }

  predicate StartsWith(s: string, c: char) {
    s != [] && s[0] == c
  }

  predicate EndsWith(s: string, c: char) {
    s != [] && s[|s| - 1] == c
  }

  // ----- laws

  predicate NoWhitespace(s: string) {
    forall i | 0 <= i < |s| :: !IsWhitespace(s[i])
  }

  predicate NoUpper(s: string) {
    forall i | 0 <= i < |s| :: !('A' <= s[i] <= 'Z')
  }

  lemma TrimOfWord(s: string)
    requires NoWhitespace(s)
    ensures TrimStart(s) == s && TrimEnd(s) == s && Trim(s) == s
  {
  }

  lemma LowerOfLower(s: string)
    requires NoUpper(s)
    ensures Lower(s) == s
  {
  }

  lemma LowerHasNoUpper(s: string)
    ensures NoUpper(Lower(s))
  {
    forall i | 0 <= i < |s| ensures !('A' <= Lower(s)[i] <= 'Z') {
      assert Lower(s)[i] == LowerChar(s[i]);
    }
  }

  lemma WordLengthOfWord(s: string)
    requires NoWhitespace(s)
    ensures WordLength(s) == |s|
  {
  }

  lemma SplitWhitespaceOfWord(s: string)
    requires NoWhitespace(s) && s != []
    ensures SplitWhitespace(s) == [s]
  {
    TrimOfWord(s);
    WordLengthOfWord(s);
    assert s[..|s|] == s && s[|s|..] == [];
    assert SplitWhitespace([]) == [];
  }

  lemma IndexOfAbsent(s: string, c: char)
    requires c !in s
    ensures IndexOf(s, c) == |s|
  {
  }

  lemma SplitUnfolds(s: string, c: char)
    ensures var k := IndexOf(s, c);
            Split(s, c) == if k == |s| then [s] else [s[..k]] + Split(s[k + 1..], c)
  {
  }

  lemma JoinCons(piece: string, c: char, rest: seq<string>)
    requires rest != []
    ensures Join([piece] + rest, c) == piece + [c] + Join(rest, c)
  {
    assert ([piece] + rest)[1..] == rest;
  }

  lemma CutAt(s: string, c: char, k: nat)
    requires k < |s| && s[k] == c
    ensures s == s[..k] + [c] + s[k + 1..]
  {
  }

  /** Joining the pieces gives the string back. */
  lemma {:induction false} JoinSplit(s: string, c: char)
    ensures Join(Split(s, c), c) == s
    decreases |s|
  {
    hide IndexOf, Split, Join;
    var k := IndexOf(s, c);
    SplitUnfolds(s, c);
    if k < |s| {
      JoinSplit(s[k + 1..], c);
      JoinCons(s[..k], c, Split(s[k + 1..], c));
      CutAt(s, c, k);
    } else {
      JoinOne(s, c);
    }
  }

  lemma JoinOne(piece: string, c: char)
    ensures Join([piece], c) == piece
  {
  }

  /** Splitting the joined pieces gives the pieces back. */
  lemma {:induction false} SplitJoin(parts: seq<string>, c: char)
    requires parts != [] && forall part | part in parts :: c !in part
    ensures Split(Join(parts, c), c) == parts
  {
    hide IndexOf, Split, Join;
    if |parts| == 1 {
      JoinOne(parts[0], c);
      assert parts == [parts[0]];
      IndexOfAbsent(parts[0], c);
      SplitUnfolds(parts[0], c);
    } else {
      var rest := Join(parts[1..], c);
      assert parts == [parts[0]] + parts[1..];
      JoinCons(parts[0], c, parts[1..]);
      FirstPiece(parts[0], c, rest);
      SplitUnfolds(parts[0] + [c] + rest, c);
      SplitJoin(parts[1..], c);
    }
  }

  lemma FirstPiece(piece: string, c: char, rest: string)
    requires c !in piece
    ensures var s := piece + [c] + rest;
            IndexOf(s, c) == |piece| && s[..|piece|] == piece && s[|piece| + 1..] == rest
  {
    hide IndexOf;
    var s := piece + [c] + rest;
    FirstIndex(s, c, |piece|);
    assert forall j | 0 <= j < |piece| :: s[j] == piece[j];
  }

  lemma {:induction false} PiecesLackSeparator(s: string, c: char)
    ensures forall part | part in Split(s, c) :: c !in part
    decreases |s|
  {
    hide IndexOf, Split;
    var k := IndexOf(s, c);
    SplitUnfolds(s, c);
    if k < |s| {
      PiecesLackSeparator(s[k + 1..], c);
    } else {
      assert s[..k] == s;
    }
  }

  const CAPITALS := "ABCDEFGHIJKLMNOPQRSTUVWXYZ"
  const SMALL := "abcdefghijklmnopqrstuvwxyz"

  /** Lower case of ASCII: each capital becomes its small letter, all else stays. */
  lemma LowerCharExact(c: char)
    ensures forall i | 0 <= i < 26 :: LowerChar(CAPITALS[i]) == SMALL[i] && LowerChar(SMALL[i]) == SMALL[i]
    ensures c !in CAPITALS ==> LowerChar(c) == c
  {
    assert forall i | 0 <= i < 26 :: CAPITALS[i] as int == 65 + i && SMALL[i] as int == 97 + i;
    if 'A' <= c <= 'Z' { assert CAPITALS[c as int - 65] == c; }
  }

  /** Among ASCII characters, white space is the blank, the tabulators, and the line and page breaks. */
  lemma AsciiWhitespace(c: char)
    requires c as int < 128
    ensures IsWhitespace(c) <==> c == ' ' || c == '\t' || c == '\n' || c == '\r' || c as int == 11 || c as int == 12
  {
  }

  /** Positions at which a piece starts. */
  predicate Aligned(s: string, c: char, k: nat) {
    k <= |s| && (k == 0 || s[k - 1] == c)
  }

  /** Dropping whole pieces from the front is dropping up to an aligned position. */
  lemma {:induction false} TailIsAligned(s: string, c: char, i: nat) returns (k: nat)
    requires i < |Split(s, c)|
    ensures Aligned(s, c, k) && Split(s, c)[i..] == Split(s[k..], c)
    decreases |s|
  {
    hide IndexOf, Split;
    SplitUnfolds(s, c);
    if i == 0 {
      k := 0;
      assert s[0..] == s && Split(s, c)[0..] == Split(s, c);
    } else {
      var cut := IndexOf(s, c);
      var rest := TailIsAligned(s[cut + 1..], c, i - 1);
      k := cut + 1 + rest;
      assert Split(s, c)[i..] == Split(s[cut + 1..], c)[i - 1..];
      assert s[cut + 1..][rest..] == s[k..];
      if rest > 0 { assert s[k - 1] == s[cut + 1..][rest - 1]; }
    }
  }

  lemma FirstIndex(s: string, c: char, i: nat)
    requires i < |s| && s[i] == c
    ensures IndexOf(s, c) <= i
  {
    hide IndexOf;
    var cut := IndexOf(s, c);
    assert forall j | 0 <= j < cut :: s[..cut][j] == s[j];
  }

  lemma {:induction false} AlignedIsTail(s: string, c: char, k: nat) returns (i: nat)
    requires Aligned(s, c, k)
    ensures i < |Split(s, c)| && Split(s, c)[i..] == Split(s[k..], c)
    decreases |s|
  {
    hide IndexOf, Split;
    SplitUnfolds(s, c);
    if k == 0 {
      i := 0;
      assert s[0..] == s && Split(s, c)[0..] == Split(s, c);
    } else {
      var cut := IndexOf(s, c);
      FirstIndex(s, c, k - 1);
      var rest := s[cut + 1..];
      var j := AlignedIsTail(rest, c, k - cut - 1);
      i := j + 1;
      assert Split(s, c)[i..] == Split(rest, c)[j..];
      assert rest[k - cut - 1..] == s[k..];
    }
  }
}
