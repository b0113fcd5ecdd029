/** What a hosts line, a host name and a listed domain are, stated from their layout as text: the
    compiler, the validator and the matcher read exactly that. */
module BlocklistLines {
  import opened Types
  import opened Text
  import opened Blocklist
  import opened BlocklistTools
  import opened WireGuardText

  // ----- words with gaps

  predicate Word(s: string) {
    s != [] && NoWhitespace(s) && '#' !in s
  }

  /** Every word with the gap that follows it. */
  function Laid(words: seq<string>, gaps: seq<string>): string
    requires |words| == |gaps|
  {
    if words == [] then [] else words[0] + gaps[0] + Laid(words[1..], gaps[1..])
  }

  /** White space stands between any two words, and may stand after the last. */
  predicate Gaps(words: seq<string>, gaps: seq<string>) {
    && |words| == |gaps|
    && (forall i | 0 <= i < |words| :: NoWhitespace(words[i]) && words[i] != [])
    && (forall i | 0 <= i < |gaps| :: Blank(gaps[i]))
    && (forall i | 0 <= i < |gaps| - 1 :: gaps[i] != [])
  }

  lemma TailGaps(words: seq<string>, gaps: seq<string>)
    requires Gaps(words, gaps) && words != []
    ensures Gaps(words[1..], gaps[1..])
  {
  }

  lemma LaidStarts(words: seq<string>, gaps: seq<string>)
    requires Gaps(words, gaps) && words != []
    ensures Laid(words, gaps) != [] && !IsWhitespace(Laid(words, gaps)[0])
  {
    assert Laid(words, gaps)[0] == words[0][0];
  }

  lemma {:induction false} WordEnds(word: string, rest: string)
    requires NoWhitespace(word) && (rest != [] ==> IsWhitespace(rest[0]))
    ensures WordLength(word + rest) == |word|
  {
    if word == [] {
      assert word + rest == rest;
    } else {
      assert (word + rest)[1..] == word[1..] + rest;
      WordEnds(word[1..], rest);
    }
  }

  lemma SplitUnfoldsWord(s: string)
    requires s != [] && !IsWhitespace(s[0])
    ensures SplitWhitespace(s) == [s[..WordLength(s)]] + SplitWhitespace(s[WordLength(s)..])
  {
  }

  lemma SplitSkipsPad(pad: string, s: string)
    requires Blank(pad) && (s != [] ==> !IsWhitespace(s[0]))
    ensures SplitWhitespace(pad + s) == SplitWhitespace(s)
  {
    TrimStartPad(pad, s);
    TrimStartPad([], s);
    assert [] + s == s;
  }

  lemma WordThenGap(word: string, tail: string)
    requires NoWhitespace(word) && word != [] && (tail != [] ==> IsWhitespace(tail[0]))
    ensures SplitWhitespace(word + tail) == [word] + SplitWhitespace(tail)
  {
    hide SplitWhitespace, WordLength;
    var s := word + tail;
    WordEnds(word, tail);
    assert s[0] == word[0];
    SplitUnfoldsWord(s);
    assert s[..|word|] == word && s[|word|..] == tail;
  }

  /** Words with white space between them are read as these words. */
  lemma {:induction false} WordsRead(words: seq<string>, gaps: seq<string>)
    requires Gaps(words, gaps)
    ensures SplitWhitespace(Laid(words, gaps)) == words
  {
    hide SplitWhitespace, Laid, IsWhitespace;
    if words == [] {
      LaidNothing();
      NoWords();
    } else {
      var rest := Laid(words[1..], gaps[1..]);
      LaidCons(words, gaps);
      TailGaps(words, gaps);
      GapStarts(words, gaps);
      WordThenGap(words[0], gaps[0] + rest);
      if words[1..] != [] { LaidStarts(words[1..], gaps[1..]); } else { LaidNothing(); }
      SplitSkipsPad(gaps[0], rest);
      WordsRead(words[1..], gaps[1..]);
      assert words == [words[0]] + words[1..];
    }
  }

  lemma NoWords()
    ensures SplitWhitespace([]) == []
  {
  }

  lemma LaidNothing()
    ensures Laid([], []) == []
  {
  }

  lemma LaidCons(words: seq<string>, gaps: seq<string>)
    requires |words| == |gaps| && words != []
    ensures Laid(words, gaps) == words[0] + (gaps[0] + Laid(words[1..], gaps[1..]))
  {
  }

  lemma GapStarts(words: seq<string>, gaps: seq<string>)
    requires Gaps(words, gaps) && words != []
    ensures var rest := gaps[0] + Laid(words[1..], gaps[1..]);
            rest != [] ==> IsWhitespace(rest[0])
  {
    if gaps[0] != [] {
      assert gaps[0][0] in gaps[0];
    } else {
      assert |gaps| == 1;
    }
  }

  // ----- lines

  /** A hosts line: words with white space before, between and after them, and a comment. */
  predicate HostsLine(line: string, pad: string, words: seq<string>, gaps: seq<string>, comment: string) {
    && Gaps(words, gaps) && Blank(pad)
    && line == pad + Laid(words, gaps) + comment
    && (forall i | 0 <= i < |words| :: Word(words[i]))
    && (comment == [] || comment[0] == '#')
  }

  lemma {:induction false} LaidWithoutComment(words: seq<string>, gaps: seq<string>)
    requires Gaps(words, gaps) && forall i | 0 <= i < |words| :: Word(words[i])
    ensures '#' !in Laid(words, gaps)
  {
    assert !IsWhitespace('#');
    if words != [] {
      TailGaps(words, gaps);
      LaidWithoutComment(words[1..], gaps[1..]);
      assert '#' !in words[0] && '#' !in gaps[0];
    }
  }

  lemma BeforeComment(text: string, comment: string)
    requires '#' !in text && (comment == [] || comment[0] == '#')
    ensures Split(text + comment, '#')[0] == text
  {
    hide IndexOf, Split;
    IndexOfFirst(text, '#', comment);
    SplitUnfolds(text + comment, '#');
    assert (text + comment)[..|text|] == text;
  }

  /** The words without the last gap, and that gap. */
  lemma {:induction false} LaidEnds(words: seq<string>, gaps: seq<string>) returns (core: string, trail: string)
    requires Gaps(words, gaps) && words != []
    ensures Laid(words, gaps) == core + trail && Blank(trail)
    ensures core != [] && Trimmed(core)
    ensures SplitWhitespace(core) == words
  {
    var n := |words| - 1;
    trail := gaps[n];
    var bare := gaps[..n] + [[]];
    core := Laid(words, bare);
    assert Gaps(words, bare);
    WordsRead(words, bare);
    LaidStarts(words, bare);
    LaidSplits(words, gaps);
  }

  lemma {:induction false} LaidSplits(words: seq<string>, gaps: seq<string>)
    requires Gaps(words, gaps) && words != []
    ensures var core := Laid(words, gaps[..|gaps| - 1] + [[]]);
            Laid(words, gaps) == core + gaps[|gaps| - 1] && core != [] && !IsWhitespace(core[|core| - 1])
  {
    hide Laid;
    var bare := gaps[..|gaps| - 1] + [[]];
    LaidCons(words, gaps);
    LaidCons(words, bare);
    LaidNothing();
    if |words| == 1 {
      assert words[1..] == [] && gaps[1..] == [] && bare[1..] == [];
    } else {
      TailGaps(words, gaps);
      LaidSplits(words[1..], gaps[1..]);
      assert bare[1..] == gaps[1..][..|gaps[1..]| - 1] + [[]];
    }
  }

  lemma LineContent(line: string, pad: string, words: seq<string>, gaps: seq<string>, comment: string)
    requires HostsLine(line, pad, words, gaps, comment)
    ensures Content(line) == [] <==> words == []
    ensures SplitWhitespace(Content(line)) == words
  {
    hide Laid, Trim, Split, SplitWhitespace, IsWhitespace;
    LaidWithoutComment(words, gaps);
    assert '#' !in pad + Laid(words, gaps) by { assert !IsWhitespace('#') by { Hash(); } }
    BeforeComment(pad + Laid(words, gaps), comment);
    if words == [] {
      LaidNothing();
      assert Blank([]) && Trimmed([]) by { EmptyIsBlank(); }
      assert pad + [] == pad + [] + [];
      TrimPad(pad, [], []);
      WordsRead(words, gaps);
    } else {
      var core, trail := LaidEnds(words, gaps);
      assert pad + (core + trail) == pad + core + trail;
      TrimPad(pad, core, trail);
    }
  }

  lemma Hash()
    ensures !IsWhitespace('#')
  {
  }

  /** A line with an address and any number of names is read as the names. */
  lemma AddressLine(ip: IpTest, line: string, pad: string, address: string, names: seq<string>, gaps: seq<string>,
                    comment: string)
    requires HostsLine(line, pad, [address] + names, gaps, comment) && ip(address)
    ensures Candidates(ip, line) == names && Content(line) != []
  {
    hide Content, SplitWhitespace, Laid;
    LineContent(line, pad, [address] + names, gaps, comment);
    assert ([address] + names)[1..] == names;
  }

  /** A line that does not start with an address is read as all its words. */
  lemma NamesLine(ip: IpTest, line: string, pad: string, names: seq<string>, gaps: seq<string>, comment: string)
    requires HostsLine(line, pad, names, gaps, comment) && (names != [] ==> !ip(names[0]))
    ensures Candidates(ip, line) == names && (Content(line) == [] <==> names == [])
  {
    hide Content, SplitWhitespace, Laid;
    LineContent(line, pad, names, gaps, comment);
  }

  /** Every string is laid out as its words. */
  lemma {:induction false} LayOut(s: string) returns (pad: string, gaps: seq<string>)
    ensures var words := SplitWhitespace(s);
            Blank(pad) && Gaps(words, gaps) && s == pad + Laid(words, gaps)
    decreases |s|
  {
    hide IsWhitespace, SplitWhitespace, Laid, TrimStart, WordLength, Gaps, Blank, NoWhitespace;
    var t := TrimStart(s);
    pad := PadOf(s);
    SplitOfTrimmed(s);
    if t == [] {
      gaps := [];
      LaidNothing();
      NoGaps();
    } else {
      WordStarts(t);
      var word, rest := t[..WordLength(t)], t[WordLength(t)..];
      var gap, others := LayOut(rest);
      gaps := [gap] + others;
      AddWord(word, gap, SplitWhitespace(rest), others, rest);
    }
  }

  lemma PadOf(s: string) returns (pad: string)
    ensures Blank(pad) && s == pad + TrimStart(s)
  {
    hide IsWhitespace, Blank, TrimStart;
    var n := |s| - |TrimStart(s)|;
    pad := s[..n];
    TrimStartCuts(s);
    AllBlank(pad);
    TakeAndDrop(s, n);
  }

  lemma TakeAndDrop(s: string, n: nat)
    requires n <= |s|
    ensures s == s[..n] + s[n..]
  {
  }

  lemma NoGaps()
    ensures Gaps([], [])
  {
  }

  lemma SplitOfTrimmed(s: string)
    ensures var t := TrimStart(s);
            SplitWhitespace(s) == if t == [] then [] else [t[..WordLength(t)]] + SplitWhitespace(t[WordLength(t)..])
  {
  }

  lemma AddWord(word: string, gap: string, words: seq<string>, gaps: seq<string>, rest: string)
    requires NoWhitespace(word) && word != [] && Blank(gap) && Gaps(words, gaps)
    requires rest == gap + Laid(words, gaps) && (rest != [] ==> IsWhitespace(rest[0]))
    ensures Gaps([word] + words, [gap] + gaps) && Laid([word] + words, [gap] + gaps) == word + rest
  {
    hide Laid;
    LaidCons([word] + words, [gap] + gaps);
    assert ([word] + words)[1..] == words && ([gap] + gaps)[1..] == gaps;
    if words != [] {
      LaidStarts(words, gaps);
      HeadOfSum(gap, Laid(words, gaps));
    }
  }

  lemma HeadOfSum(x: string, y: string)
    requires y != []
    ensures x == [] ==> (x + y)[0] == y[0]
  {
  }

  lemma WordStarts(t: string)
    requires t != [] && !IsWhitespace(t[0])
    ensures WordLength(t) > 0 && NoWhitespace(t[..WordLength(t)])
  {
  }

  /** Every line is a hosts line, so the two readings cover every line there is. */
  lemma EveryLineIsLaidOut(line: string) returns (pad: string, words: seq<string>, gaps: seq<string>, comment: string)
    ensures HostsLine(line, pad, words, gaps, comment)
  {
    hide SplitWhitespace, Laid, IsWhitespace;
    var k := IndexOf(line, '#');
    comment := line[k..];
    pad, gaps := LayOut(line[..k]);
    words := SplitWhitespace(line[..k]);
    forall i | 0 <= i < |words| && '#' in words[i] ensures false {
      WordOccurs(words, gaps, i, '#');
    }
    assert line == line[..k] + comment;
  }

  lemma {:induction false} WordOccurs(words: seq<string>, gaps: seq<string>, i: nat, c: char)
    requires |words| == |gaps| && i < |words| && c in words[i]
    ensures c in Laid(words, gaps)
  {
    if i > 0 { WordOccurs(words[1..], gaps[1..], i - 1, c); }
  }

  // ----- host names

  function Dots(k: nat): string {
    seq(k, i => '.')
  }

  /** `core` with any number of dots after it and white space around both. */
  predicate HostText(host: string, left: string, core: string, dots: nat, right: string) {
    && host == left + (core + Dots(dots)) + right
    && Blank(left) && Blank(right) && Trimmed(core + Dots(dots))
    && (core != [] ==> core[|core| - 1] != '.')
  }

  lemma {:induction false} DotsGo(core: string, k: nat)
    requires core != [] ==> core[|core| - 1] != '.'
    ensures TrimEndDots(core + Dots(k)) == core
  {
    if k == 0 {
      assert core + Dots(0) == core;
    } else {
      var s := core + Dots(k);
      assert s[..|s| - 1] == core + Dots(k - 1);
      DotsGo(core, k - 1);
    }
  }

  lemma {:induction false} DotsCut(s: string) returns (k: nat)
    ensures s == TrimEndDots(s) + Dots(k)
  {
    if s != [] && s[|s| - 1] == '.' {
      k := DotsCut(s[..|s| - 1]);
      k := k + 1;
      assert Dots(k) == Dots(k - 1) + ['.'];
      assert s == s[..|s| - 1] + ['.'];
    } else {
      k := 0;
      assert s + Dots(0) == s;
    }
  }

  /** A host is normalised to the lower case of what is left when the white space around it and then
      the dots at its end are gone. */
  lemma NormalizeExact(host: string, h: string)
    ensures NormalizeHost(host) == h
      <==> exists left, core, dots, right :: HostText(host, left, core, dots, right) && h == Lower(core)
  {
    hide Trim, TrimEndDots, Lower, Blank, Trimmed, Dots;
    if NormalizeHost(host) == h {
      var left, right := TrimCuts(host);
      var dots := DotsCut(Trim(host));
      assert HostText(host, left, TrimEndDots(Trim(host)), dots, right);
    }
    if left, core, dots, right :| HostText(host, left, core, dots, right) && h == Lower(core) {
      TrimPad(left, core + Dots(dots), right);
      DotsGo(core, dots);
    }
  }

  // ----- domains

  const LABEL_CHARS := SMALL + "0123456789" + "-"

  predicate DomainLabel(l: string) {
    && 1 <= |l| <= 63
    && (forall i | 0 <= i < |l| :: l[i] in LABEL_CHARS)
    && l[0] != '-' && l[|l| - 1] != '-'
  }

  /** Two or more labels with dots between them, at most 253 characters, and not an address. */
  ghost predicate Domain(ip: IpTest, d: string) {
    |d| <= 253 && !ip(d)
    && exists labels: seq<string> :: |labels| >= 2 && d == Join(labels, '.') && forall l | l in labels :: DomainLabel(l)
  }

  lemma SmallExact(c: char)
    ensures c in SMALL <==> 'a' <= c <= 'z'
  {
    assert forall i | 0 <= i < 26 :: SMALL[i] as int == 97 + i;
    if 'a' <= c <= 'z' { assert SMALL[c as int - 97] == c; }
  }

  lemma DigitExact(c: char)
    ensures c in "0123456789" <==> '0' <= c <= '9'
  {
    assert forall i | 0 <= i < 10 :: "0123456789"[i] as int == 48 + i;
    if '0' <= c <= '9' { assert "0123456789"[c as int - 48] == c; }
  }

  lemma LabelChar(c: char)
    requires !('A' <= c <= 'Z')
    ensures c in LABEL_CHARS <==> Alphanumeric(c) || c == '-'
    ensures '.' !in LABEL_CHARS
  {
    hide SMALL;
    SmallExact(c);
    DigitExact(c);
    SmallExact('.');
    DigitExact('.');
  }

  lemma LabelExact(l: string)
    requires NoUpper(l)
    ensures ValidLabel(l) <==> DomainLabel(l)
    ensures DomainLabel(l) ==> '.' !in l
  {
    hide LABEL_CHARS;
    forall i | 0 <= i < |l| ensures l[i] in LABEL_CHARS <==> Alphanumeric(l[i]) || l[i] == '-' {
      LabelChar(l[i]);
    }
    LabelChar('.');
  }

  lemma {:induction false} JoinHasSeparator(labels: seq<string>, c: char)
    requires |labels| >= 2
    ensures c in Join(labels, c)
  {
    assert Join(labels, c)[|labels[0]|] == c;
  }

  lemma {:induction false} PiecesOf(labels: seq<string>, c: char, l: string)
    requires labels != [] && l in labels && NoUpper(Join(labels, c))
    ensures NoUpper(l)
  {
    var s := Join(labels, c);
    if |labels| > 1 {
      var rest := Join(labels[1..], c);
      assert s == labels[0] + [c] + rest;
      forall i | 0 <= i < |labels[0]| ensures !('A' <= labels[0][i] <= 'Z') { assert s[i] == labels[0][i]; }
      forall i | 0 <= i < |rest| ensures !('A' <= rest[i] <= 'Z') { assert s[|labels[0]| + 1 + i] == rest[i]; }
      if l != labels[0] { PiecesOf(labels[1..], c, l); }
    }
  }

  lemma NormalHasNoUpper(candidate: string)
    ensures NoUpper(NormalizeHost(candidate))
  {
    LowerHasNoUpper(TrimEndDots(Trim(candidate)));
  }

  /** A candidate is kept exactly when its normal form is a domain, and as that. */
  lemma DomainExact(ip: IpTest, candidate: string, d: string)
    ensures NormalizeDomain(ip, candidate) == Some(d) <==> d == NormalizeHost(candidate) && Domain(ip, d)
  {
    hide NormalizeHost, Split, Join, ValidLabel, DomainLabel;
    var h := NormalizeHost(candidate);
    NormalHasNoUpper(candidate);
    var pieces := Split(h, '.');
    JoinSplit(h, '.');
    if ValidHost(ip, h) {
      forall l | l in pieces ensures DomainLabel(l) {
        PiecesOf(pieces, '.', l);
        LabelExact(l);
      }
      assert |pieces| >= 2 by { if |pieces| == 1 { PiecesLackSeparator(h, '.'); OnePiece(pieces, h); } }
    }
    if Domain(ip, h) {
      var labels: seq<string> :| |labels| >= 2 && h == Join(labels, '.') && forall l | l in labels :: DomainLabel(l);
      forall l | l in labels ensures ValidLabel(l) && '.' !in l {
        PiecesOf(labels, '.', l);
        LabelExact(l);
      }
      SplitJoin(labels, '.');
      JoinHasSeparator(labels, '.');
    }
  }

  lemma OnePiece(pieces: seq<string>, s: string)
    requires |pieces| == 1 && Join(pieces, '.') == s && forall part | part in pieces :: '.' !in part
    ensures '.' !in s
  {
  }

  /** What the inputs list: the domains among the normal forms of the candidates of their lines. */
  lemma ListedExact(ip: IpTest, inputs: seq<Option<seq<string>>>, d: string)
    ensures d in Listed(ip, inputs) <==> exists i, j, c |
              0 <= i < |inputs| && inputs[i].Some? && 0 <= j < |inputs[i].value|
              && c in Candidates(ip, inputs[i].value[j]) ::
                d == NormalizeHost(c) && Domain(ip, d)
  {
    hide NormalizeDomain, NormalizeHost, Candidates, Domain;
    if d in Listed(ip, inputs) {
      var i :| 0 <= i < |inputs| && inputs[i].Some? && d in Mentioned(ip, inputs[i].value);
      var j :| 0 <= j < |inputs[i].value| && d in LineDomains(ip, inputs[i].value[j]);
      var c :| c in Candidates(ip, inputs[i].value[j]) && NormalizeDomain(ip, c) == Some(d);
      DomainExact(ip, c, d);
    }
    if i, j, c :| 0 <= i < |inputs| && inputs[i].Some? && 0 <= j < |inputs[i].value|
                  && c in Candidates(ip, inputs[i].value[j]) && d == NormalizeHost(c) && Domain(ip, d) {
      DomainExact(ip, c, d);
      assert d in LineDomains(ip, inputs[i].value[j]);
      assert d in Mentioned(ip, inputs[i].value);
    }
  }

  // ----- matching

  /** A host matches a list exactly when, normalised, it is a listed domain or ends in a dot and one. */
  lemma MatchesExact(list: seq<string>, host: string)
    ensures Matches(list, host)
      <==> exists d | d in list :: NormalizeHost(host) == d || exists x :: NormalizeHost(host) == x + "." + d
  {
    hide NormalizeHost;
    var h := NormalizeHost(host);
    if k: nat :| Aligned(h, '.', k) && h[k..] in list {
      if k > 0 { assert h == h[..k - 1] + "." + h[k..]; } else { assert h[0..] == h; }
    }
    if d :| d in list && (h == d || exists x :: h == x + "." + d) {
      if h == d {
        assert h[0..] == h && Aligned(h, '.', 0);
      } else {
        var x :| h == x + "." + d;
        assert h[|x| + 1..] == d && Aligned(h, '.', |x| + 1);
      }
    }
  }

  /** The order of a list: the first character in which two entries differ decides, and a proper prefix
      comes first. */
  lemma {:induction false} LessExact(a: string, b: string)
    ensures Less(a, b) <==> exists k: nat ::
              k <= |a| && k < |b| && a[..k] == b[..k] && (k == |a| || a[k] < b[k])
  {
    if a != [] && b != [] && a[0] == b[0] {
      LessExact(a[1..], b[1..]);
      if k: nat :| k <= |a[1..]| && k < |b[1..]| && a[1..][..k] == b[1..][..k]
                   && (k == |a[1..]| || a[1..][k] < b[1..][k]) {
        assert a[..k + 1] == [a[0]] + a[1..][..k] && b[..k + 1] == [b[0]] + b[1..][..k];
      }
      if k: nat :| k <= |a| && k < |b| && a[..k] == b[..k] && (k == |a| || a[k] < b[k]) {
        assert k > 0;
        assert a[1..][..k - 1] == a[..k][1..] && b[1..][..k - 1] == b[..k][1..];
      }
    } else if Less(a, b) {
      assert a[..0] == b[..0];
    } else if k: nat :| k <= |a| && k < |b| && a[..k] == b[..k] && (k == |a| || a[k] < b[k]) {
      if k > 0 { HeadsAgree(a, b, k); }
    }
  }

  lemma HeadsAgree(a: string, b: string, k: nat)
    requires 0 < k <= |a| && k <= |b| && a[..k] == b[..k]
    ensures a[0] == b[0]
  {
    assert a[..k][0] == b[..k][0];
  }
}
