/** Laws that relate validation, compilation, merging and matching. */
module BlocklistLaws {
  import opened Types
  import opened Text
  import opened Blocklist
  import opened BlocklistTools

  // ----- strict and lenient parsing

  lemma {:induction false} ValidKeepsAll(ip: IpTest, candidates: seq<string>)
    ensures |Valid(ip, candidates)| == |candidates| <==>
            forall i | 0 <= i < |candidates| :: NormalizeDomain(ip, candidates[i]).Some?
  {
    hide NormalizeDomain;
    if candidates != [] {
      ValidKeepsAll(ip, candidates[1..]);
      if forall i | 0 <= i < |candidates| :: NormalizeDomain(ip, candidates[i]).Some? {
        assert forall i | 0 <= i < |candidates| - 1 :: candidates[1..][i] == candidates[i + 1];
      }
      if |Valid(ip, candidates)| == |candidates| {
        forall i | 0 <= i < |candidates| ensures NormalizeDomain(ip, candidates[i]).Some? {
          if i > 0 { assert candidates[i] == candidates[1..][i - 1]; }
        }
      }
    }
  }

  /** The strict validator accepts a file exactly when the lenient compiler, which skips what it
      does not like, would skip nothing on any line and find a host on every non-blank one; and
      then both count the same domains. */
  lemma StrictAndLenientAgree(ip: IpTest, lines: seq<string>)
    ensures Strict(ip, lines) <==>
            forall j | 0 <= j < |lines| && Content(lines[j]) != [] ::
              Candidates(ip, lines[j]) != [] && |ParseHostsLine(ip, lines[j])| == |Candidates(ip, lines[j])|
    ensures Listed(ip, [Some(lines)]) == Mentioned(ip, lines)
  {
    hide NormalizeDomain, Content, Candidates, Mentioned, Valid;
    forall j | 0 <= j < |lines| { ValidKeepsAll(ip, Candidates(ip, lines[j])); }
    assert [Some(lines)][0] == Some(lines);
  }

  // ----- printing and recompiling

  predicate HostChar(c: char) {
    Alphanumeric(c) || c == '-' || c == '.'
  }

  lemma {:induction false} PiecesMakeHost(s: string)
    requires forall i | 0 <= i < |Split(s, '.')| :: ValidLabel(Split(s, '.')[i])
    ensures forall i | 0 <= i < |s| :: HostChar(s[i])
    ensures s != [] && s[|s| - 1] != '.'
    decreases |s|
  {
    var k := IndexOf(s, '.');
    var pieces := Split(s, '.');
    assert ValidLabel(pieces[0]);
    if k < |s| {
      var rest := s[k + 1..];
      assert pieces[1..] == Split(rest, '.');
      forall i | 0 <= i < |Split(rest, '.')| ensures ValidLabel(Split(rest, '.')[i]) {
        assert Split(rest, '.')[i] == pieces[i + 1];
      }
      PiecesMakeHost(rest);
      assert s == s[..k] + ['.'] + rest;
    }
  }

  /** A compiled entry is in normal form, and a line that holds just the entry parses to it. */
  lemma EntryIsFixpoint(ip: IpTest, candidate: string, d: string)
    requires NormalizeDomain(ip, candidate) == Some(d)
    ensures NormalizeDomain(ip, d) == Some(d) && ParseHostsLine(ip, d) == [d]
  {
    PiecesMakeHost(d);
    LowerHasNoUpper(TrimEndDots(Trim(candidate)));
    HostLine(ip, d);
  }

  lemma NotAnAddress(ip: IpTest, d: string)
    requires ValidHost(ip, d)
    ensures d != [] && !ip(d)
  {
  }

  lemma HostContent(d: string)
    requires d != [] && NoWhitespace(d) && '#' !in d
    ensures Content(d) == d && SplitWhitespace(Content(d)) == [d]
  {
    hide Trim, TrimStart, TrimEnd, SplitWhitespace, IndexOf;
    TrimOfWord(d);
    IndexOfAbsent(d, '#');
    SplitWhitespaceOfWord(d);
  }

  lemma HostNormal(d: string)
    requires d != [] && NoWhitespace(d) && NoUpper(d) && d[|d| - 1] != '.'
    ensures NormalizeHost(d) == d
  {
    hide Trim, Lower;
    TrimOfWord(d);
    LowerOfLower(d);
  }

  lemma HostLine(ip: IpTest, d: string)
    requires ValidHost(ip, d) && NoUpper(d) && d[|d| - 1] != '.'
    requires forall i | 0 <= i < |d| :: HostChar(d[i])
    ensures NormalizeDomain(ip, d) == Some(d) && ParseHostsLine(ip, d) == [d]
  {
    hide ValidHost, Content, SplitWhitespace, NormalizeHost;
    NotAnAddress(ip, d);
    assert NoWhitespace(d) && '#' !in d;
    HostContent(d);
    HostNormal(d);
    assert Candidates(ip, d) == [d];
    assert [d][1..] == [];
  }

  /** Printing a compiled list one host per line and compiling the print gives the same list. */
  lemma RecompileIsIdentity(ip: IpTest, inputs: seq<Option<seq<string>>>, list: seq<string>, again: seq<string>)
    requires Ascending(list) && Elements(list) == Listed(ip, inputs)
    requires Ascending(again) && Elements(again) == Listed(ip, [Some(list)])
    ensures again == list
  {
    hide NormalizeDomain, Ascending, ParseHostsLine, Candidates;
    assert [Some(list)][0] == Some(list);
    forall j | 0 <= j < |list| ensures LineDomains(ip, list[j]) == {list[j]} {
      assert list[j] in Elements(list);
      var c := CandidateOf(ip, inputs, list[j]);
      EntryIsFixpoint(ip, c, list[j]);
      LineElements(ip, list[j]);
    }
    PrintedMentions(ip, list);
    AscendingUnique(again, list);
  }

  lemma PrintedMentions(ip: IpTest, list: seq<string>)
    requires forall j | 0 <= j < |list| :: LineDomains(ip, list[j]) == {list[j]}
    ensures Listed(ip, [Some(list)]) == Elements(list)
  {
    hide LineDomains;
    assert [Some(list)][0] == Some(list);
    assert Mentioned(ip, list) == Elements(list);
  }

  lemma CandidateOf(ip: IpTest, inputs: seq<Option<seq<string>>>, d: string) returns (c: string)
    requires d in Listed(ip, inputs)
    ensures NormalizeDomain(ip, c) == Some(d)
  {
    hide NormalizeDomain, Candidates;
    var i :| 0 <= i < |inputs| && inputs[i].Some? && d in Mentioned(ip, inputs[i].value);
    var j :| 0 <= j < |inputs[i].value| && d in LineDomains(ip, inputs[i].value[j]);
    c :| c in Candidates(ip, inputs[i].value[j]) && NormalizeDomain(ip, c) == Some(d);
  }

  // ----- matching

  /** A host matches the merged list exactly when it matches the base or the custom list. */
  lemma MergedMatching(merged: seq<string>, base: seq<string>, custom: seq<string>, host: string)
    requires Elements(merged) == Elements(base) + Elements(custom)
    ensures Matches(merged, host) <==> Matches(base, host) || Matches(custom, host)
  {
    hide NormalizeHost;
    var h := NormalizeHost(host);
    forall x ensures x in merged <==> x in base || x in custom {
      assert x in Elements(merged) <==> x in Elements(base) || x in Elements(custom);
    }
    if k: nat :| Aligned(h, '.', k) && h[k..] in base {
      assert h[k..] in merged;
    }
    if k: nat :| Aligned(h, '.', k) && h[k..] in custom {
      assert h[k..] in merged;
    }
  }

  lemma {:induction false} TrimStartOfPrefix(x: string, y: string)
    requires y != [] && !IsWhitespace(y[0])
    ensures TrimStart(x + y) == TrimStart(x) + y
    decreases |x|
  {
    if x == [] {
      assert x + y == y;
    } else {
      assert (x + y)[1..] == x[1..] + y;
      TrimStartOfPrefix(x[1..], y);
    }
  }

  lemma {:induction false} LowerOfSum(x: string, y: string)
    ensures Lower(x + y) == Lower(x) + Lower(y)
  {
    if x == [] {
      assert x + y == y;
    } else {
      assert (x + y)[1..] == x[1..] + y;
      LowerOfSum(x[1..], y);
    }
  }

  /** A normalised host keeps its place under additional labels. */
  lemma NormalizeUnderLabels(x: string, host: string) returns (y: string)
    requires host != [] && NormalizeHost(host) == host
    ensures NormalizeHost(x + ['.'] + host) == y + ['.'] + host
  {
    hide Lower, Trim, TrimStart, TrimEndDots, IsWhitespace;
    var tail := ['.'] + host;
    assert x + ['.'] + host == x + tail;
    TrimUnderLabels(x, host);
    LowerOfSum(TrimStart(x), tail);
    LowerOfSum(['.'], host);
    NormalLower(host);
    y := Lower(TrimStart(x));
    LowerOfLower(['.']);
    assert y + (['.'] + host) == y + ['.'] + host;
  }

  lemma TrimUnderLabels(x: string, host: string)
    requires host != [] && NormalizeHost(host) == host
    ensures TrimEndDots(Trim(x + (['.'] + host))) == TrimStart(x) + (['.'] + host)
  {
    hide NormalizeHost, TrimStart, TrimEnd, TrimEndDots;
    var tail := ['.'] + host;
    var t := TrimStart(x) + tail;
    TrimStartOfPrefix(x, tail);
    NormalEnd(host);
    assert t[|t| - 1] == host[|host| - 1];
    EndKept(t);
  }

  lemma EndKept(t: string)
    requires t != [] && !IsWhitespace(t[|t| - 1]) && t[|t| - 1] != '.'
    ensures TrimEnd(t) == t && TrimEndDots(t) == t
  {
  }

  lemma NormalEnd(host: string)
    requires host != [] && NormalizeHost(host) == host
    ensures !IsWhitespace(host[|host| - 1]) && host[|host| - 1] != '.'
  {
    var core := TrimEndDots(Trim(host));
    assert |core| == |host|;
    assert core == Trim(host) == TrimStart(host) == host;
  }

  lemma NormalLower(host: string)
    requires NormalizeHost(host) == host
    ensures Lower(host) == host
  {
    LowerHasNoUpper(TrimEndDots(Trim(host)));
    LowerOfLower(host);
  }

  /** Listing a host lists everything below it. */
  lemma SubLabelsMatch(list: seq<string>, x: string, host: string)
    requires host != [] && NormalizeHost(host) == host && Matches(list, host)
    ensures Matches(list, x + ['.'] + host)
  {
    hide NormalizeHost;
    var y := NormalizeUnderLabels(x, host);
    var h := NormalizeHost(x + ['.'] + host);
    var k: nat :| Aligned(host, '.', k) && host[k..] in list;
    var n := |y| + 1 + k;
    assert h[|y| + 1..] == host;
    assert h[n..] == host[k..];
    assert Aligned(h, '.', n) by {
      if k == 0 { assert h[n - 1] == '.'; } else { assert h[n - 1] == host[k - 1]; }
    }
  }
}
