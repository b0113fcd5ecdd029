/** The matcher, the hosts compiler, the merge with a packaged base list and the strict validator,
    with what they promise together. */
module BlocklistTools {
  import opened Types
  import opened Text
  import opened Blocklist

  // ----- specifications

  /** Some suffix of the normalised host that starts at a label boundary is listed. */
  ghost predicate Matches(list: seq<string>, host: string) {
    var h := NormalizeHost(host);
    exists k: nat :: Aligned(h, '.', k) && h[k..] in list
  }

  /** The domains that the valid candidates of a line name. */
  ghost function LineDomains(ip: IpTest, line: string): set<string> {
    set c | c in Candidates(ip, line) && NormalizeDomain(ip, c).Some? :: NormalizeDomain(ip, c).value
  }

  /** The domains a hosts file mentions. */
  ghost function Mentioned(ip: IpTest, lines: seq<string>): set<string> {
    set j, d | 0 <= j < |lines| && d in LineDomains(ip, lines[j]) :: d
  }

  /** The domains of all inputs that exist. */
  ghost function Listed(ip: IpTest, inputs: seq<Option<seq<string>>>): set<string> {
    set i, d | 0 <= i < |inputs| && inputs[i].Some? && d in Mentioned(ip, inputs[i].value) :: d
  }

  predicate Clean(ip: IpTest, line: string) {
    Content(line) != [] ==>
      && Candidates(ip, line) != []
      && forall i | 0 <= i < |Candidates(ip, line)| :: NormalizeDomain(ip, Candidates(ip, line)[i]).Some?
  }

  ghost predicate Strict(ip: IpTest, lines: seq<string>) {
    forall j | 0 <= j < |lines| :: Clean(ip, lines[j])
  }

  // ----- the list on disk

  /** An FST builder accepts strictly ascending insertions only. */
  class SetBuilder {
    var items: seq<string>

    constructor ()
      ensures items == []
    {
      items := [];
    }

    method Append(x: string) returns (ok: bool)
      modifies this
      ensures ok == (old(items) == [] || Less(old(items)[|old(items)| - 1], x))
      ensures items == if ok then old(items) + [x] else old(items)
    {
      ok := items == [] || Less(items[|items| - 1], x);
      if ok {
        items := items + [x];
      }
    }
  }

  /** Writing a sorted list never hits an out-of-order insertion and loses nothing. */
  method WriteList(sorted: seq<string>) returns (written: Option<seq<string>>)
    requires Ascending(sorted)
    ensures written == Some(sorted)
  {
    var builder := new SetBuilder();
    for i := 0 to |sorted|
      invariant builder.items == sorted[..i]
    {
      var ok := builder.Append(sorted[i]);
      if !ok {
        return None;
      }
    }
    assert sorted[..|sorted|] == sorted;
    return Some(builder.items);
  }

  // ----- matching

  class Matcher {
    const list: Option<seq<string>>
    var hits: nat

    constructor (list: Option<seq<string>>)
      ensures this.list == list && hits == 0
    {
      this.list := list;
      hits := 0;
    }

    method Contains(host: string) returns (found: bool)
      modifies this
      ensures found <==> list.Some? && Matches(list.value, host)
      ensures hits == if found then (old(hits) + 1) % U64 else old(hits)
    {
      hide NormalizeHost, Split, Join;
      if list.None? {
        return false;
      }
      var h := NormalizeHost(host);
      var names := Split(h, '.');
      for i := 0 to |names|
        invariant hits == old(hits)
        invariant forall j | 0 <= j < i :: Join(names[j..], '.') !in list.value
      {
        if Join(names[i..], '.') in list.value {
          var k := TailIsAligned(h, '.', i);
          JoinSplit(h[k..], '.');
          hits := (hits + 1) % U64;
          return true;
        }
      }
      forall k: nat | Aligned(h, '.', k) ensures h[k..] !in list.value {
        var i := AlignedIsTail(h, '.', k);
        JoinSplit(h[k..], '.');
        assert Join(names[i..], '.') == h[k..];
      }
      return false;
    }
  }

  // ----- compiling and validating

  lemma NothingListed(ip: IpTest, lines: seq<string>, inputs: seq<Option<seq<string>>>)
    ensures Ascending([]) && Elements([]) == {}
    ensures Mentioned(ip, lines[..0]) == {} && Listed(ip, inputs[..0]) == {}
  {
  }

  lemma {:induction false} ValidElements(ip: IpTest, candidates: seq<string>)
    ensures Elements(Valid(ip, candidates))
         == set c | c in candidates && NormalizeDomain(ip, c).Some? :: NormalizeDomain(ip, c).value
  {
    hide NormalizeDomain;
    if candidates != [] {
      ValidElements(ip, candidates[1..]);
      assert candidates == [candidates[0]] + candidates[1..];
      var d := NormalizeDomain(ip, candidates[0]);
      ElementsOfSum(if d.Some? then [d.value] else [], Valid(ip, candidates[1..]));
    }
  }

  lemma LineElements(ip: IpTest, line: string)
    ensures Elements(ParseHostsLine(ip, line)) == LineDomains(ip, line)
  {
    hide NormalizeDomain, Valid;
    ValidElements(ip, Candidates(ip, line));
    if Content(line) == [] {
      assert SplitWhitespace([]) == [];
      assert Candidates(ip, line) == [];
    }
  }

  lemma MentionedGrows(ip: IpTest, lines: seq<string>, i: nat)
    requires i < |lines|
    ensures Mentioned(ip, lines[..i + 1]) == Mentioned(ip, lines[..i]) + LineDomains(ip, lines[i])
  {
    hide LineDomains;
    assert lines[..i + 1] == lines[..i] + [lines[i]];
  }

  lemma ListedGrows(ip: IpTest, inputs: seq<Option<seq<string>>>, i: nat)
    requires i < |inputs|
    ensures Listed(ip, inputs[..i + 1])
         == Listed(ip, inputs[..i]) + (if inputs[i].Some? then Mentioned(ip, inputs[i].value) else {})
  {
    hide Mentioned;
    assert inputs[..i + 1] == inputs[..i] + [inputs[i]];
  }

  method InsertAll(domains: seq<string>, found: seq<string>) returns (r: seq<string>)
    requires Ascending(domains)
    ensures Ascending(r) && Elements(r) == Elements(domains) + Elements(found)
  {
    r := domains;
    for i := 0 to |found|
      invariant Ascending(r) && Elements(r) == Elements(domains) + Elements(found[..i])
    {
      hide Insert;
      r := Insert(r, found[i]);
      assert Elements(found[..i + 1]) == Elements(found[..i]) + {found[i]} by {
        assert found[..i + 1] == found[..i] + [found[i]];
      }
    }
    assert found[..|found|] == found;
  }

  /** The compiled list holds exactly the valid domains of the inputs that exist, in order; the
      count is the number of distinct domains. */
  method CompileHosts(ip: IpTest, inputs: seq<Option<seq<string>>>) returns (list: Option<seq<string>>, count: nat)
    ensures list.Some? && Ascending(list.value) && Elements(list.value) == Listed(ip, inputs)
    ensures count == |list.value| == |Listed(ip, inputs)|
  {
    hide Listed, Mentioned, Ascending, LineDomains, ParseHostsLine;
    var domains: seq<string> := [];
    NothingListed(ip, [], inputs);
    for i := 0 to |inputs|
      invariant Ascending(domains) && Elements(domains) == Listed(ip, inputs[..i])
    {
      ListedGrows(ip, inputs, i);
      if inputs[i].None? {
        continue;
      }
      var lines := inputs[i].value;
      NothingListed(ip, lines, inputs);
      for j := 0 to |lines|
        invariant Ascending(domains) && Elements(domains) == Listed(ip, inputs[..i]) + Mentioned(ip, lines[..j])
      {
        MentionedGrows(ip, lines, j);
        LineElements(ip, lines[j]);
        domains := InsertAll(domains, ParseHostsLine(ip, lines[j]));
      }
      assert lines[..|lines|] == lines;
    }
    assert inputs[..|inputs|] == inputs;
    CardinalityOfAscending(domains);
    list := WriteList(domains);
    count := |domains|;
  }

  /** Merging keeps exactly the domains of both lists, in order, and counts their union. */
  method MergeHostsWithBase(ip: IpTest, base: seq<string>, inputs: seq<Option<seq<string>>>)
    returns (merged: Option<seq<string>>, count: nat)
    requires Ascending(base)
    ensures merged.Some? && Ascending(merged.value) && Elements(merged.value) == Elements(base) + Listed(ip, inputs)
    ensures count == |merged.value| == |Elements(base) + Listed(ip, inputs)|
  {
    hide Listed, Union, Less;
    var custom, _ := CompileHosts(ip, inputs);
    var stream := Union(base, custom.value);
    var builder := new SetBuilder();
    count := 0;
    while count < |stream|
      invariant count <= |stream| && builder.items == stream[..count]
    {
      var ok := builder.Append(stream[count]);
      if !ok {
        return None, count;
      }
      count := count + 1;
    }
    assert stream[..count] == stream;
    CardinalityOfAscending(stream);
    merged := Some(builder.items);
  }

  /** The domains of one line, or None when the strict rules reject the line. */
  method ValidateLine(ip: IpTest, line: string, domains: seq<string>) returns (r: Option<seq<string>>)
    requires Ascending(domains)
    ensures r.Some? <==> Clean(ip, line)
    ensures r.Some? ==> Ascending(r.value) && Elements(r.value) == Elements(domains) + LineDomains(ip, line)
  {
    hide NormalizeDomain, Ascending, Insert, Candidates, Content, LineDomains, Valid;
    NothingValid(ip);
    LineElements(ip, line);
    if Content(line) == [] {
      return Some(domains);
    }
    var candidates := Candidates(ip, line);
    if candidates == [] {
      return None;
    }
    var found := domains;
    for i := 0 to |candidates|
      invariant forall c | 0 <= c < i :: NormalizeDomain(ip, candidates[c]).Some?
      invariant Ascending(found)
      invariant Elements(found) == Elements(domains) + Elements(Valid(ip, candidates[..i]))
    {
      var domain := NormalizeDomain(ip, candidates[i]);
      if domain.None? {
        return None;
      }
      found := Insert(found, domain.value);
      ValidAppend(ip, candidates[..i], candidates[i]);
      assert candidates[..i + 1] == candidates[..i] + [candidates[i]];
    }
    assert candidates[..|candidates|] == candidates;
    return Some(found);
  }

  lemma NothingValid(ip: IpTest)
    ensures Elements(Valid(ip, [])) == {}
  {
  }

  lemma {:induction false} ValidAppend(ip: IpTest, candidates: seq<string>, c: string)
    requires NormalizeDomain(ip, c).Some?
    ensures Elements(Valid(ip, candidates + [c])) == Elements(Valid(ip, candidates)) + {NormalizeDomain(ip, c).value}
  {
    hide NormalizeDomain;
    if candidates == [] {
      assert [c][1..] == [];
    } else {
      ValidAppend(ip, candidates[1..], c);
      var d := NormalizeDomain(ip, candidates[0]);
      var head := if d.Some? then [d.value] else [];
      ElementsOfSum(head, Valid(ip, candidates[1..]));
      ElementsOfSum(head, Valid(ip, candidates[1..] + [c]));
      assert (candidates + [c])[1..] == candidates[1..] + [c];
    }
  }

  /** Validation succeeds exactly on files whose every non-blank line names at least one host and
      only valid ones, and then counts the distinct domains. */
  method ValidateHostsFile(ip: IpTest, lines: seq<string>) returns (r: Option<nat>)
    ensures r.Some? <==> Strict(ip, lines)
    ensures r.Some? ==> r.value == |Mentioned(ip, lines)|
  {
    hide Mentioned, Ascending, LineDomains, Clean;
    var domains: seq<string> := [];
    NothingListed(ip, lines, []);
    for j := 0 to |lines|
      invariant forall i | 0 <= i < j :: Clean(ip, lines[i])
      invariant Ascending(domains) && Elements(domains) == Mentioned(ip, lines[..j])
    {
      MentionedGrows(ip, lines, j);
      var next := ValidateLine(ip, lines[j], domains);
      if next.None? {
        return None;
      }
      domains := next.value;
    }
    assert lines[..|lines|] == lines;
    CardinalityOfAscending(domains);
    return Some(|domains|);
  }
}
