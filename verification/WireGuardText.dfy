/** How a WireGuard profile is laid out as text: exactly which lines read as which items. */
module WireGuardText {
  import opened Types
  import opened Text
  import opened WireGuardConfig

  predicate Blank(s: string) {
    forall c | c in s :: IsWhitespace(c)
  }

  predicate Trimmed(s: string) {
    s == [] || (!IsWhitespace(s[0]) && !IsWhitespace(s[|s| - 1]))
  }

  lemma {:induction false} TrimStartPad(pad: string, s: string)
    requires Blank(pad)
    requires s != [] ==> !IsWhitespace(s[0])
    ensures TrimStart(pad + s) == s
  {
    if pad == [] {
      assert pad + s == s;
    } else {
      assert pad[0] in pad;
      assert (pad + s)[1..] == pad[1..] + s;
      TrimStartPad(pad[1..], s);
    }
  }

  lemma {:induction false} TrimEndPad(s: string, pad: string)
    requires Blank(pad)
    requires s != [] ==> !IsWhitespace(s[|s| - 1])
    ensures TrimEnd(s + pad) == s
  {
    if pad == [] {
      assert s + pad == s;
    } else {
      assert pad[|pad| - 1] in pad;
      assert (s + pad)[..|s + pad| - 1] == s + pad[..|pad| - 1];
      TrimEndPad(s, pad[..|pad| - 1]);
    }
  }

  lemma TrimPad(left: string, s: string, right: string)
    requires Blank(left) && Blank(right) && Trimmed(s)
    ensures Trim(left + s + right) == s
  {
    if s == [] {
      TrimStartPad(left + s + right, []);
      assert left + s + right + [] == left + s + right;
    } else {
      assert left + s + right == left + (s + right);
      TrimStartPad(left, s + right);
      TrimEndPad(s, right);
    }
  }

  lemma {:induction false} TrimStartCuts(s: string)
    ensures forall i | 0 <= i < |s| - |TrimStart(s)| :: IsWhitespace(s[i])
  {
    hide IsWhitespace;
    if s != [] && IsWhitespace(s[0]) {
      TrimStartCuts(s[1..]);
      forall i | 0 < i < |s| - |TrimStart(s)| ensures IsWhitespace(s[i]) {
        assert s[i] == s[1..][i - 1];
      }
    }
  }

  lemma {:induction false} TrimEndCuts(s: string)
    ensures forall i | |TrimEnd(s)| <= i < |s| :: IsWhitespace(s[i])
  {
    hide IsWhitespace;
    if s != [] && IsWhitespace(s[|s| - 1]) {
      TrimEndCuts(s[..|s| - 1]);
    }
  }

  lemma AllBlank(s: string)
    requires forall i | 0 <= i < |s| :: IsWhitespace(s[i])
    ensures Blank(s)
  {
  }

  lemma CutTwice(s: string, a: nat, b: nat)
    requires a <= |s| && b <= |s| - a
    ensures s == s[..a] + s[a..][..b] + s[a..][b..]
  {
  }

  /** Trimming removes white space on both sides, and nothing else. */
  lemma TrimCuts(s: string) returns (left: string, right: string)
    ensures Blank(left) && Blank(right) && s == left + Trim(s) + right && Trimmed(Trim(s))
  {
    hide Blank, IsWhitespace, TrimStart, TrimEnd;
    var inner := TrimStart(s);
    left, right := s[..|s| - |inner|], inner[|Trim(s)|..];
    assert Blank(left) by { TrimStartCuts(s); AllBlank(left); }
    assert Blank(right) by { TrimEndCuts(inner); AllBlank(right); }
    CutTwice(s, |s| - |inner|, |Trim(s)|);
    if Trim(s) != [] { assert Trim(s)[0] == inner[0]; }
  }

  // ----- directive lines

  /** The parts of a directive line. */
  datatype Layout = Layout(indent: string, key: string, before: string, after: string, value: string,
                           trailing: string, comment: string)
  {
    function Core(): string {
      key + before + "=" + after + value
    }

    function Line(): string {
      indent + Core() + trailing + comment
    }

    predicate Valid() {
      && Blank(indent) && Blank(before) && Blank(after) && Blank(trailing)
      && Trimmed(key) && Trimmed(value) && value != []
      && '#' !in key && '=' !in key && '#' !in value
      && (key == [] ==> before == [])
      && (comment == [] || comment[0] == '#')
      && !(StartsWith(Core(), '[') && EndsWith(Core(), ']'))
    }
  }

  lemma {:induction false} IndexOfFirst(front: string, c: char, back: string)
    requires c !in front
    requires back == [] || back[0] == c
    ensures IndexOf(front + back, c) == |front|
  {
    if front == [] {
      assert front + back == back;
    } else {
      assert (front + back)[1..] == front[1..] + back;
      IndexOfFirst(front[1..], c, back);
    }
  }

  lemma LayoutReads(l: Layout)
    requires l.Valid()
    ensures ReadLine(l.Line()) == Some(Setting(Directive(Lower(l.key), l.value)))
  {
    hide Lower, Trim, IndexOf, Blank, Trimmed;
    var core := l.Core();
    CoreFacts(l);
    assert l.Line() == (l.indent + core + l.trailing) + l.comment;
    IndexOfFirst(l.indent + core + l.trailing, '#', l.comment);
    assert l.Line()[..|l.indent + core + l.trailing|] == l.indent + core + l.trailing;
    TrimPad(l.indent, core, l.trailing);
    var key := l.key + l.before;
    assert core == key + (['='] + l.after + l.value);
    IndexOfFirst(key, '=', ['='] + l.after + l.value);
    assert core[..|key|] == key && core[|key| + 1..] == l.after + l.value;
    assert [] + l.key + l.before == key && l.after + l.value + [] == l.after + l.value;
    assert Blank([]) by { EmptyIsBlank(); }
    TrimPad([], l.key, l.before);
    TrimPad(l.after, l.value, []);
  }

  lemma EmptyIsBlank()
    ensures Blank([]) && Trimmed([])
  {
  }

  lemma CoreFacts(l: Layout)
    requires l.Valid()
    ensures Trimmed(l.Core()) && l.Core() != [] && '=' !in l.key + l.before
    ensures '#' !in l.indent + l.Core() + l.trailing
  {
    var core := l.Core();
    assert !IsWhitespace('#') && !IsWhitespace('=');
    assert core[|core| - 1] == l.value[|l.value| - 1];
    assert core[0] == if l.key == [] then '=' else l.key[0];
    assert '#' !in "=";
  }

  lemma MidOf(whole: string, left: string, mid: string, right: string, c: char)
    requires whole == left + mid + right && c !in whole
    ensures c !in mid
  {
  }

  lemma Reassemble(line: string, e: nat, front: string, back: string)
    requires e < |line| && line[e] == '=' && line[..e] == front && line[e + 1..] == back
    ensures line == front + ['='] + back
  {
  }

  lemma Unpadded(key: string, before: string, after: string, value: string)
    ensures [] + key + before + ['='] + (after + value) + [] == key + before + ['='] + after + value
  {
  }

  /** A trimmed line with an equals sign is a key, the sign and a value, with white space between. */
  lemma CoreOfLine(line: string) returns (before: string, after: string)
    requires Trimmed(line) && '=' in line
    ensures var e := IndexOf(line, '=');
      var key, value := Trim(line[..e]), Trim(line[e + 1..]);
      && line == key + before + ['='] + after + value
      && Blank(before) && Blank(after) && Trimmed(key) && Trimmed(value)
      && '=' !in key && (key == [] ==> before == [])
  {
    hide Trim, Blank, Trimmed, IsWhitespace;
    var e := IndexOf(line, '=');
    assert e < |line| by { assert line[..|line|] == line; }
    var key, value := Trim(line[..e]), Trim(line[e + 1..]);
    var left, right;
    left, before := TrimCuts(line[..e]);
    after, right := TrimCuts(line[e + 1..]);
    Reassemble(line, e, left + key + before, after + value + right);
    assert left + key + before + ['='] + (after + value + right)
        == left + key + before + ['='] + (after + value) + right;
    NoOuterPad(line, left, key, before, after + value, right);
    Unpadded(key, before, after, value);
    MidOf(line[..e], left, key, before, '=');
  }

  lemma LayoutOfRead(raw: string, d: Directive) returns (l: Layout)
    requires ReadLine(raw) == Some(Setting(d))
    ensures l.Valid() && l.Line() == raw && d == Directive(Lower(l.key), l.value)
  {
    hide Lower, Trim, Blank, Trimmed, IsWhitespace, IndexOf;
    var k := IndexOf(raw, '#');
    var line := Trim(raw[..k]);
    var e := IndexOf(line, '=');
    var indent, trailing := TrimCuts(raw[..k]);
    assert line[e] == '=';
    var before, after := CoreOfLine(line);
    l := Layout(indent, Trim(line[..e]), before, after, Trim(line[e + 1..]), trailing, raw[k..]);
    CoreWithoutComment(raw[..k], l);
    assert l.Line() == raw[..k] + raw[k..] == raw;
  }

  lemma CoreWithoutComment(text: string, l: Layout)
    requires text == l.indent + l.Core() + l.trailing && '#' !in text
    ensures '#' !in l.key && '#' !in l.value
  {
    MidOf(text, l.indent, l.Core(), l.trailing, '#');
    assert l.Core() == [] + l.key + (l.before + "=" + l.after + l.value);
    assert l.Core() == (l.key + l.before + "=" + l.after) + l.value + [];
    MidOf(l.Core(), [], l.key, l.before + "=" + l.after + l.value, '#');
    MidOf(l.Core(), l.key + l.before + "=" + l.after, l.value, [], '#');
  }

  /** A trimmed line leaves no white space outside its key and its value. */
  lemma NoOuterPad(line: string, left: string, key: string, before: string, rest: string, right: string)
    requires line == left + key + before + ['='] + rest + right
    requires Trimmed(line) && Blank(left) && Blank(before) && Blank(right)
    ensures left == [] && right == []
    ensures key == [] ==> before == []
  {
    var tail := ['='] + rest + right;
    assert line == left + (key + before + tail);
    PadShows(left, key + before + tail);
    assert line == left + key + before + ['='] + rest + right;
    PadShows(right, left + key + before + ['='] + rest);
    if key == [] {
      assert key + before + tail == before + tail;
      PadShows(before, tail);
    }
  }

  lemma PadShows(pad: string, s: string)
    requires Blank(pad)
    ensures pad != [] ==> IsWhitespace((pad + s)[0])
    ensures pad != [] ==> IsWhitespace((s + pad)[|s + pad| - 1])
  {
    if pad != [] {
      assert pad[0] in pad && pad[|pad| - 1] in pad;
    }
  }

  /** Exactly which lines read as the directive `d`. */
  lemma DirectiveLine(raw: string, d: Directive)
    ensures ReadLine(raw) == Some(Setting(d))
      <==> exists l: Layout :: l.Valid() && l.Line() == raw && d == Directive(Lower(l.key), l.value)
  {
    if ReadLine(raw) == Some(Setting(d)) {
      var l := LayoutOfRead(raw, d);
    }
    if l: Layout :| l.Valid() && l.Line() == raw && d == Directive(Lower(l.key), l.value) {
      LayoutReads(l);
    }
  }

  // ----- header lines, empty lines, line ends

  /** A line that holds `text`, with white space around it and a comment after it. */
  predicate Holds(raw: string, indent: string, text: string, trailing: string, comment: string) {
    && raw == indent + text + trailing + comment
    && Blank(indent) && Blank(trailing) && Trimmed(text) && '#' !in text
    && (comment == [] || comment[0] == '#')
  }

  lemma HeldText(raw: string, indent: string, text: string, trailing: string, comment: string)
    requires Holds(raw, indent, text, trailing, comment)
    ensures Trim(raw[..IndexOf(raw, '#')]) == text
  {
    hide Trim, IndexOf;
    var front := indent + text + trailing;
    assert '#' !in front by { assert !IsWhitespace('#'); }
    IndexOfFirst(front, '#', comment);
    assert raw[..|front|] == front;
    TrimPad(indent, text, trailing);
  }

  lemma TextHeld(raw: string) returns (indent: string, trailing: string, comment: string)
    ensures Holds(raw, indent, Trim(raw[..IndexOf(raw, '#')]), trailing, comment)
  {
    hide Trim, IndexOf, Blank, Trimmed, IsWhitespace;
    var k := IndexOf(raw, '#');
    indent, trailing := TrimCuts(raw[..k]);
    comment := raw[k..];
    MidOf(raw[..k], indent, Trim(raw[..k]), trailing, '#');
    assert raw == raw[..k] + raw[k..];
  }

  /** Exactly which lines are skipped: white space and a comment. */
  lemma EmptyLine(raw: string)
    ensures ReadLine(raw).None? <==> exists pad, comment :: Holds(raw, pad, [], [], comment)
  {
    hide Trim, IndexOf, Holds, Header, SplitOnce;
    var indent, trailing, comment := TextHeld(raw);
    if ReadLine(raw).None? {
      PadsMerge(raw, indent, trailing, comment);
    }
    if pad, other :| Holds(raw, pad, [], [], other) {
      HeldText(raw, pad, [], [], other);
    }
  }

  lemma PadsMerge(raw: string, left: string, right: string, comment: string)
    requires Holds(raw, left, [], right, comment)
    ensures Holds(raw, left + right, [], [], comment)
  {
    assert left + [] + right == left + right + [] + [];
  }

  lemma LowerKeeps(s: string, c: char)
    requires !('A' <= c <= 'Z') && !('a' <= c <= 'z')
    ensures c in s <==> c in Lower(s)
    ensures StartsWith(s, c) <==> StartsWith(Lower(s), c)
    ensures EndsWith(s, c) <==> EndsWith(Lower(s), c)
  {
    var low := Lower(s);
    if i :| 0 <= i < |s| && s[i] == c { assert low[i] == c; }
    if i :| 0 <= i < |s| && low[i] == c { assert low[i] == LowerChar(s[i]); }
  }

  /** Exactly which lines open a section: its name in brackets, in any letter case. */
  lemma HeaderLine(raw: string)
    ensures ReadLine(raw) == Some(InterfaceHeader)
      <==> exists indent, text, trailing, comment ::
             Holds(raw, indent, text, trailing, comment) && Lower(text) == "[interface]"
    ensures ReadLine(raw) == Some(PeerHeader)
      <==> exists indent, text, trailing, comment ::
             Holds(raw, indent, text, trailing, comment) && Lower(text) == "[peer]"
  {
    hide Trim, IndexOf, Holds, SplitOnce, Lower;
    var indent, trailing, comment := TextHeld(raw);
    forall left, text, right, other | Holds(raw, left, text, right, other)
      ensures text == Trim(raw[..IndexOf(raw, '#')])
    {
      HeldText(raw, left, text, right, other);
    }
    var line := Trim(raw[..IndexOf(raw, '#')]);
    LowerKeeps(line, '[');
    LowerKeeps(line, ']');
  }

  /** Lines, each with its line feed, before which a carriage return may stand. */
  function Terminated(lines: seq<string>, crlf: seq<bool>): string
    requires |lines| == |crlf|
  {
    if lines == [] then [] else lines[0] + (if crlf[0] then "\r\n" else "\n") + Terminated(lines[1..], crlf[1..])
  }

  /** A text is read as its lines, whichever line ends it uses, the last one terminated or not. */
  lemma {:induction false} LinesOfText(lines: seq<string>, crlf: seq<bool>, last: string)
    requires |lines| == |crlf| && '\n' !in last && forall line | line in lines :: IsLine(line)
    ensures Lines(Terminated(lines, crlf) + last) == lines + (if last == [] then [] else [last])
  {
    hide IndexOf, Lines;
    if lines == [] {
      assert Terminated(lines, crlf) + last == last;
      IndexOfAbsent(last, '\n');
      LastLine(last);
    } else {
      var first, rest := lines[0], Terminated(lines[1..], crlf[1..]) + last;
      LinesOfText(lines[1..], crlf[1..], last);
      FirstLine(first, crlf[0], rest);
      assert Terminated(lines, crlf) + last == first + (if crlf[0] then "\r\n" else "\n") + rest;
      assert lines == [first] + lines[1..];
    }
  }

  lemma LastLine(last: string)
    requires '\n' !in last
    ensures Lines(last) == if last == [] then [] else [last]
  {
    IndexOfAbsent(last, '\n');
  }

  lemma FirstLine(first: string, crlf: bool, rest: string)
    requires IsLine(first)
    ensures Lines(first + (if crlf then "\r\n" else "\n") + rest) == [first] + Lines(rest)
  {
    hide IndexOf, Lines;
    var ended := if crlf then first + ['\r'] else first;
    var text := first + (if crlf then "\r\n" else "\n") + rest;
    assert text == ended + ['\n'] + rest;
    assert '\n' !in ended;
    FirstPiece(ended, '\n', rest);
    LinesUnfold(text);
    if ended != [] {
      assert text[|ended| - 1] == ended[|ended| - 1];
    }
    assert text[..|first|] == first;
  }

  lemma LinesUnfold(s: string)
    requires IndexOf(s, '\n') < |s|
    ensures var k := IndexOf(s, '\n');
            Lines(s) == [if k > 0 && s[k - 1] == '\r' then s[..k - 1] else s[..k]] + Lines(s[k + 1..])
  {
  }

  // ----- printing

  /** Text that a directive line can carry without being read differently. */
  predicate Printable(d: Directive) {
    && Plain(d).Valid() && Lower(d.key) == d.key
    && '\n' !in d.key && '\n' !in d.value
  }

  function Plain(d: Directive): Layout {
    Layout([], d.key, [], [], d.value, [], [])
  }

  function PrintBlock(ds: seq<Directive>): seq<string> {
    if ds == [] then [] else [Plain(ds[0]).Line()] + PrintBlock(ds[1..])
  }

  function PrintPeers(peers: seq<seq<Directive>>): seq<string> {
    if peers == [] then [] else ["[peer]"] + PrintBlock(peers[0]) + PrintPeers(peers[1..])
  }

  function Print(c: Config): string {
    Unlines(["[interface]"] + PrintBlock(c.interface) + PrintPeers(c.peers))
  }

  function Unlines(lines: seq<string>): string {
    if lines == [] then [] else lines[0] + "\n" + Unlines(lines[1..])
  }

  predicate PrintableBlock(ds: seq<Directive>) {
    forall d | d in ds :: Printable(d)
  }

  predicate IsLine(s: string) {
    '\n' !in s && (s != [] ==> s[|s| - 1] != '\r')
  }

  lemma {:induction false} LinesOfUnlines(lines: seq<string>)
    requires forall line | line in lines :: IsLine(line)
    ensures Lines(Unlines(lines)) == lines
  {
    hide Lines;
    if lines != [] {
      LinesOfUnlines(lines[1..]);
      FirstLine(lines[0], false, Unlines(lines[1..]));
      assert lines == [lines[0]] + lines[1..];
    } else {
      LastLine([]);
    }
  }

  lemma {:induction false} ItemsOfConcat(a: seq<string>, b: seq<string>)
    ensures Items(a + b) == Items(a) + Items(b)
  {
    hide ReadLine;
    if a == [] {
      assert a + b == b;
    } else {
      hide Items;
      assert (a + b)[1..] == a[1..] + b && (a + b)[0] == a[0];
      ItemsOfConcat(a[1..], b);
      ItemsCons(a);
      ItemsCons(a + b);
    }
  }

  lemma ItemsCons(lines: seq<string>)
    requires lines != []
    ensures var item := ReadLine(lines[0]);
      Items(lines) == (if item.Some? then [item.value] else []) + Items(lines[1..])
  {
  }

  lemma HeaderReads(line: string)
    requires NoWhitespace(line) && NoUpper(line) && '#' !in line
    requires StartsWith(line, '[') && EndsWith(line, ']')
    ensures Items([line]) == [Header(line)]
  {
    hide Trim, Lower, IndexOf;
    IndexOfFirst(line, '#', []);
    assert line + [] == line && line[..|line|] == line;
    TrimOfWord(line);
    LowerOfLower(line);
    assert [line][1..] == [];
  }

  lemma HeaderLines()
    ensures Items(["[interface]"]) == [InterfaceHeader] && Items(["[peer]"]) == [PeerHeader]
    ensures IsLine("[interface]") && IsLine("[peer]")
  {
    hide Items;
    HeaderReads("[interface]");
    HeaderReads("[peer]");
  }

  lemma {:induction false} PrintedBlock(ds: seq<Directive>)
    requires PrintableBlock(ds)
    ensures Items(PrintBlock(ds)) == RenderBlock(ds)
    ensures forall line | line in PrintBlock(ds) :: IsLine(line)
  {
    if ds != [] {
      assert Printable(ds[0]);
      LayoutReads(Plain(ds[0]));
      PlainLine(ds[0]);
      PrintedBlock(ds[1..]);
    }
  }

  lemma PlainLine(d: Directive)
    requires Printable(d)
    ensures IsLine(Plain(d).Line())
  {
    var line := Plain(d).Line();
    assert line == d.key + "=" + d.value;
    assert line[|line| - 1] == d.value[|d.value| - 1];
    assert IsWhitespace('\r');
  }

  lemma {:induction false} PrintedPeers(peers: seq<seq<Directive>>)
    requires forall ds | ds in peers :: PrintableBlock(ds)
    ensures Items(PrintPeers(peers)) == RenderPeers(peers)
    ensures forall line | line in PrintPeers(peers) :: IsLine(line)
  {
    hide PrintBlock, RenderBlock, IsLine, PrintableBlock, ReadLine, Items;
    if peers == [] {
      NoItems();
    } else {
      HeaderLines();
      PrintedBlock(peers[0]);
      PrintedPeers(peers[1..]);
      ItemsOfConcat(["[peer]"], PrintBlock(peers[0]));
      ItemsOfConcat(["[peer]"] + PrintBlock(peers[0]), PrintPeers(peers[1..]));
    }
  }

  lemma NoItems()
    ensures Items([]) == []
  {
  }

  /** Printing a configuration and reading it back gives that configuration. */
  lemma PrintedTextDescribes(c: Config)
    requires PrintableBlock(c.interface) && forall ds | ds in c.peers :: PrintableBlock(ds)
    ensures Describes(Print(c), c)
  {
    hide PrintBlock, PrintPeers, RenderBlock, RenderPeers, IsLine, PrintableBlock, ReadLine, Items, Lines, Unlines;
    var head, body := ["[interface]"], PrintBlock(c.interface);
    HeaderLines();
    PrintedBlock(c.interface);
    PrintedPeers(c.peers);
    ItemsOfConcat(head, body);
    ItemsOfConcat(head + body, PrintPeers(c.peers));
    LinesOfUnlines(head + body + PrintPeers(c.peers));
  }
}
