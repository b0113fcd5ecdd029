/**
 * The browser bridge: a child process and a back/forward list kept as a vector with a position,
 * refined to a zipper.
 */
module BrowserHistory {
  import opened Types

  datatype Command =
    | Start(sessionId: nat, url: Url, profile: StreamProfile, egress: EgressMode)
    | Navigate(navigation: Navigation)
    | Stop

  /** A running browser process with the parameters it was launched with. */
  datatype Child = Child(url: Url, profile: StreamProfile, egress: EgressMode)

  /** What the machine does to a command: does a launch work, and if the command has to wait for a
      process to die, does the deadline come first? */
  datatype Fate = Fate(launches: bool, late: bool)

  /** One request: a line that is not a command, or a command and its fate. */
  datatype Request = Garbage | Request(command: Command, fate: Fate)

  // ----- the zipper

  datatype Zipper = Blank | At(behind: seq<Url>, current: Url, ahead: seq<Url>)

  function Turn(z: Zipper, n: Navigation): Zipper {
    if n.Visit? then At(if z.Blank? then [] else z.behind + [z.current], n.url, [])
    else if n.Back? && z.At? && z.behind != [] then
      At(z.behind[..|z.behind| - 1], z.behind[|z.behind| - 1], [z.current] + z.ahead)
    else if n.Forward? && z.At? && z.ahead != [] then
      At(z.behind + [z.current], z.ahead[0], z.ahead[1..])
    else z
  }

  /** Whether the navigation loads a page. */
  predicate Loads(z: Zipper, n: Navigation) {
    match n
    case Visit(_) => true
    case Back => z.At? && z.behind != []
    case Forward => z.At? && z.ahead != []
    case Reload => z.At?
    case StopLoading => false
  }

  /** Everything in the list, in order. */
  function Pages(z: Zipper): seq<Url> {
    if z.Blank? then [] else z.behind + [z.current] + z.ahead
  }

  function Zip(history: seq<Url>, position: nat): Zipper
    requires position < |history| || (history == [] && position == 0)
  {
    if history == [] then Blank else At(history[..position], history[position], history[position + 1..])
  }

  // ----- the bridge as a value

  datatype Bridge = Bridge(child: Option<Child>, sessionId: Option<nat>, profile: StreamProfile,
                           egress: EgressMode, pages: Zipper)

  const DEFAULT := Bridge(None, None, FullHd30, Direct, Blank)

  /** A launch of the current page; a failed launch leaves no process. */
  function Launch(b: Bridge, works: bool): Bridge {
    b.(child := if works && b.pages.At? then Some(Child(b.pages.current, b.profile, b.egress)) else None)
  }

  function Apply(b: Bridge, c: Command, works: bool): Bridge {
    match c
    case Start(id, url, profile, egress) => Launch(Bridge(None, Some(id), profile, egress, At([], url, [])), works)
    case Navigate(n) =>
      if Loads(b.pages, n) then Launch(b.(pages := Turn(b.pages, n)), works)
      else if n.StopLoading? then b.(child := None)
      else b
    case Stop => b.(child := None)
  }

  /** Stopping a running process is all that a command ever waits for. */
  predicate Waits(b: Bridge, c: Command) {
    && b.child.Some?
    && match c
       case Start(_, _, _, _) => true
       case Navigate(n) => Loads(b.pages, n) || n.StopLoading?
       case Stop => true
  }

  predicate CutOff(b: Bridge, c: Command, fate: Fate) {
    fate.late && Waits(b, c)
  }

  predicate Launching(b: Bridge, c: Command) {
    c.Start? || (c.Navigate? && Loads(b.pages, c.navigation))
  }

  function Serve(b: Bridge, r: Request): Bridge {
    if r.Garbage? then b
    else if CutOff(b, r.command, r.fate) then DEFAULT
    else Apply(b, r.command, r.fate.launches)
  }

  predicate Succeeds(b: Bridge, r: Request) {
    r.Request? && !CutOff(b, r.command, r.fate) && (Launching(b, r.command) ==> r.fate.launches)
  }

  function ServeAll(b: Bridge, rs: seq<Request>): Bridge {
    if rs == [] then b else Serve(ServeAll(b, rs[..|rs| - 1]), rs[|rs| - 1])
  }

  // ----- the bridge as the source keeps it

  class Pipeline {
    var child: Option<Child>
    var sessionId: Option<nat>
    var profile: StreamProfile
    var egress: EgressMode
    var history: seq<Url>
    var position: nat

    /** The position is the index of a page, or zero in an empty list. */
    ghost predicate Valid()
      reads this
    {
      position < |history| || (history == [] && position == 0)
    }

    ghost function View(): Bridge
      reads this
      requires Valid()
    {
      Bridge(child, sessionId, profile, egress, Zip(history, position))
    }

    constructor ()
      ensures Valid() && View() == DEFAULT
    {
      child, sessionId, profile, egress := None, None, FullHd30, Direct;
      history, position := [], 0;
    }

    method Halt()
      modifies this`child
      ensures child == None
    {
      child := None;
    }

    method Spawn(url: Url, works: bool) returns (ok: bool)
      modifies this`child
      ensures ok == works
      ensures child == if works then Some(Child(url, profile, egress)) else old(child)
    {
      if works { child := Some(Child(url, profile, egress)); }
      return works;
    }

    /** The list and the position after a navigation, and the page to load. */
    method Move(n: Navigation) returns (next: Option<Url>)
      requires Valid()
      modifies this`history, this`position
      ensures Valid() && Zip(history, position) == Turn(old(Zip(history, position)), n)
      ensures next.Some? <==> Loads(old(Zip(history, position)), n)
      ensures next.Some? ==> next.value == Zip(history, position).current
    {
      next := None;
      match n {
        case Visit(url) =>
          history := if position + 1 <= |history| then history[..position + 1] else history;
          history := history + [url];
          position := |history| - 1;
          next := Some(url);
          assert history[..position] == if old(history) == [] then []
              else old(history[..position]) + [old(history[position])];
        case Back =>
          if position > 0 {
            position := position - 1;
            next := Some(history[position]);
          }
        case Forward =>
          if position + 1 < |history| {
            position := position + 1;
            next := Some(history[position]);
          }
        case Reload =>
          next := if position < |history| then Some(history[position]) else None;
        case StopLoading =>
      }
    }

    method ApplyCommand(c: Command, works: bool) returns (ok: bool)
      requires Valid()
      modifies this
      ensures Valid() && View() == Apply(old(View()), c, works)
      ensures ok <==> (Launching(old(View()), c) ==> works)
    {
      match c {
        case Start(id, url, p, e) =>
          Halt();
          sessionId := Some(id);
          profile := p;
          egress := e;
          history := [url];
          position := 0;
          assert history[..0] == [] && history[1..] == [];
          ok := Spawn(url, works);
        case Navigate(n) =>
          var next := Move(n);
          ok := true;
          if next.Some? {
            Halt();
            ok := Spawn(next.value, works);
          } else if n.StopLoading? {
            Halt();
          }
        case Stop =>
          Halt();
          ok := true;
      }
    }

    /** One request; a command cut off by the deadline is undone by starting over from the default. */
    method Handle(r: Request) returns (ok: bool)
      requires Valid()
      modifies this
      ensures Valid() && View() == Serve(old(View()), r)
      ensures ok <==> Succeeds(old(View()), r)
    {
      if r.Garbage? { return false; }
      var waits := child.Some? && match r.command
        case Start(_, _, _, _) => true
        case Navigate(n) => n.StopLoading? || Loads(Zip(history, position), n)
        case Stop => true;
      if waits && r.fate.late {
        Halt();
        child, sessionId, profile, egress := None, None, FullHd30, Direct;
        history, position := [], 0;
        return false;
      }
      ok := ApplyCommand(r.command, r.fate.launches);
    }
  }

  // ----- laws of the list

  function Turns(z: Zipper, ns: seq<Navigation>): Zipper
    decreases ns
  {
    if ns == [] then z else Turns(Turn(z, ns[0]), ns[1..])
  }

  function Repeat(n: Navigation, k: nat): (ns: seq<Navigation>)
    ensures |ns| == k
  {
    if k == 0 then [] else [n] + Repeat(n, k - 1)
  }

  lemma {:induction false} TurnsConcat(z: Zipper, a: seq<Navigation>, b: seq<Navigation>)
    ensures Turns(z, a + b) == Turns(Turns(z, a), b)
    decreases a
  {
    if a == [] {
      assert a + b == b;
    } else {
      assert (a + b)[1..] == a[1..] + b;
      TurnsConcat(Turn(z, a[0]), a[1..], b);
    }
  }

  lemma {:induction false} RepeatSnoc(n: Navigation, k: nat)
    ensures Repeat(n, k + 1) == Repeat(n, k) + [n]
  {
    if k > 0 { RepeatSnoc(n, k - 1); }
  }

  lemma BackForward(z: Zipper)
    ensures z.At? && z.behind != [] ==> Turn(Turn(z, Back), Forward) == z
    ensures z.At? && z.ahead != [] ==> Turn(Turn(z, Forward), Back) == z
  {
    if z.At? && z.behind != [] {
      assert z.behind == z.behind[..|z.behind| - 1] + [z.behind[|z.behind| - 1]];
      assert ([z.current] + z.ahead)[1..] == z.ahead;
    }
    if z.At? && z.ahead != [] {
      assert (z.behind + [z.current])[..|z.behind|] == z.behind;
      assert [z.ahead[0]] + z.ahead[1..] == z.ahead;
    }
  }

  /** Going back `k` pages and forward `k` pages ends where it began, for every `k` there is room for. */
  lemma {:induction false} BacksThenForwards(z: Zipper, k: nat)
    requires z.At? && k <= |z.behind|
    ensures Turns(z, Repeat(Back, k) + Repeat(Forward, k)) == z
    decreases k
  {
    TurnsConcat(z, Repeat(Back, k), Repeat(Forward, k));
    if k > 0 {
      var y := Turn(z, Back);
      BacksThenForwards(y, k - 1);
      TurnsConcat(y, Repeat(Back, k - 1), Repeat(Forward, k - 1));
      RepeatSnoc(Forward, k - 1);
      TurnsConcat(Turns(y, Repeat(Back, k - 1)), Repeat(Forward, k - 1), [Forward]);
      assert Turns(y, [Forward]) == Turn(y, Forward) by { assert [Forward][1..] == []; }
      BackForward(z);
    }
  }

  lemma {:induction false} ForwardsThenBacks(z: Zipper, k: nat)
    requires z.At? && k <= |z.ahead|
    ensures Turns(z, Repeat(Forward, k) + Repeat(Back, k)) == z
    decreases k
  {
    TurnsConcat(z, Repeat(Forward, k), Repeat(Back, k));
    if k > 0 {
      var y := Turn(z, Forward);
      ForwardsThenBacks(y, k - 1);
      TurnsConcat(y, Repeat(Forward, k - 1), Repeat(Back, k - 1));
      RepeatSnoc(Back, k - 1);
      TurnsConcat(Turns(y, Repeat(Forward, k - 1)), Repeat(Back, k - 1), [Back]);
      assert Turns(y, [Back]) == Turn(y, Back) by { assert [Back][1..] == []; }
      BackForward(z);
    }
  }

  /** The page reached by moves alone: each step is clamped to the ends of the list. */
  function Walk(position: int, last: int, ns: seq<Navigation>): int
    decreases ns
  {
    if ns == [] then position
    else if ns[0].Back? && position > 0 then Walk(position - 1, last, ns[1..])
    else if ns[0].Forward? && position < last then Walk(position + 1, last, ns[1..])
    else Walk(position, last, ns[1..])
  }

  /** Without a visit the list never changes, and the place in it is the clamped walk. */
  lemma {:induction false} MovesKeepPages(z: Zipper, ns: seq<Navigation>)
    requires z.At? && forall n | n in ns :: !n.Visit?
    ensures Turns(z, ns).At? && Pages(Turns(z, ns)) == Pages(z)
    ensures |Turns(z, ns).behind| == Walk(|z.behind|, |Pages(z)| - 1, ns)
    decreases ns
  {
    if ns != [] {
      var y := Turn(z, ns[0]);
      assert Pages(y) == Pages(z);
      MovesKeepPages(y, ns[1..]);
    }
  }

  /** A visit keeps exactly the pages up to the current one, and going back returns to it. */
  lemma VisitDropsForwardPart(z: Zipper, url: Url)
    ensures Pages(Turn(z, Visit(url))) == (if z.Blank? then [] else z.behind + [z.current]) + [url]
    ensures z.At? ==> Turn(Turn(z, Visit(url)), Back) == At(z.behind, z.current, [url])
  {
    if z.At? {
      assert (z.behind + [z.current])[..|z.behind|] == z.behind;
    }
  }

  // ----- whole runs

  /** A running browser shows the current page, with the profile and the egress on record. */
  predicate Coherent(b: Bridge) {
    b.child.Some? ==> b.pages.At? && b.child.value == Child(b.pages.current, b.profile, b.egress)
  }

  lemma {:induction false} RunsStayCoherent(b: Bridge, rs: seq<Request>)
    requires Coherent(b)
    ensures Coherent(ServeAll(b, rs))
  {
    if rs != [] { RunsStayCoherent(b, rs[..|rs| - 1]); }
  }

  /** The settings in force: those of the last start that the deadline did not cut off, or the defaults. */
  function Settings(rs: seq<Request>): (StreamProfile, EgressMode, Option<nat>) {
    if rs == [] then (FullHd30, Direct, None)
    else
      var r := rs[|rs| - 1];
      if r.Request? && CutOff(ServeAll(DEFAULT, rs[..|rs| - 1]), r.command, r.fate) then (FullHd30, Direct, None)
      else if r.Request? && r.command.Start? then (r.command.profile, r.command.egress, Some(r.command.sessionId))
      else Settings(rs[..|rs| - 1])
  }

  /** Every browser that any run of requests leaves running was launched with the settings in force. */
  lemma {:induction false} RunsUseLastStart(rs: seq<Request>)
    ensures var b := ServeAll(DEFAULT, rs);
      && (b.profile, b.egress, b.sessionId) == Settings(rs)
      && (b.child.Some? ==> b.pages.At? && b.child.value == Child(b.pages.current, Settings(rs).0, Settings(rs).1))
  {
    RunsStayCoherent(DEFAULT, rs);
    if rs != [] { RunsUseLastStart(rs[..|rs| - 1]); }
  }

  /** What the daemon relies on: a start or a stop that is answered leaves exactly what the answer says. */
  lemma StartAndStopAreExact(b: Bridge, r: Request)
    requires r.Request?
    ensures r.command.Start? ==>
      Serve(b, r).child == if Succeeds(b, r) then Some(Child(r.command.url, r.command.profile, r.command.egress))
          else None
    ensures r.command.Stop? ==> Serve(b, r).child == None
  {
  }

  /** After a deadline has cut a command off, a page can be loaded without a start, and then it is
      loaded under Direct. */
  lemma NavigationAfterDeadline(b: Bridge, c: Command, url: Url, launches: bool)
    requires Waits(b, c)
    ensures ServeAll(b, [Request(c, Fate(launches, true)), Request(Navigate(Visit(url)), Fate(true, false))]).child
         == Some(Child(url, FullHd30, Direct))
  {
    var first, second := Request(c, Fate(launches, true)), Request(Navigate(Visit(url)), Fate(true, false));
    assert [first, second][..1] == [first] && [first][..0] == [];
    assert ServeAll(b, [first]) == Serve(b, first);
  }
}
