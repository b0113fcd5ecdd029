/** Each command to the bridge, stated over the list of pages and the place in it. */
module BrowserLaws {
  import opened Types
  import opened BrowserHistory

  /** The index of the current page. */
  function Place(z: Zipper): nat {
    if z.Blank? then 0 else |z.behind|
  }

  /** A navigation leads to a page. */
  predicate Leads(z: Zipper, n: Navigation) {
    match n
    case Visit(_) => true
    case Back => Place(z) > 0
    case Forward => Place(z) + 1 < |Pages(z)|
    case Reload => Pages(z) != []
    case StopLoading => false
  }

  /** The page a navigation leads to. */
  function Target(z: Zipper, n: Navigation): Url
    requires Leads(z, n)
  {
    match n
    case Visit(url) => url
    case Back => Pages(z)[Place(z) - 1]
    case Forward => Pages(z)[Place(z) + 1]
    case Reload => Pages(z)[Place(z)]
  }

  predicate SameSettings(b: Bridge, v: Bridge) {
    v.profile == b.profile && v.egress == b.egress && v.sessionId == b.sessionId
  }

  lemma TurnsTo(z: Zipper, n: Navigation)
    ensures Loads(z, n) <==> Leads(z, n)
    ensures Leads(z, n) ==> Turn(z, n).At? && Turn(z, n).current == Target(z, n)
  {
  }

  lemma PlaceAfter(z: Zipper, n: Navigation)
    requires Leads(z, n)
    ensures var y, pages, place := Turn(z, n), Pages(z), Place(z);
            match n
            case Visit(url) =>
              Pages(y) == (if pages == [] then [] else pages[..place + 1]) + [url] && Place(y) == |Pages(y)| - 1
            case Back => Pages(y) == pages && Place(y) == place - 1
            case Forward => Pages(y) == pages && Place(y) == place + 1
            case _ => y == z
  {
    match n {
      case Visit(_) => if z.At? { assert Pages(z)[..Place(z) + 1] == z.behind + [z.current]; }
      case Back => BackKeepsPages(z);
      case Forward => ForwardKeepsPages(z);
      case _ =>
    }
  }

  lemma BackKeepsPages(z: Zipper)
    requires z.At? && z.behind != []
    ensures Pages(Turn(z, Back)) == Pages(z)
  {
    var n := |z.behind| - 1;
    assert z.behind == z.behind[..n] + [z.behind[n]];
    assert z.behind[..n] + [z.behind[n]] + ([z.current] + z.ahead) == z.behind + [z.current] + z.ahead;
  }

  lemma ForwardKeepsPages(z: Zipper)
    requires z.At? && z.ahead != []
    ensures Pages(Turn(z, Forward)) == Pages(z)
  {
    assert z.ahead == [z.ahead[0]] + z.ahead[1..];
    assert z.behind + [z.current] + ([z.ahead[0]] + z.ahead[1..])
        == z.behind + [z.current] + [z.ahead[0]] + z.ahead[1..];
  }

  /** A navigation shows the page it leads to, under the settings on record, or leaves no process if the
      launch fails.  A visit drops the pages after the current one; back, forward and reload keep them
      all.  One that leads nowhere changes nothing, and a stop of loading ends the process only. */
  lemma NavigationExact(b: Bridge, n: Navigation, works: bool)
    ensures var v, pages, place := Apply(b, Navigate(n), works), Pages(b.pages), Place(b.pages);
            if Leads(b.pages, n) then
              && v.child == (if works then Some(Child(Target(b.pages, n), b.profile, b.egress)) else None)
              && SameSettings(b, v)
              && (match n
                  case Visit(url) =>
                    && Pages(v.pages) == (if pages == [] then [] else pages[..place + 1]) + [url]
                    && Place(v.pages) == |Pages(v.pages)| - 1
                  case Back => Pages(v.pages) == pages && Place(v.pages) == place - 1
                  case Forward => Pages(v.pages) == pages && Place(v.pages) == place + 1
                  case _ => v.pages == b.pages)
            else if n.StopLoading? then v.child.None? && v.pages == b.pages && SameSettings(b, v)
            else v == b
  {
    hide Turn, Loads, Leads, Target, Pages, Place;
    TurnsTo(b.pages, n);
    if Leads(b.pages, n) { PlaceAfter(b.pages, n); } else { NoVisit(b.pages, n); }
  }

  lemma NoVisit(z: Zipper, n: Navigation)
    requires !Leads(z, n)
    ensures !n.Visit?
  {
  }

  /** A start begins a list of one page with its own settings; a stop keeps list and settings. */
  lemma StartAndStopKeepBooks(b: Bridge, id: nat, url: Url, profile: StreamProfile, egress: EgressMode, works: bool)
    ensures var v := Apply(b, Start(id, url, profile, egress), works);
            && Pages(v.pages) == [url] && v.sessionId == Some(id) && v.profile == profile && v.egress == egress
            && v.child == (if works then Some(Child(url, profile, egress)) else None)
    ensures var v := Apply(b, Stop, works);
            v.child.None? && v.pages == b.pages && SameSettings(b, v)
  {
  }

  /** The command has a running process to stop before it can go on. */
  predicate MustStop(b: Bridge, c: Command) {
    b.child.Some? && (c.Navigate? ==> Leads(b.pages, c.navigation) || c.navigation.StopLoading?)
  }

  /** A request is answered with an error exactly for a line that is no command, a process that outlives
      the deadline, or a launch that fails; the deadline alone makes the bridge start over, with nothing
      running, no page, and Direct. */
  lemma AnswersExact(b: Bridge, r: Request)
    ensures var v := Serve(b, r);
            if r.Garbage? then !Succeeds(b, r) && v == b
            else if MustStop(b, r.command) && r.fate.late then
              && !Succeeds(b, r) && v.child.None? && v.pages == Blank
              && v.sessionId.None? && v.profile == FullHd30 && v.egress == Direct
            else
              && v == Apply(b, r.command, r.fate.launches)
              && (Succeeds(b, r) <==>
                    r.fate.launches || r.command.Stop?
                    || (r.command.Navigate? && !Leads(b.pages, r.command.navigation)))
  {
    hide Loads, Leads, Apply;
    if r.Request? && r.command.Navigate? { TurnsTo(b.pages, r.command.navigation); }
    if r.Request? && r.command.Navigate? && r.command.navigation.StopLoading? { NoPage(b.pages); }
  }

  lemma NoPage(z: Zipper)
    ensures !Leads(z, StopLoading)
  {
  }
}
