/**
 * The upstream trackers behind VPNHotspot's "upstreams" preference: one tracker
 * follows the primary upstream, one the fallback upstream, and the preference's
 * summary shows both labels side by side.
 */
module Upstreams {

  datatype Option<+T> = None | Some(value: T)

  /* ---------------------------------------------------------------------
   * Route classification
   * ------------------------------------------------------------------- */

  /** What `RouteInfo.matches(probe)` does for one route, where the probe is
      the fixed address 8.8.8.8: it answers, or it throws a runtime fault.
      Matching itself is done by the platform's route table, so a route is
      modelled by what matching it against the probe yields. */
  datatype MatchOutcome = Match | NoMatch | Fault

  /** The per-route predicate with the fault caught: a route whose matcher
      throws counts as not matching. */
  function MatchesOrFalse(o: MatchOutcome): (b: bool)
    ensures b <==> o == Match
  {
    match o
    case Match => true
    case NoMatch => false
    case Fault => false
  }

  /** `routes.any { try matches catch false }`: true exactly when some route
      matches the probe without faulting; a fault never escapes. */
  function HasInternetRoute(routes: seq<MatchOutcome>): (r: bool)
    ensures r <==> exists i :: 0 <= i < |routes| && routes[i] == Match
    ensures routes == [] ==> !r
  {
    if routes == [] then false
    else MatchesOrFalse(routes[0]) || HasInternetRoute(routes[1..])
  }

  /** A route that does not match the probe, whether it answered "no match"
      or faulted, does not affect the result: the other routes decide. */
  lemma {:induction false} NonMatchingRouteIsIgnored(before: seq<MatchOutcome>, o: MatchOutcome, after: seq<MatchOutcome>)
    requires o != Match
    ensures HasInternetRoute(before + [o] + after) == HasInternetRoute(before + after)
  {
    var withRoute := before + [o] + after;
    var without := before + after;
    if HasInternetRoute(withRoute) {
      var i :| 0 <= i < |withRoute| && withRoute[i] == Match;
      var j := if i < |before| then i else i - 1;
      assert without[j] == Match;
    }
    if HasInternetRoute(without) {
      var j :| 0 <= j < |without| && without[j] == Match;
      var i := if j < |before| then j else j + 1;
      assert withRoute[i] == Match;
    }
  }

  /** A faulting route is skipped exactly as if it had answered "no match":
      the fault is caught and the remaining routes still decide. */
  lemma {:induction false} FaultingRouteIsSkipped(before: seq<MatchOutcome>, after: seq<MatchOutcome>)
    ensures HasInternetRoute(before + [Fault] + after) == HasInternetRoute(before + [NoMatch] + after)
    ensures HasInternetRoute(before + [Fault] + after) == HasInternetRoute(before + after)
  {
    NonMatchingRouteIsIgnored(before, Fault, after);
    NonMatchingRouteIsIgnored(before, NoMatch, after);
  }

  /* ---------------------------------------------------------------------
   * Interface state and its label
   * ------------------------------------------------------------------- */

  /** The interface a tracker last heard about; `internet` defaults to true. */
  datatype Interface = Interface(ifname: string, internet: bool := true)

  /** The name the fallback tracker shows when the system falls back to the
      default network. */
  const DefaultIfname := "<default>"

  /** The label shown when no interface is up: U+2205 EMPTY SET. */
  const EmptySetGlyph := "\U{2205}"

  /** A label is its characters plus the bold emphasis the display adds. */
  datatype Label = Label(text: string, bold: bool)

  /** The tracker's label as a function of its state: the empty-set glyph when
      absent, otherwise the interface name, bold exactly when it has internet.
      Emphasis never changes the characters. */
  function LabelOf(state: Option<Interface>): (l: Label)
    ensures state == None ==> l == Label(EmptySetGlyph, false)
    ensures state != None ==> l.text == state.value.ifname
    ensures state != None ==> (l.bold <==> state.value.internet)
  {
    match state
    case None => Label(EmptySetGlyph, false)
    case Some(i) =>
      if i.internet then Label(i.ifname, true) else Label(i.ifname, false)
  }

  /** The label loses nothing about a present interface: two present states
      show the same label only when they are the same state, and a present
      state looks absent only for an interface literally named after the
      empty-set glyph and without internet. */
  lemma LabelDeterminesPresentState(a: Interface, b: Interface)
    ensures LabelOf(Some(a)) == LabelOf(Some(b)) <==> a == b
    ensures LabelOf(Some(a)) == LabelOf(None) <==> a == Interface(EmptySetGlyph, false)
  {
  }

  /* ---------------------------------------------------------------------
   * Tracker events
   * ------------------------------------------------------------------- */

  /** The callbacks a tracker receives from its upstream monitor. */
  datatype Event =
    | Available(ifname: string, routes: seq<MatchOutcome>)
    | Lost
    | FallbackActivated

  datatype Kind = Primary | Fallback

  /** The state every event installs. No event looks at the state before it:
      each one replaces the held interface wholesale. */
  function StateAfter(e: Event): (s: Option<Interface>)
    ensures s == None <==> e == Lost
    ensures e.Available? ==> s != None && s.value.ifname == e.ifname
    ensures e.Available? ==> (s.value.internet <==> exists i :: 0 <= i < |e.routes| && e.routes[i] == Match)
    ensures e == FallbackActivated ==> s == Some(Interface("<default>", true))
  {
    match e
    case Available(ifname, routes) => Some(Interface(ifname, HasInternetRoute(routes)))
    case Lost => None
    case FallbackActivated => Some(Interface(DefaultIfname))
  }

  /** The state after delivering `events`, in order, to a tracker in `start`. */
  function Replay(start: Option<Interface>, events: seq<Event>): (r: Option<Interface>)
    ensures events == [] ==> r == start
    ensures events != [] ==> exists k :: 0 <= k < |events| && r == StateAfter(events[k])
    decreases |events|
  {
    if events == [] then start else Replay(StateAfter(events[0]), events[1..])
  }

  /** Last write wins: after a non-empty run of events the state is the one
      the last event installs. */
  lemma {:induction false} ReplayLastEventWins(start: Option<Interface>, events: seq<Event>)
    requires events != []
    ensures Replay(start, events) == StateAfter(events[|events| - 1])
    decreases |events|
  {
    if |events| > 1 {
      ReplayLastEventWins(StateAfter(events[0]), events[1..]);
    }
  }

  /** Hence a non-empty run of events forgets where the tracker started. */
  lemma {:induction false} ReplayForgetsStart(s: Option<Interface>, t: Option<Interface>, events: seq<Event>)
    requires events != []
    ensures Replay(s, events) == Replay(t, events)
    ensures LabelOf(Replay(s, events)) == LabelOf(Replay(t, events))
  {
    ReplayLastEventWins(s, events);
    ReplayLastEventWins(t, events);
  }

  /** Appending one event to a history gives the state that event installs. */
  lemma {:induction false} ReplayAppend(start: Option<Interface>, events: seq<Event>, e: Event)
    ensures Replay(start, events + [e]) == StateAfter(e)
  {
    ReplayLastEventWins(start, events + [e]);
  }

  /* ---------------------------------------------------------------------
   * Summary
   * ------------------------------------------------------------------- */

  /** The summary template filled in its fixed order: primary, then fallback. */
  datatype Summary = Summary(primary: Label, fallback: Label)

  function Summarize(primary: Option<Interface>, fallback: Option<Interface>): (s: Summary)
    ensures s.primary.text == (if primary == None then EmptySetGlyph else primary.value.ifname)
    ensures s.primary.bold <==> primary != None && primary.value.internet
    ensures s.fallback.text == (if fallback == None then EmptySetGlyph else fallback.value.ifname)
    ensures s.fallback.bold <==> fallback != None && fallback.value.internet
  {
    Summary(LabelOf(primary), LabelOf(fallback))
  }

  /** The summary depends only on the last event each tracker received: what
      came earlier on either side, and where the trackers started, is lost. */
  lemma {:induction false} SummaryFollowsLastEvents(
    p0: Option<Interface>, primaryEvents: seq<Event>,
    f0: Option<Interface>, fallbackEvents: seq<Event>)
    requires primaryEvents != [] && fallbackEvents != []
    ensures Summarize(Replay(p0, primaryEvents), Replay(f0, fallbackEvents)).primary
         == LabelOf(StateAfter(primaryEvents[|primaryEvents| - 1]))
    ensures Summarize(Replay(p0, primaryEvents), Replay(f0, fallbackEvents)).fallback
         == LabelOf(StateAfter(fallbackEvents[|fallbackEvents| - 1]))
  {
    ReplayLastEventWins(p0, primaryEvents);
    ReplayLastEventWins(f0, fallbackEvents);
  }

  /* ---------------------------------------------------------------------
   * The trackers
   * ------------------------------------------------------------------- */

  /** One upstream tracker. `history` is the sequence of callbacks it has
      received and `updates` the number of times it has asked the preference
      to refresh its summary. */
  class Monitor {
    const kind: Kind
    var currentInterface: Option<Interface>
    ghost var history: seq<Event>
    ghost var updates: nat

    ghost predicate Valid()
      reads this
    {
      && currentInterface == Replay(None, history)
      && updates == |history|
      && (kind == Primary ==> forall k :: 0 <= k < |history| ==> !history[k].FallbackActivated?)
    }

    constructor (kind: Kind)
      ensures Valid() && this.kind == kind
      ensures currentInterface == None && history == [] && updates == 0
    {
      this.kind := kind;
      currentInterface := None;
      history := [];
      updates := 0;
    }

    /** The upstream came up: record its name and whether its routes reach
        the probe, then ask for one refresh. */
    method OnAvailable(ifname: string, routes: seq<MatchOutcome>)
      requires Valid()
      modifies this
      ensures Valid()
      ensures currentInterface == Some(Interface(ifname, HasInternetRoute(routes)))
      ensures currentInterface.value.internet <==> exists i :: 0 <= i < |routes| && routes[i] == Match
      ensures history == old(history) + [Available(ifname, routes)]
      ensures updates == old(updates) + 1
    {
      currentInterface := Some(Interface(ifname, HasInternetRoute(routes)));
      ReplayAppend(None, history, Available(ifname, routes));
      history := history + [Available(ifname, routes)];
      updates := updates + 1;
    }

    /** The upstream went away: forget it, whatever was held, then ask for
        one refresh. */
    method OnLost()
      requires Valid()
      modifies this
      ensures Valid()
      ensures currentInterface == None
      ensures history == old(history) + [Lost]
      ensures updates == old(updates) + 1
    {
      currentInterface := None;
      ReplayAppend(None, history, Lost);
      history := history + [Lost];
      updates := updates + 1;
    }

    /** Only the fallback tracker handles this: the system fell back to the
        default network, which is assumed to have internet. */
    method OnFallback()
      requires Valid() && kind == Fallback
      modifies this
      ensures Valid()
      ensures currentInterface == Some(Interface(DefaultIfname, true))
      ensures history == old(history) + [FallbackActivated]
      ensures updates == old(updates) + 1
    {
      currentInterface := Some(Interface(DefaultIfname));
      ReplayAppend(None, history, FallbackActivated);
      history := history + [FallbackActivated];
      updates := updates + 1;
    }
  }

  /* ---------------------------------------------------------------------
   * The preference
   * ------------------------------------------------------------------- */

  /** Owns the two trackers and the summary it shows; `summary` stays unset
      until the first refresh. */
  class UpstreamsPreference {
    const primary: Monitor
    const fallback: Monitor
    var summary: Option<Summary>

    ghost predicate Valid()
      reads this, primary, fallback
    {
      && primary != fallback
      && primary.kind == Primary && primary.Valid()
      && fallback.kind == Fallback && fallback.Valid()
    }

    constructor ()
      ensures Valid() && fresh(primary) && fresh(fallback)
      ensures primary.currentInterface == None && fallback.currentInterface == None
      ensures primary.history == [] && primary.updates == 0
      ensures fallback.history == [] && fallback.updates == 0
      ensures summary == None
    {
      primary := new Monitor(Primary);
      fallback := new Monitor(Fallback);
      summary := None;
    }

    /** The job `onUpdate` schedules: fill the template with the primary
        label, then the fallback label. It reads the trackers and changes
        nothing else, so running it again with no event in between leaves
        the summary as it is. */
    method Refresh()
      requires Valid()
      modifies this`summary
      ensures Valid()
      ensures summary == Some(Summarize(primary.currentInterface, fallback.currentInterface))
      ensures old(summary) == Some(Summarize(primary.currentInterface, fallback.currentInterface)) ==> summary == old(summary)
      ensures primary.history != [] && fallback.history != [] ==>
        summary == Some(Summary(LabelOf(StateAfter(primary.history[|primary.history| - 1])),
                                LabelOf(StateAfter(fallback.history[|fallback.history| - 1]))))
    {
      summary := Some(Summarize(primary.currentInterface, fallback.currentInterface));
      if primary.history != [] && fallback.history != [] {
        SummaryFollowsLastEvents(None, primary.history, None, fallback.history);
      }
    }
  }
}
