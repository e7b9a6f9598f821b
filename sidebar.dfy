/**
 * The off-canvas navigation sidebar (sidebar.js).
 *
 * The sidebar is opened and closed by a toggle button, a close button, the
 * overlay, the Escape key and (on narrow screens) a click on a navigation
 * link. Opening and closing set four observable things together: the
 * sidebar's `open` class, the overlay's `visible` class, the toggle's
 * `aria-expanded` attribute and the body's `overflow` style. On scroll and
 * resize, throttled, the link whose target section was passed last is
 * highlighted with the `active` class.
 *
 * Host services are parameters: `Date.now()` is `now`, `window.scrollY`,
 * `window.innerHeight` and `window.innerWidth` are numbers, an element's
 * `offsetTop` is the function `offsetTop` of its id, and the document's
 * element ids are the set `ids`.
 */
module Sidebar {
  import opened Wrappers

  const OpenClass := "open"
  const VisibleClass := "visible"
  const ActiveClass := "active"
  const OverlayClass := "sidebar-overlay"
  const NarrowWidth: int := 900
  const ScrollWait: int := 120
  const ResizeWait: int := 200
  const DefaultWait: int := 100
  const EarlyHighlight: real := 0.18

  // ---------------------------------------------------------------------
  // Open and closed
  // ---------------------------------------------------------------------

  /** The four flags open and close manage: two class lists, aria-expanded, body overflow. */
  datatype Flags = Flags(sidebar: set<string>, overlay: set<string>, ariaExpanded: string, bodyOverflow: string)

  /** The toggle handler's test: `sidebar.classList.contains('open')`. */
  predicate IsOpen(f: Flags)
  {
    OpenClass in f.sidebar
  }

  /** The other three flags agree with the sidebar's `open` class. */
  predicate Coherent(f: Flags)
  {
    (VisibleClass in f.overlay <==> IsOpen(f))
    && f.ariaExpanded == (if IsOpen(f) then "true" else "false")
    && f.bodyOverflow == (if IsOpen(f) then "hidden" else "")
  }

  /** No class other than `open` and `visible` changed. */
  predicate SameOtherClasses(f: Flags, g: Flags)
  {
    f.sidebar - {OpenClass} == g.sidebar - {OpenClass}
    && f.overlay - {VisibleClass} == g.overlay - {VisibleClass}
  }

  /** openSidebar. */
  function Open(f: Flags): (g: Flags)
    ensures IsOpen(g) && Coherent(g) && SameOtherClasses(f, g)
  {
    Flags(f.sidebar + {OpenClass}, f.overlay + {VisibleClass}, "true", "hidden")
  }

  /** closeSidebar. */
  function Close(f: Flags): (g: Flags)
    ensures !IsOpen(g) && Coherent(g) && SameOtherClasses(f, g)
  {
    Flags(f.sidebar - {OpenClass}, f.overlay - {VisibleClass}, "false", "")
  }

  /** The toggle button's click handler. */
  function Toggle(f: Flags): (g: Flags)
    ensures IsOpen(g) != IsOpen(f) && Coherent(g) && SameOtherClasses(f, g)
  {
    if IsOpen(f) then Close(f) else Open(f)
  }

  /** The keydown handler: only Escape, and only while open, closes. */
  function Escape(f: Flags, key: string): (g: Flags)
    ensures key == "Escape" && IsOpen(f) ==> !IsOpen(g) && Coherent(g) && SameOtherClasses(f, g)
    ensures !(key == "Escape" && IsOpen(f)) ==> g == f
  {
    if key == "Escape" && IsOpen(f) then Close(f) else f
  }

  /** A navigation link's click handler, as far as the flags go. */
  function NavClick(f: Flags, innerWidth: int): (g: Flags)
    ensures innerWidth < NarrowWidth ==> !IsOpen(g) && Coherent(g) && SameOtherClasses(f, g)
    ensures innerWidth >= NarrowWidth ==> g == f
  {
    if innerWidth < NarrowWidth then Close(f) else f
  }

  /** A toggle always flips the open state and leaves the flags coherent. */
  lemma ToggleFlips(f: Flags)
    ensures IsOpen(Toggle(f)) == !IsOpen(f)
    ensures Coherent(Toggle(f)) && SameOtherClasses(f, Toggle(f))
  {
  }

  /** From a coherent state, two toggles give back exactly the state they started from. */
  lemma ToggleTwice(f: Flags)
    requires Coherent(f)
    ensures Toggle(Toggle(f)) == f
  {
    if IsOpen(f) {
      assert Close(f).sidebar + {OpenClass} == f.sidebar;
      assert Close(f).overlay + {VisibleClass} == f.overlay;
    } else {
      assert Open(f).sidebar - {OpenClass} == f.sidebar;
      assert Open(f).overlay - {VisibleClass} == f.overlay;
    }
  }

  lemma CloseIdempotent(f: Flags)
    ensures Close(Close(f)) == Close(f)
  {
    assert Close(f).sidebar - {OpenClass} == Close(f).sidebar;
    assert Close(f).overlay - {VisibleClass} == Close(f).overlay;
  }

  /** Escape while closed changes nothing; Escape while open closes. */
  lemma EscapeCloses(f: Flags, key: string)
    ensures key == "Escape" ==> !IsOpen(Escape(f, key))
    ensures key != "Escape" || !IsOpen(f) ==> Escape(f, key) == f
    ensures key == "Escape" && IsOpen(f) ==> Escape(f, key) == Close(f)
  {
  }

  /** On a coherent state the "only while open" guard of Escape makes no difference. */
  lemma EscapeOnCoherent(f: Flags)
    requires Coherent(f)
    ensures Escape(f, "Escape") == Close(f)
  {
    if !IsOpen(f) {
      assert Close(f).sidebar == f.sidebar;
      assert Close(f).overlay == f.overlay;
    }
  }

  /** Below 900 pixels a nav click always leaves the sidebar closed; otherwise untouched. */
  lemma NavClickNarrow(f: Flags, innerWidth: int)
    ensures innerWidth < NarrowWidth ==> !IsOpen(NavClick(f, innerWidth)) && Coherent(NavClick(f, innerWidth))
    ensures innerWidth >= NarrowWidth ==> NavClick(f, innerWidth) == f
  {
  }

  // ---------------------------------------------------------------------
  // Link targets and sections
  // ---------------------------------------------------------------------

  /** `href.slice(1)`: the href without its first character ("" stays ""). */
  function TargetId(href: string): (id: string)
    ensures |href| == 0 ==> id == ""
    ensures |href| > 0 ==> href == [href[0]] + id
  {
    if |href| == 0 then "" else href[1..]
  }

  /** A fragment link `#id` targets `id`. */
  lemma FragmentTarget(id: string)
    ensures TargetId("#" + id) == id
  {
  }

  /** `document.getElementById(id)` finds an element: the id is in use (never the empty id). */
  predicate Exists(id: string, ids: set<string>)
  {
    id != "" && id in ids
  }

  /** The `sections` list: each link's target element, in link order, missing ones dropped. */
  function Sections(hrefs: seq<string>, ids: set<string>): (secs: seq<string>)
    ensures |secs| <= |hrefs|
    ensures forall s :: s in secs ==> Exists(s, ids)
    ensures forall s :: s in secs ==> exists i :: 0 <= i < |hrefs| && s == TargetId(hrefs[i])
    ensures forall i :: 0 <= i < |hrefs| && Exists(TargetId(hrefs[i]), ids) ==> TargetId(hrefs[i]) in secs
    decreases |hrefs|
  {
    if hrefs == [] then []
    else
      var id := TargetId(hrefs[0]);
      (if Exists(id, ids) then [id] else []) + Sections(hrefs[1..], ids)
  }

  /** Order: one more link appends its target, if it exists, after all earlier ones. */
  lemma {:induction false} SectionsAppend(hrefs: seq<string>, href: string, ids: set<string>)
    ensures Sections(hrefs + [href], ids)
         == Sections(hrefs, ids) + (if Exists(TargetId(href), ids) then [TargetId(href)] else [])
    decreases |hrefs|
  {
    if hrefs != [] {
      assert (hrefs + [href])[1..] == hrefs[1..] + [href];
      SectionsAppend(hrefs[1..], href, ids);
    }
  }

  // ---------------------------------------------------------------------
  // Active-section selection
  // ---------------------------------------------------------------------

  /** Section `i` has been scrolled to: its top is at or above the scroll position. */
  predicate Reached(sections: seq<string>, offsetTop: string -> real, pos: real, i: int)
    requires 0 <= i < |sections|
  {
    offsetTop(sections[i]) <= pos
  }

  /**
   * `current` is the id of the last section, in list order, that has been reached,
   * or None when none has.
   */
  ghost predicate IsCurrent(sections: seq<string>, offsetTop: string -> real, pos: real, current: Option<string>)
  {
    (current.None? <==> forall i :: 0 <= i < |sections| ==> !Reached(sections, offsetTop, pos, i))
    && (current.Some? ==>
          exists i :: 0 <= i < |sections| && Reached(sections, offsetTop, pos, i)
                      && sections[i] == current.value
                      && forall j :: i < j < |sections| ==> !Reached(sections, offsetTop, pos, j))
  }

  /** The first loop of onScroll. */
  method CurrentSection(sections: seq<string>, offsetTop: string -> real, pos: real)
    returns (current: Option<string>)
    ensures IsCurrent(sections, offsetTop, pos, current)
  {
    current := None;
    ghost var last := 0;
    for n := 0 to |sections|
      invariant current.None? <==> forall i :: 0 <= i < n ==> !Reached(sections, offsetTop, pos, i)
      invariant current.Some? ==>
        0 <= last < n && Reached(sections, offsetTop, pos, last) && sections[last] == current.value
        && forall j :: last < j < n ==> !Reached(sections, offsetTop, pos, j)
    {
      if offsetTop(sections[n]) <= pos {
        assert Reached(sections, offsetTop, pos, n);
        current := Some(sections[n]);
        last := n;
      } else {
        assert current.Some? ==> Reached(sections, offsetTop, pos, last);
      }
    }
  }

  /** A navigation link: its href and its class list. */
  datatype Link = Link(href: string, classes: set<string>)

  function Hrefs(links: seq<Link>): (hrefs: seq<string>)
    ensures |hrefs| == |links|
    ensures forall i :: 0 <= i < |links| ==> hrefs[i] == links[i].href
  {
    seq(|links|, i requires 0 <= i < |links| => links[i].href)
  }

  /**
   * The second loop of onScroll: a link is active exactly when it targets `current`
   * (none is when `current` is None); hrefs and all other classes are untouched.
   */
  ghost predicate Highlighted(before: seq<Link>, after: seq<Link>, current: Option<string>)
  {
    |after| == |before|
    && forall i :: 0 <= i < |after| ==>
         after[i].href == before[i].href
         && (ActiveClass in after[i].classes <==> current == Some(TargetId(before[i].href)))
         && after[i].classes - {ActiveClass} == before[i].classes - {ActiveClass}
  }

  /** The second loop of onScroll over the link list: toggle `active` on each link in turn. */
  method Highlight(before: seq<Link>, current: Option<string>) returns (after: seq<Link>)
    ensures Highlighted(before, after, current)
  {
    after := before;
    for i := 0 to |after|
      invariant |after| == |before|
      invariant forall k :: 0 <= k < |after| ==> after[k].href == before[k].href
      invariant forall k :: 0 <= k < i ==>
        (ActiveClass in after[k].classes <==> current == Some(TargetId(after[k].href)))
        && after[k].classes - {ActiveClass} == before[k].classes - {ActiveClass}
      invariant forall k :: i <= k < |after| ==> after[k] == before[k]
    {
      var link := after[i];
      if current == Some(TargetId(link.href)) {
        link := link.(classes := link.classes + {ActiveClass});
      } else {
        link := link.(classes := link.classes - {ActiveClass});
      }
      after := after[i := link];
    }
  }

  // ---------------------------------------------------------------------
  // Throttle
  // ---------------------------------------------------------------------

  /** Forwarded calls are at least `wait` apart, the first at least `wait` after time 0. */
  predicate Spaced(log: seq<int>, wait: int)
  {
    (|log| > 0 ==> log[0] >= wait)
    && forall i :: 0 < i < |log| ==> log[i] - log[i - 1] >= wait
  }

  /** With a non-negative wait, ANY two forwarded calls are at least `wait` apart. */
  lemma {:induction false} SpacedPairwise(log: seq<int>, wait: int)
    requires wait >= 0 && Spaced(log, wait)
    ensures forall i, j :: 0 <= i < j < |log| ==> log[j] - log[i] >= wait
    decreases |log|
  {
    if |log| > 1 {
      var front := log[..|log| - 1];
      assert Spaced(front, wait) by {
        forall i | 0 < i < |front| ensures front[i] - front[i - 1] >= wait {
          assert front[i] == log[i] && front[i - 1] == log[i - 1];
        }
      }
      SpacedPairwise(front, wait);
      forall i, j | 0 <= i < j < |log| ensures log[j] - log[i] >= wait {
        if j < |log| - 1 {
          assert log[j] - log[i] == front[j] - front[i];
        } else if i < j - 1 {
          assert log[j - 1] - log[i] == front[j - 1] - front[i];
        }
      }
    }
  }

  /** The closure `throttle(fn, wait)` returns: it holds `last`; `passed` logs the calls let through. */
  class Throttle {
    const wait: int
    var last: int
    ghost var passed: seq<int>

    ghost predicate Valid()
      reads this
    {
      last == (if passed == [] then 0 else passed[|passed| - 1]) && Spaced(passed, wait)
    }

    constructor (wait: int := DefaultWait)
      ensures Valid() && this.wait == wait && last == 0 && passed == []
    {
      this.wait := wait;
      last := 0;
      passed := [];
    }

    /** One call of the wrapper at time `now`: `forwarded` says whether `fn` runs. */
    method Call(now: int) returns (forwarded: bool)
      requires Valid()
      modifies this
      ensures Valid()
      ensures forwarded <==> now - old(last) >= wait
      ensures last == (if forwarded then now else old(last))
      ensures passed == (if forwarded then old(passed) + [now] else old(passed))
    {
      forwarded := false;
      if now - last >= wait {
        last := now;
        passed := passed + [now];
        forwarded := true;
      }
    }
  }

  // ---------------------------------------------------------------------
  // The page
  // ---------------------------------------------------------------------

  class Navigation {
    var sidebarClasses: set<string>
    var overlayClasses: set<string>
    var ariaExpanded: string
    var bodyOverflow: string
    var links: seq<Link>
    const ids: set<string>
    const sections: seq<string>
    const scrollGate: Throttle
    const resizeGate: Throttle

    function State(): Flags
      reads this
    {
      Flags(sidebarClasses, overlayClasses, ariaExpanded, bodyOverflow)
    }

    ghost predicate Valid()
      reads this, scrollGate, resizeGate
    {
      sections == Sections(Hrefs(links), ids)
      && scrollGate != resizeGate
      && scrollGate.Valid() && scrollGate.wait == ScrollWait
      && resizeGate.Valid() && resizeGate.wait == ResizeWait
    }

    /** The script's start-up: overlay created, sections collected, throttles built, first highlight. */
    constructor (sidebarClasses: set<string>, ariaExpanded: string, bodyOverflow: string,
                 links: seq<Link>, ids: set<string>,
                 scrollY: real, innerHeight: real, offsetTop: string -> real)
      ensures Valid()
      ensures State() == Flags(sidebarClasses, {OverlayClass}, ariaExpanded, bodyOverflow)
      ensures sections == Sections(Hrefs(links), ids) && this.ids == ids
      ensures fresh(scrollGate) && fresh(resizeGate)
      ensures scrollGate.last == 0 && scrollGate.passed == [] && resizeGate.last == 0 && resizeGate.passed == []
      ensures exists current :: IsCurrent(sections, offsetTop, scrollY + innerHeight * EarlyHighlight, current)
                                && Highlighted(links, this.links, current)
    {
      this.sidebarClasses := sidebarClasses;
      this.overlayClasses := {OverlayClass};
      this.ariaExpanded := ariaExpanded;
      this.bodyOverflow := bodyOverflow;
      this.links := links;
      this.ids := ids;
      this.sections := Sections(Hrefs(links), ids);
      scrollGate := new Throttle(ScrollWait);
      resizeGate := new Throttle(ResizeWait);
      new;
      var current := OnScroll(scrollY, innerHeight, offsetTop);
    }

    method OpenSidebar()
      modifies this`sidebarClasses, this`overlayClasses, this`ariaExpanded, this`bodyOverflow
      ensures State() == Open(old(State()))
    {
      sidebarClasses := sidebarClasses + {OpenClass};
      overlayClasses := overlayClasses + {VisibleClass};
      ariaExpanded := "true";
      bodyOverflow := "hidden";
    }

    /** closeSidebar; the close button and the overlay call it directly. */
    method CloseSidebar()
      modifies this`sidebarClasses, this`overlayClasses, this`ariaExpanded, this`bodyOverflow
      ensures State() == Close(old(State()))
    {
      sidebarClasses := sidebarClasses - {OpenClass};
      overlayClasses := overlayClasses - {VisibleClass};
      ariaExpanded := "false";
      bodyOverflow := "";
    }

    method OnToggleClick()
      modifies this`sidebarClasses, this`overlayClasses, this`ariaExpanded, this`bodyOverflow
      ensures State() == Toggle(old(State()))
    {
      if OpenClass in sidebarClasses {
        CloseSidebar();
      } else {
        OpenSidebar();
      }
    }

    method OnKeydown(key: string)
      modifies this`sidebarClasses, this`overlayClasses, this`ariaExpanded, this`bodyOverflow
      ensures State() == Escape(old(State()), key)
    {
      if key == "Escape" && OpenClass in sidebarClasses {
        CloseSidebar();
      }
    }

    /** A click on link `i`: its target id, whether that target exists to scroll to, and the flags. */
    method OnNavClick(i: nat, innerWidth: int) returns (targetId: string, scrolls: bool)
      requires i < |links|
      modifies this`sidebarClasses, this`overlayClasses, this`ariaExpanded, this`bodyOverflow
      ensures targetId == TargetId(links[i].href)
      ensures scrolls == Exists(targetId, ids)
      ensures State() == NavClick(old(State()), innerWidth)
    {
      targetId := TargetId(links[i].href);
      scrolls := Exists(targetId, ids);
      if innerWidth < NarrowWidth {
        CloseSidebar();
      }
    }

    /** onScroll: pick the current section, then mark exactly the links that target it. */
    method OnScroll(scrollY: real, innerHeight: real, offsetTop: string -> real)
      returns (current: Option<string>)
      requires sections == Sections(Hrefs(links), ids)
      modifies this`links
      ensures sections == Sections(Hrefs(links), ids)
      ensures IsCurrent(sections, offsetTop, scrollY + innerHeight * EarlyHighlight, current)
      ensures Highlighted(old(links), links, current)
    {
      var scrollPos := scrollY + innerHeight * EarlyHighlight;
      current := CurrentSection(sections, offsetTop, scrollPos);
      links := Highlight(links, current);
      assert Hrefs(links) == Hrefs(old(links));
    }

    /** The scroll listener: onScroll behind a 120 ms throttle. */
    method OnScrollEvent(now: int, scrollY: real, innerHeight: real, offsetTop: string -> real)
      returns (ran: bool, current: Option<string>)
      requires Valid()
      modifies this`links, scrollGate
      ensures Valid()
      ensures ran <==> now - old(scrollGate.last) >= ScrollWait
      ensures scrollGate.last == (if ran then now else old(scrollGate.last))
      ensures scrollGate.passed == (if ran then old(scrollGate.passed) + [now] else old(scrollGate.passed))
      ensures !ran ==> links == old(links)
      ensures ran ==> IsCurrent(sections, offsetTop, scrollY + innerHeight * EarlyHighlight, current)
                      && Highlighted(old(links), links, current)
    {
      current := None;
      ran := scrollGate.Call(now);
      if ran {
        current := OnScroll(scrollY, innerHeight, offsetTop);
      }
    }

    /** Two scroll events less than 120 ms apart: at most the first one runs onScroll. */
    method ScrollBurst(now1: int, now2: int, scrollY: real, innerHeight: real, offsetTop: string -> real)
      returns (ran1: bool, ran2: bool)
      requires Valid()
      requires now2 < now1 + ScrollWait
      modifies this`links, scrollGate
      ensures Valid()
      ensures ran1 ==> !ran2
    {
      var current;
      ran1, current := OnScrollEvent(now1, scrollY, innerHeight, offsetTop);
      ran2, current := OnScrollEvent(now2, scrollY, innerHeight, offsetTop);
    }

    /** The resize listener: onScroll behind a 200 ms throttle of its own. */
    method OnResizeEvent(now: int, scrollY: real, innerHeight: real, offsetTop: string -> real)
      returns (ran: bool, current: Option<string>)
      requires Valid()
      modifies this`links, resizeGate
      ensures Valid()
      ensures ran <==> now - old(resizeGate.last) >= ResizeWait
      ensures resizeGate.last == (if ran then now else old(resizeGate.last))
      ensures resizeGate.passed == (if ran then old(resizeGate.passed) + [now] else old(resizeGate.passed))
      ensures !ran ==> links == old(links)
      ensures ran ==> IsCurrent(sections, offsetTop, scrollY + innerHeight * EarlyHighlight, current)
                      && Highlighted(old(links), links, current)
    {
      current := None;
      ran := resizeGate.Call(now);
      if ran {
        current := OnScroll(scrollY, innerHeight, offsetTop);
      }
    }
  }
}
