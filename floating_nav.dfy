/**
 * The floating navigation bar (components/floating-nav.tsx). Scrolling up shows the bar and
 * restarts a single hide timer; the timer hides it. On every scroll the active section becomes
 * the first section, in navigation order, whose box spans the line 200 pixels below the top of
 * the viewport.
 *
 * The DOM is given to each scroll event as a map from element id to its bounding box (an id
 * with no element is absent); positions are whole pixels. The pending hide timer is kept as its
 * due time, and each event that starts it is given the current time `now`.
 */
module FloatingNavComponent {
  import opened Wrappers

  /** Delay of the hide timer, in milliseconds. */
  const HideDelay: int := 5000

  /** The line, in pixels from the top of the viewport, that selects the active section. */
  const ActivationLine: int := 200

  /** The `href` of each navigation item, in order. */
  const NavHrefs: seq<string> := ["#home", "#about", "#projects", "#skills", "#contact"]

  /** The vertical extent of an element as `getBoundingClientRect` reports it. */
  datatype Rect = Rect(top: int, bottom: int)

  /** `href.substring(1)`: the href without its first character (`""` stays `""`). */
  function SectionId(href: string): (id: string)
    ensures |href| > 0 ==> [href[0]] + id == href
    ensures |href| == 0 ==> id == ""
  {
    if |href| == 0 then "" else href[1..]
  }

  /** `navItems.map((item) => item.href.substring(1))` */
  function SectionIds(): (ids: seq<string>)
    ensures |ids| == |NavHrefs|
    ensures forall k | 0 <= k < |ids| :: ids[k] == SectionId(NavHrefs[k])
  {
    seq(|NavHrefs|, k requires 0 <= k < |NavHrefs| => SectionId(NavHrefs[k]))
  }

  /** The ids of the sections, spelled out. */
  lemma SectionIdsValue()
    ensures SectionIds() == ["home", "about", "projects", "skills", "contact"]
  {
    var ids := SectionIds();
    assert ids[0] == "home" && ids[1] == "about" && ids[2] == "projects" && ids[3] == "skills" && ids[4] == "contact";
  }

  /** The element with id `id` exists and its box reaches the activation line from both sides. */
  predicate Hit(dom: map<string, Rect>, id: string)
    ensures Hit(dom, id) <==> id in dom && dom[id].top <= ActivationLine <= dom[id].bottom
  {
    id in dom && dom[id].top <= ActivationLine && dom[id].bottom >= ActivationLine
  }

  /** The position of the first id in `ids` that is hit, or `|ids|` when none is. */
  function FirstHit(ids: seq<string>, dom: map<string, Rect>): (k: nat)
    ensures k <= |ids|
    ensures forall j | 0 <= j < k :: !Hit(dom, ids[j])
    ensures k < |ids| ==> Hit(dom, ids[k])
  {
    if ids == [] then 0
    else if Hit(dom, ids[0]) then 0
    else 1 + FirstHit(ids[1..], dom)
  }

  /** The section the scan selects: the first hit, or `None` when no section is hit. */
  function ActiveAmong(ids: seq<string>, dom: map<string, Rect>): Option<string>
  {
    var k := FirstHit(ids, dom);
    if k < |ids| then Some(ids[k]) else None
  }

  /** The `for ... of sections` loop of `handleScroll`: missing elements are skipped and the
      loop stops at the first section that spans the activation line. */
  method ScanSections(ids: seq<string>, dom: map<string, Rect>) returns (found: Option<string>)
    ensures found == ActiveAmong(ids, dom)
    ensures found.Some? ==> found.value in ids && Hit(dom, found.value)
  {
    found := None;
    var i := 0;
    while i < |ids|
      invariant 0 <= i <= |ids|
      invariant forall j | 0 <= j < i :: !Hit(dom, ids[j])
    {
      var section := ids[i];
      if section in dom {
        var rect := dom[section];
        if rect.top <= ActivationLine && rect.bottom >= ActivationLine {
          found := Some(section);
          break;
        }
      }
      i := i + 1;
    }
  }

  /** `activeSection === item.href.substring(1)`: an item is active when its href is one
      character followed by the active section (or both are empty). */
  predicate IsActive(activeSection: string, href: string)
    ensures IsActive(activeSection, href) <==>
              (|href| > 0 && href == [href[0]] + activeSection) || (href == "" && activeSection == "")
  {
    activeSection == SectionId(href)
  }

  /** The hrefs differ after their first character, so at most one item is active whatever
      the active section is, and exactly one when it is one of the sections. */
  lemma OneActiveItem(activeSection: string)
    ensures forall i, j | 0 <= i < |NavHrefs| && 0 <= j < |NavHrefs| ::
              IsActive(activeSection, NavHrefs[i]) && IsActive(activeSection, NavHrefs[j]) ==> i == j
    ensures (exists i | 0 <= i < |NavHrefs| :: IsActive(activeSection, NavHrefs[i])) <==> activeSection in SectionIds()
  {
    SectionIdsValue();
  }

  /** One mounted navigation bar. */
  class FloatingNav {
    var activeSection: string
    var isVisible: bool
    var lastScrollY: int
    /** The due time of the pending hide timer, if one is pending. */
    var hideTimer: Option<int>
    /** Whether the scroll listener is registered (between mount and unmount). */
    var listening: bool

    ghost predicate Valid()
      reads this
    {
      activeSection in SectionIds()
    }

    /** Mounting at time `now`: "home" is active, the bar is shown and the hide timer starts. */
    constructor Mount(now: int)
      ensures Valid()
      ensures activeSection == "home" && isVisible && lastScrollY == 0
      ensures hideTimer == Some(now + HideDelay) && listening
    {
      SectionIdsValue();
      activeSection := "home";
      lastScrollY := 0;
      isVisible := true;
      hideTimer := Some(now + HideDelay);
      listening := true;
    }

    /** `resetTimer`: any pending hide timer is cleared before a new one is set, so exactly one
        is pending afterwards. Clicking a navigation item runs this too. */
    method ResetTimer(now: int)
      requires Valid()
      modifies this
      ensures Valid() && hideTimer == Some(now + HideDelay)
      ensures activeSection == old(activeSection) && isVisible == old(isVisible)
      ensures lastScrollY == old(lastScrollY) && listening == old(listening)
    {
      hideTimer := Some(now + HideDelay);
    }

    /** The pending hide timer runs out and hides the bar. */
    method FireHideTimer() returns (due: int)
      requires Valid() && hideTimer.Some?
      modifies this
      ensures Valid() && !isVisible && hideTimer == None && due == old(hideTimer).value
      ensures activeSection == old(activeSection) && lastScrollY == old(lastScrollY) && listening == old(listening)
    {
      due := hideTimer.value;
      isVisible := false;
      hideTimer := None;
    }

    /** `handleScroll` at time `now`, with the page scrolled to `scrollY` and the sections laid
        out as `dom`. */
    method HandleScroll(scrollY: int, dom: map<string, Rect>, now: int)
      requires Valid() && listening
      modifies this
      ensures Valid() && listening
      ensures lastScrollY == scrollY
      ensures scrollY < old(lastScrollY) ==> isVisible && hideTimer == Some(now + HideDelay)
      ensures scrollY >= old(lastScrollY) ==> isVisible == old(isVisible) && hideTimer == old(hideTimer)
      ensures activeSection == ActiveAmong(SectionIds(), dom).GetOr(old(activeSection))
    {
      if scrollY < lastScrollY {
        isVisible := true;
        ResetTimer(now);
      }
      lastScrollY := scrollY;
      var found := ScanSections(SectionIds(), dom);
      if found.Some? {
        activeSection := found.value;
      }
    }

    /** Unmounting removes the scroll listener and clears the pending hide timer. */
    method Unmount()
      requires Valid()
      modifies this
      ensures Valid() && !listening && hideTimer == None
      ensures activeSection == old(activeSection) && isVisible == old(isVisible) && lastScrollY == old(lastScrollY)
    {
      listening := false;
      hideTimer := None;
    }
  }
}
