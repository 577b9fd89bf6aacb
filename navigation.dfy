/** The navigation bar (src/components/Navigation.tsx): which section is
    highlighted after a scroll, and the mobile menu's open/closed state.

    The document is an input: `sections` maps the id of every section element
    that exists to its offset box; an id that is not a key has no element. */
module Navigation {

  /** The ids of the navigation items, in display order. */
  const NavItems: seq<string> :=
    ["hero", "about", "journey", "skills", "coding-profiles", "projects", "contact"]

  /** The probe sits this far below the top of the viewport. */
  const ProbeOffset: int := 120

  /** A section element's `offsetTop` and `offsetHeight`. */
  datatype SectionBox = SectionBox(offsetTop: int, offsetHeight: int)

  /** The element for `items[k]` exists and its box contains `pos`
      (top inclusive, bottom exclusive). */
  predicate Hit(items: seq<string>, sections: map<string, SectionBox>, pos: int, k: nat)
    requires k < |items|
  {
    items[k] in sections
    && sections[items[k]].offsetTop <= pos < sections[items[k]].offsetTop + sections[items[k]].offsetHeight
  }

  /** The index of the first item whose section contains `pos`, or `|items|`
      when there is none. */
  function FirstHit(items: seq<string>, sections: map<string, SectionBox>, pos: int): (k: nat)
    ensures k <= |items|
    ensures k < |items| ==> Hit(items, sections, pos, k)
    ensures forall j :: 0 <= j < k && j < |items| ==> !Hit(items, sections, pos, j)
    decreases |items|
  {
    if items == [] then 0
    else if Hit(items, sections, pos, 0) then 0
    else
      var k := FirstHit(items[1..], sections, pos);
      assert forall j :: 1 <= j <= k && j < |items| ==> Hit(items, sections, pos, j) == Hit(items[1..], sections, pos, j - 1);
      1 + k
  }

  /** The section highlighted when the probe is at `pos`, given the one
      highlighted before: the first hit, or the previous one when nothing hits. */
  function ActiveAt(previous: string, pos: int, sections: map<string, SectionBox>): string
  {
    var k := FirstHit(NavItems, sections, pos);
    if k < |NavItems| then NavItems[k] else previous
  }

  /** The section highlighted after a scroll to `scrollY`. */
  function ActiveAfterScroll(previous: string, scrollY: int, sections: map<string, SectionBox>): string
  {
    ActiveAt(previous, scrollY + ProbeOffset, sections)
  }

  /** The highlight changes iff some section contains the probe, and then to
      the first such item in display order, whose element exists; an item
      without an element never becomes the highlight. */
  lemma {:induction false} ActiveAtSpec(previous: string, pos: int, sections: map<string, SectionBox>)
    ensures (forall k :: 0 <= k < |NavItems| ==> !Hit(NavItems, sections, pos, k))
            ==> ActiveAt(previous, pos, sections) == previous
    ensures forall k :: 0 <= k < |NavItems| && Hit(NavItems, sections, pos, k) ==>
              (exists j :: 0 <= j <= k && Hit(NavItems, sections, pos, j)
                 && ActiveAt(previous, pos, sections) == NavItems[j]
                 && (forall i :: 0 <= i < j ==> !Hit(NavItems, sections, pos, i)))
    ensures ActiveAt(previous, pos, sections) == previous
            || (ActiveAt(previous, pos, sections) in NavItems && ActiveAt(previous, pos, sections) in sections)
  {
    var k := FirstHit(NavItems, sections, pos);
    if k < |NavItems| {
      assert Hit(NavItems, sections, pos, k);
    }
  }

  /** The component's state. */
  class NavigationState {
    var active: string
    var isOpen: bool

    constructor ()
      ensures active == "hero" && !isOpen
    {
      active := "hero";
      isOpen := false;
    }

    /** The scroll listener: walk the items in order and highlight the first
      whose section contains the probe; missing elements are skipped. */
    method OnScroll(scrollY: int, sections: map<string, SectionBox>)
      modifies this
      ensures active == ActiveAfterScroll(old(active), scrollY, sections)
      ensures isOpen == old(isOpen)
    {
      var pos := scrollY + ProbeOffset;
      var i := 0;
      while i < |NavItems|
        invariant 0 <= i <= |NavItems|
        invariant forall j :: 0 <= j < i ==> !Hit(NavItems, sections, pos, j)
        invariant active == old(active) && isOpen == old(isOpen)
      {
        var id := NavItems[i];
        if id in sections {
          var top := sections[id].offsetTop;
          var bottom := top + sections[id].offsetHeight;
          if pos >= top && pos < bottom {
            active := id;
            assert Hit(NavItems, sections, pos, i);
            return;
          }
        }
        i := i + 1;
      }
    }

    /** A click on an item: scrolling to it is left to the browser; the menu is
      closed whether or not the element exists. */
    method HandleClick(id: string, elementExists: bool)
      modifies this
      ensures !isOpen && active == old(active)
    {
      isOpen := false;
    }

    /** The hamburger button. */
    method ToggleMenu()
      modifies this
      ensures isOpen == !old(isOpen) && active == old(active)
    {
      isOpen := !isOpen;
    }

    /** A click on the overlay behind the open menu. */
    method CloseOverlay()
      modifies this
      ensures !isOpen && active == old(active)
    {
      isOpen := false;
    }
  }
}
