/** The page header's sidebar (src/components/page/Header/Header.tsx): the
    `sidebarActive` state and the `lastToggleTime` ref, changed only
    through the debounced `setSidebar`. The clock (`Date.now()`) arrives as
    the `now` argument of every call, in milliseconds. */
module Header {

  /** `sidebarDebounce`: calls closer than this to the last accepted one are
      dropped. */
  const SIDEBAR_DEBOUNCE: int := 500

  /** Consecutive times more than the debounce apart. */
  ghost predicate Spaced(times: seq<int>) {
    forall i :: 0 < i < |times| ==> times[i] - times[i - 1] > SIDEBAR_DEBOUNCE
  }

  /** Any two accepted calls, not only neighbours, are separated by more
      than the debounce for every call accepted in between. */
  lemma {:induction false} SpacedApart(times: seq<int>, i: int, j: int)
    requires Spaced(times) && 0 <= i < j < |times|
    ensures times[j] - times[i] > SIDEBAR_DEBOUNCE * (j - i)
    decreases j - i
  {
    if j > i + 1 {
      SpacedApart(times, i, j - 1);
    }
  }

  class Header {
    var sidebarActive: bool
    var lastToggleTime: int
    /** The times of the calls `setSidebar` accepted, oldest first. */
    ghost var toggles: seq<int>

    /** The ref holds the time of the last accepted call (0 before any), and
        accepted calls are spaced by more than the debounce, the first one
        included, since it is measured from 0. */
    ghost predicate Valid()
      reads this
    {
      && (toggles == [] ==> lastToggleTime == 0)
      && (toggles != [] ==> lastToggleTime == toggles[|toggles| - 1] && toggles[0] > SIDEBAR_DEBOUNCE)
      && Spaced(toggles)
    }

    /** The sidebar starts closed, with `lastToggleTime` 0. */
    constructor ()
      ensures Valid()
      ensures !sidebarActive && lastToggleTime == 0 && toggles == []
    {
      sidebarActive := false;
      lastToggleTime := 0;
      toggles := [];
    }

    /** `setSidebar(state)`: accepted only strictly more than the debounce
        after the last accepted call; a dropped call changes nothing. */
    method SetSidebar(state: bool, now: int)
      requires Valid()
      modifies this
      ensures Valid()
      ensures now - old(lastToggleTime) > SIDEBAR_DEBOUNCE ==>
                sidebarActive == state && lastToggleTime == now && toggles == old(toggles) + [now]
      ensures now - old(lastToggleTime) <= SIDEBAR_DEBOUNCE ==>
                sidebarActive == old(sidebarActive) && lastToggleTime == old(lastToggleTime) && toggles == old(toggles)
    {
      if now - lastToggleTime > SIDEBAR_DEBOUNCE {
        sidebarActive := state;
        lastToggleTime := now;
        toggles := toggles + [now];
      }
    }

    /** The outside-click handler: it asks to close, and only when the
        sidebar is open; it never opens it. */
    method OutsideClick(now: int)
      requires Valid()
      modifies this
      ensures Valid()
      ensures !old(sidebarActive) ==> sidebarActive == old(sidebarActive) && lastToggleTime == old(lastToggleTime) && toggles == old(toggles)
      ensures old(sidebarActive) && now - old(lastToggleTime) > SIDEBAR_DEBOUNCE ==>
                !sidebarActive && lastToggleTime == now && toggles == old(toggles) + [now]
      ensures old(sidebarActive) && now - old(lastToggleTime) <= SIDEBAR_DEBOUNCE ==>
                sidebarActive && lastToggleTime == old(lastToggleTime) && toggles == old(toggles)
    {
      if sidebarActive {
        SetSidebar(false, now);
      }
    }

    /** A navigation link asks to close the sidebar. */
    method NavLinkClick(now: int)
      requires Valid()
      modifies this
      ensures Valid()
      ensures now - old(lastToggleTime) > SIDEBAR_DEBOUNCE ==>
                !sidebarActive && lastToggleTime == now && toggles == old(toggles) + [now]
      ensures now - old(lastToggleTime) <= SIDEBAR_DEBOUNCE ==>
                sidebarActive == old(sidebarActive) && lastToggleTime == old(lastToggleTime) && toggles == old(toggles)
    {
      SetSidebar(false, now);
    }

    /** The menu button asks for the opposite of the current state. */
    method MenuButtonClick(now: int)
      requires Valid()
      modifies this
      ensures Valid()
      ensures now - old(lastToggleTime) > SIDEBAR_DEBOUNCE ==>
                sidebarActive == !old(sidebarActive) && lastToggleTime == now && toggles == old(toggles) + [now]
      ensures now - old(lastToggleTime) <= SIDEBAR_DEBOUNCE ==>
                sidebarActive == old(sidebarActive) && lastToggleTime == old(lastToggleTime) && toggles == old(toggles)
    {
      SetSidebar(!sidebarActive, now);
    }
  }
}
