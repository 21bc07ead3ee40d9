/**
 * The mobile menu controller: opens and closes the slide-out panel, keeps
 * the trigger button's `aria-expanded`, `aria-label` and `active` class in
 * step with it, and locks body scrolling while the panel is open. The one
 * source of truth is whether the panel's class set holds "open". Absent
 * handles are `null`; a DOM call that throws is caught and turned into a
 * `false` result or a closed snapshot, never propagated.
 */
module Menu {
  import opened Dom

  /** The two entries of `ARIA_LABELS`. */
  const OpenLabel: string := "メニューを開く"
  const CloseLabel: string := "メニューを閉じる"

  /** The label the trigger carries when the panel is (to be) open or closed. */
  function AriaLabel(isOpen: bool): (r: string)
    ensures r == CloseLabel <==> isOpen
    ensures r == OpenLabel <==> !isOpen
  {
    if isOpen then CloseLabel else OpenLabel
  }

  /** `String(b)` for a boolean. */
  function BoolText(b: bool): (r: string)
    ensures r == "true" <==> b
    ensures r == "false" <==> !b
  {
    if b then "true" else "false"
  }

  /** The value `setBodyScroll` assigns to `document.body.style.overflow`. */
  function OverflowFor(disabled: bool): (r: string)
    ensures r == "hidden" <==> disabled
    ensures r == "" <==> !disabled
  {
    if disabled then "hidden" else ""
  }

  /** The trigger's attributes after both `setAttribute` calls of `updateButtonAria`. */
  function AriaAttributes(attributes: map<string, string>, isOpen: bool): (r: map<string, string>)
    ensures r.Keys == attributes.Keys + {"aria-expanded", "aria-label"}
    ensures r["aria-expanded"] == BoolText(isOpen)
    ensures r["aria-label"] == AriaLabel(isOpen)
    ensures forall k :: k in attributes && k != "aria-expanded" && k != "aria-label" ==> r[k] == attributes[k]
  {
    attributes["aria-expanded" := BoolText(isOpen)]["aria-label" := AriaLabel(isOpen)]
  }

  /** The objects behind a handle that may be absent. */
  function Present(handle: Element?): (r: set<Element>)
    ensures handle == null ==> r == {}
    ensures handle != null ==> r == {handle}
  {
    if handle == null then {} else {handle}
  }

  /** The snapshot returned by `toggleMenu` and `getMenuState`. */
  datatype MenuState = MenuState(isOpen: bool, button: Element?, menu: Element?)

  /** Everything the controller can change, for a distinct trigger and panel. */
  datatype MenuView = MenuView(panel: set<string>, button: set<string>, attributes: map<string, string>, overflow: string)
  {
    predicate IsOpen() { "open" in panel }
  }

  function View(button: Element, menu: Element, body: Body): MenuView
    reads button, menu, body
  {
    MenuView(menu.classes, button.classes, button.attributes, body.overflow)
  }

  /** No DOM call on these three objects throws. */
  predicate WellBehaved(button: Element, menu: Element, body: Body)
    reads button, menu, body
  {
    !button.classListThrows && !button.setAttributeThrows
    && !menu.classListThrows && !menu.containsThrows
    && !body.styleThrows
  }

  /** The trigger mirrors the panel: `active` class, `aria-expanded`,
      `aria-label` and the body scroll lock all agree with `IsOpen()`. */
  predicate Consistent(v: MenuView) {
    ("active" in v.button <==> v.IsOpen())
    && "aria-expanded" in v.attributes && v.attributes["aria-expanded"] == BoolText(v.IsOpen())
    && "aria-label" in v.attributes && v.attributes["aria-label"] == AriaLabel(v.IsOpen())
    && v.overflow == OverflowFor(v.IsOpen())
  }

  /** What a successful `openMenu` does. */
  function Opened(v: MenuView): (r: MenuView)
    ensures r.IsOpen() && r.overflow == "hidden"
    ensures forall c :: c != "open" ==> (c in r.panel <==> c in v.panel)
    ensures r.button == v.button && r.attributes == v.attributes
  {
    v.(panel := WithClass(v.panel, "open", true), overflow := OverflowFor(true))
  }

  /** What a successful `closeMenu` does. */
  function Closed(v: MenuView): (r: MenuView)
    ensures !r.IsOpen() && r.overflow == ""
    ensures forall c :: c != "open" ==> (c in r.panel <==> c in v.panel)
    ensures r.button == v.button && r.attributes == v.attributes
  {
    v.(panel := WithClass(v.panel, "open", false), overflow := OverflowFor(false))
  }

  /** What a successful `updateButtonAria(button, isOpen)` does. */
  function Synced(v: MenuView, isOpen: bool): (r: MenuView)
    ensures r.panel == v.panel && r.overflow == v.overflow
    ensures "active" in r.button <==> isOpen
    ensures forall c :: c != "active" ==> (c in r.button <==> c in v.button)
    ensures r.attributes == AriaAttributes(v.attributes, isOpen)
  {
    v.(button := WithClass(v.button, "active", isOpen), attributes := AriaAttributes(v.attributes, isOpen))
  }

  /** What a `toggleMenu` in which nothing throws does. Whatever the trigger
      showed before, afterwards it agrees with the flipped panel. */
  function Toggled(v: MenuView): (r: MenuView)
    ensures r.IsOpen() == !v.IsOpen()
    ensures Consistent(r)
    ensures forall c :: c != "open" ==> (c in r.panel <==> c in v.panel)
    ensures forall c :: c != "active" ==> (c in r.button <==> c in v.button)
    ensures forall k :: k in v.attributes && k != "aria-expanded" && k != "aria-label" ==> k in r.attributes && r.attributes[k] == v.attributes[k]
  {
    if v.IsOpen() then Synced(Closed(v), false) else Synced(Opened(v), true)
  }

  /** `n` successive toggles. */
  function Toggles(v: MenuView, n: nat): MenuView
  {
    if n == 0 then v else Toggled(Toggles(v, n - 1))
  }

  /** A sequence of `openMenu` (true) and `closeMenu` (false) calls. */
  function OpenCloseAll(v: MenuView, calls: seq<bool>): MenuView
    decreases calls
  {
    if calls == [] then v else OpenCloseAll(if calls[0] then Opened(v) else Closed(v), calls[1..])
  }

  /** A second `openMenu` or `closeMenu` leaves the state of the first. */
  lemma OpenCloseIdempotent(v: MenuView)
    ensures Opened(Opened(v)) == Opened(v)
    ensures Closed(Closed(v)) == Closed(v)
  {
    WithClassLastWins(v.panel, "open", true, true);
    WithClassLastWins(v.panel, "open", false, false);
  }

  /** After any sequence of open and close calls the panel is open iff the
      last call was an open, the scroll lock agrees, and no other class of
      the panel has changed. */
  lemma {:induction false} OpenCloseFollowsLastCall(v: MenuView, calls: seq<bool>)
    ensures OpenCloseAll(v, calls).IsOpen() == if calls == [] then v.IsOpen() else calls[|calls| - 1]
    ensures calls != [] ==> OpenCloseAll(v, calls).overflow == OverflowFor(calls[|calls| - 1])
    ensures forall c :: c != "open" ==> (c in OpenCloseAll(v, calls).panel <==> c in v.panel)
    ensures OpenCloseAll(v, calls).button == v.button && OpenCloseAll(v, calls).attributes == v.attributes
    decreases calls
  {
    if calls != [] {
      var next := if calls[0] then Opened(v) else Closed(v);
      OpenCloseFollowsLastCall(next, calls[1..]);
      if |calls| > 1 {
        assert calls[1..][|calls[1..]| - 1] == calls[|calls| - 1];
      }
    }
  }

  /** `n` toggles flip the panel `n` times and touch no other class. */
  lemma {:induction false} TogglesParity(v: MenuView, n: nat)
    ensures Toggles(v, n).IsOpen() == (v.IsOpen() != (n % 2 == 1))
    ensures forall c :: c != "open" ==> (c in Toggles(v, n).panel <==> c in v.panel)
    ensures forall c :: c != "active" ==> (c in Toggles(v, n).button <==> c in v.button)
  {
    if n > 0 {
      TogglesParity(v, n - 1);
    }
  }

  /** From a closed panel, `n > 0` toggles leave it open iff `n` is odd,
      with the trigger and the scroll lock in agreement. */
  lemma {:induction false} RapidToggles(v: MenuView, n: nat)
    requires !v.IsOpen() && n > 0
    ensures Toggles(v, n).IsOpen() <==> n % 2 == 1
    ensures Consistent(Toggles(v, n))
    ensures Toggles(v, n).attributes["aria-expanded"] == if n % 2 == 1 then "true" else "false"
  {
    TogglesParity(v, n);
  }

  /** `setBodyScroll`: a throwing assignment is swallowed. */
  method SetBodyScroll(body: Body, disabled: bool)
    modifies body`overflow
    ensures body.overflow == if body.styleThrows then old(body.overflow) else OverflowFor(disabled)
  {
    var threw := body.SetOverflow(OverflowFor(disabled));
  }

  /** `updateButtonAria`: the three DOM calls run in order and the first
      one that throws ends the update; the throw is swallowed. */
  method UpdateButtonAria(button: Element, isOpen: bool)
    modifies button`attributes, button`classes
    ensures button.attributes == if button.setAttributeThrows then old(button.attributes) else AriaAttributes(old(button.attributes), isOpen)
    ensures button.classes == if button.setAttributeThrows || button.classListThrows then old(button.classes) else WithClass(old(button.classes), "active", isOpen)
  {
    var threw := button.SetAttribute("aria-expanded", BoolText(isOpen));
    if !threw {
      threw := button.SetAttribute("aria-label", AriaLabel(isOpen));
      if !threw {
        threw := button.ClassListToggle("active", isOpen);
      }
    }
  }

  /** `openMenu`: `false` for an absent panel or a throwing `classList.add`;
      a failing scroll lock does not change the result. */
  method OpenMenu(menu: Element?, body: Body) returns (ok: bool)
    modifies Present(menu)`classes, body`overflow
    ensures menu == null ==> !ok
    ensures menu != null ==> ok == !menu.classListThrows
    ensures menu != null ==> menu.classes == if ok then WithClass(old(menu.classes), "open", true) else old(menu.classes)
    ensures body.overflow == if ok && !body.styleThrows then OverflowFor(true) else old(body.overflow)
    ensures menu != null && ok && !body.styleThrows ==>
      var v := Opened(MenuView(old(menu.classes), {}, map[], old(body.overflow)));
      menu.classes == v.panel && body.overflow == v.overflow
  {
    if menu == null {
      return false;
    }
    var threw := menu.ClassListAdd("open");
    if threw {
      return false;
    }
    SetBodyScroll(body, true);
    return true;
  }

  /** `closeMenu`: the mirror image of `openMenu`. */
  method CloseMenu(menu: Element?, body: Body) returns (ok: bool)
    modifies Present(menu)`classes, body`overflow
    ensures menu == null ==> !ok
    ensures menu != null ==> ok == !menu.classListThrows
    ensures menu != null ==> menu.classes == if ok then WithClass(old(menu.classes), "open", false) else old(menu.classes)
    ensures body.overflow == if ok && !body.styleThrows then OverflowFor(false) else old(body.overflow)
    ensures menu != null && ok && !body.styleThrows ==>
      var v := Closed(MenuView(old(menu.classes), {}, map[], old(body.overflow)));
      menu.classes == v.panel && body.overflow == v.overflow
  {
    if menu == null {
      return false;
    }
    var threw := menu.ClassListRemove("open");
    if threw {
      return false;
    }
    SetBodyScroll(body, false);
    return true;
  }

  /** `toggleMenu`. With a handle absent, or when reading the panel's marker
      throws, it returns the closed snapshot and changes nothing. Otherwise
      it flips the marker, syncs the trigger, and reports the target state
      even if one of those mutations threw (they are swallowed). */
  method ToggleMenu(button: Element?, menu: Element?, body: Body) returns (state: MenuState)
    modifies Present(button)`attributes, Present(button)`classes, Present(menu)`classes, body`overflow
    ensures state.button == button && state.menu == menu
    ensures button == null || menu == null || menu.containsThrows ==>
      && !state.isOpen
      && body.overflow == old(body.overflow)
      && (menu != null ==> menu.classes == old(menu.classes))
      && (button != null ==> button.classes == old(button.classes) && button.attributes == old(button.attributes))
    ensures button != null && menu != null && !menu.containsThrows ==>
      && state.isOpen == !old("open" in menu.classes)
      && body.overflow == (if menu.classListThrows || body.styleThrows then old(body.overflow) else OverflowFor(state.isOpen))
      && button.attributes == (if button.setAttributeThrows then old(button.attributes) else AriaAttributes(old(button.attributes), state.isOpen))
    ensures button != null && menu != null && !menu.containsThrows && button != menu ==>
      && menu.classes == (if menu.classListThrows then old(menu.classes) else WithClass(old(menu.classes), "open", state.isOpen))
      && menu.attributes == old(menu.attributes)
      && button.classes == (if button.setAttributeThrows || button.classListThrows then old(button.classes)
                            else WithClass(old(button.classes), "active", state.isOpen))
    ensures button != null && button == menu && !menu.containsThrows ==>
      button.classes == (if button.classListThrows then old(button.classes)
                         else if button.setAttributeThrows then WithClass(old(button.classes), "open", state.isOpen)
                         else WithClass(WithClass(old(button.classes), "open", state.isOpen), "active", state.isOpen))
    ensures button != null && menu != null && button != menu && WellBehaved(button, menu, body) ==>
      View(button, menu, body) == Toggled(old(View(button, menu, body)))
  {
    if button == null || menu == null {
      return MenuState(false, button, menu);
    }
    var threw, wasOpen := menu.ClassListContains("open");
    if threw {
      return MenuState(false, button, menu);
    }
    var target := !wasOpen;
    var changed;
    if target {
      changed := OpenMenu(menu, body);
    } else {
      changed := CloseMenu(menu, body);
    }
    UpdateButtonAria(button, target);
    state := MenuState(target, button, menu);
  }

  /** `isMenuOpen`: a pure read; `false` for an absent panel or a throwing read. */
  method IsMenuOpen(menu: Element?) returns (isOpen: bool)
    ensures isOpen <==> menu != null && !menu.containsThrows && "open" in menu.classes
  {
    if menu == null {
      return false;
    }
    var threw, present := menu.ClassListContains("open");
    isOpen := !threw && present;
  }

  /** `getMenuState`: the panel's current marker and both handles, unchanged. */
  method GetMenuState(button: Element?, menu: Element?) returns (state: MenuState)
    ensures state.button == button && state.menu == menu
    ensures state.isOpen <==> menu != null && !menu.containsThrows && "open" in menu.classes
  {
    var isOpen := IsMenuOpen(menu);
    state := MenuState(isOpen, button, menu);
  }

  /** Two `openMenu` calls in a row: the second reports what the first did
      and leaves exactly the state the first produced. */
  method OpenMenuTwice(menu: Element, body: Body) returns (first: bool, second: bool)
    modifies menu`classes, body`overflow
    ensures first == second && first == !menu.classListThrows
    ensures menu.classes == if first then WithClass(old(menu.classes), "open", true) else old(menu.classes)
    ensures body.overflow == if first && !body.styleThrows then OverflowFor(true) else old(body.overflow)
  {
    first := OpenMenu(menu, body);
    WithClassLastWins(old(menu.classes), "open", true, true);
    second := OpenMenu(menu, body);
  }

  /** Two `closeMenu` calls in a row, likewise. */
  method CloseMenuTwice(menu: Element, body: Body) returns (first: bool, second: bool)
    modifies menu`classes, body`overflow
    ensures first == second && first == !menu.classListThrows
    ensures menu.classes == if first then WithClass(old(menu.classes), "open", false) else old(menu.classes)
    ensures body.overflow == if first && !body.styleThrows then OverflowFor(false) else old(body.overflow)
  {
    first := CloseMenu(menu, body);
    WithClassLastWins(old(menu.classes), "open", false, false);
    second := CloseMenu(menu, body);
  }

  /** The lifecycle the unit tests walk through: a closed panel with class
      "mobile-menu", toggled open and then closed again. */
  method ToggleLifecycle() returns (first: MenuState, second: MenuState)
    ensures first.isOpen && !second.isOpen
    ensures first.button == second.button && first.menu == second.menu
  {
    var button := new Element({}, map["aria-expanded" := "false", "aria-label" := OpenLabel]);
    var menu := new Element({"mobile-menu"}, map[]);
    var body := new Body("");
    first := ToggleMenu(button, menu, body);
    assert first.isOpen && menu.classes == {"mobile-menu", "open"} && body.overflow == "hidden";
    assert "active" in button.classes;
    assert button.attributes["aria-expanded"] == "true" && button.attributes["aria-label"] == CloseLabel;
    second := ToggleMenu(button, menu, body);
    assert !second.isOpen && menu.classes == {"mobile-menu"} && body.overflow == "";
    assert "active" !in button.classes;
    assert button.attributes["aria-expanded"] == "false" && button.attributes["aria-label"] == OpenLabel;
  }
}
