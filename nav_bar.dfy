/**
 * ymt/aatral-tv/js/navBar.js: the Aatral TV page's side menu. Up and Down move a clamped
 * index, Right shows the menu and Left hides it, a single three-second timer hides it again
 * after activity, and Enter follows the selected item's label to a page. The menu element
 * and its items are taken to exist; the hide timer is a flag whose expiry is an explicit
 * event; a gamepad is polled once per animation frame and its pressed buttons become key
 * events.
 */
module NavBar {
  import opened JsBuiltins
  import PageNav

  const HideMs: nat := 3000

  /** The module's `navIndex`, the items' `selected` flags, the menu's `visible` class and
      whether `navHideTimeout` is pending. */
  datatype Bar = Bar(navIndex: int, marks: seq<bool>, visible: bool, hideArmed: bool)

  /** A call of handleNavigation: the key, and whether it came from a gamepad whose Back
      button (button 1) is held. */
  datatype NavEvent = NavEvent(key: string, gamepadBack: bool)

  /** The page a label leads to, compared in lower case; other labels lead nowhere. */
  function PageFor(text: string): Option<string>
  {
    var l := AsciiLower(text);
    if l == "home" then Some("../../ymt/index.html")
    else if l == "language" || l == "category" then Some("../../ymt/player.html")
    else if l == "about" then Some("../../ymt/about.html")
    else if l == "settings" then Some("../../ymt/settings.html")
    else None
  }

  /** Five labels lead somewhere, 'language' and 'category' to the same player page; any
      other label, 'aatral tv' among them, leads nowhere. */
  lemma PageForCases(text: string)
    ensures PageFor(text).Some? <==> AsciiLower(text) in {"home", "language", "category", "about", "settings"}
    ensures AsciiLower(text) in {"language", "category"} <==> PageFor(text) == Some("../../ymt/player.html")
  {
  }

  /** DOMContentLoaded: the first item is selected and the menu has its markup's
      visibility. */
  function Loaded(n: nat, visibleAtLoad: bool): Bar
  {
    Bar(0, PageNav.Marks(n, 0), visibleAtLoad, false)
  }

  /** The selection moved to `i`: marks updated and the hide timer restarted. */
  function Moved(b: Bar, n: nat, i: int): Bar
  {
    b.(navIndex := i, marks := PageNav.Marks(n, i), hideArmed := true)
  }

  /** handleNavigation: the bar after the event, and the page it leads to. Enter restarts
      the timer before reading the label, so an empty menu still restarts it. */
  function Handle(b: Bar, labels: seq<string>, e: NavEvent): (r: (Bar, Option<string>))
    ensures r.1.Some? ==> !e.gamepadBack && e.key == "Enter" && r.0 == b.(hideArmed := true)
    ensures e.gamepadBack || e.key == "ArrowLeft" ==> !r.0.visible
    ensures r.0.navIndex == b.navIndex || r.0.navIndex == b.navIndex - 1 || r.0.navIndex == b.navIndex + 1
    ensures 0 <= b.navIndex < |labels| ==> 0 <= r.0.navIndex < |labels|
  {
    var n := |labels|;
    if e.gamepadBack then (b.(visible := false), None)
    else if e.key == "ArrowRight" then
      (if b.visible then b else b.(visible := true, hideArmed := true), None)
    else if e.key == "ArrowLeft" then (b.(visible := false), None)
    else if e.key == "ArrowUp" then
      (if b.navIndex > 0 then Moved(b, n, b.navIndex - 1) else b, None)
    else if e.key == "ArrowDown" then
      (if b.navIndex < n - 1 then Moved(b, n, b.navIndex + 1) else b, None)
    else if e.key == "Enter" then
      (b.(hideArmed := true), if 0 <= b.navIndex < n then PageFor(labels[b.navIndex]) else None)
    else (b, None)
  }

  /** The hide timer expires. */
  function HideFired(b: Bar): Bar
  {
    b.(visible := false, hideArmed := false)
  }

  /** The mouse moved: the timer restarts while the menu is shown. */
  function MouseMoved(b: Bar): Bar
  {
    if b.visible then b.(hideArmed := true) else b
  }

  /** What holds from load on: the index is within the items (0 for an empty menu) and
      exactly the selected item is marked. */
  predicate Valid(b: Bar, n: nat)
  {
    0 <= b.navIndex && (b.navIndex < n || b.navIndex == 0) && b.marks == PageNav.Marks(n, b.navIndex)
  }

  lemma LoadedValid(n: nat, visibleAtLoad: bool)
    ensures Valid(Loaded(n, visibleAtLoad), n)
    ensures n > 0 ==> PageNav.CountTrue(Loaded(n, visibleAtLoad).marks) == 1
  {
    PageNav.ExactlyOneSelected(n, 0);
  }

  /** Every event keeps the bar valid; Up and Down move by one, clamped to the items;
      no other key moves the selection; Right shows and Left hides without moving it. */
  lemma HandleClamps(b: Bar, labels: seq<string>, e: NavEvent)
    requires Valid(b, |labels|)
    ensures var (b', _) := Handle(b, labels, e);
      var n := |labels|;
      Valid(b', n) &&
      (!e.gamepadBack && e.key == "ArrowUp" ==> b'.navIndex == if b.navIndex > 0 then b.navIndex - 1 else 0) &&
      (!e.gamepadBack && e.key == "ArrowDown" && n > 0 ==>
        b'.navIndex == if b.navIndex < n - 1 then b.navIndex + 1 else n - 1) &&
      (e.gamepadBack || e.key !in {"ArrowUp", "ArrowDown"} ==> b'.navIndex == b.navIndex && b'.marks == b.marks) &&
      (!e.gamepadBack && e.key == "ArrowRight" ==> b'.visible) &&
      (e.gamepadBack || e.key == "ArrowLeft" ==> !b'.visible)
  {
  }

  /** Showing the menu, moving the selection and Enter restart the timer; a key that
      does none of these, and Back, leave it as it was. */
  lemma HandleRestartsTimer(b: Bar, labels: seq<string>, e: NavEvent)
    ensures var (b', _) := Handle(b, labels, e);
      (b'.visible && !b.visible ==> b'.hideArmed) &&
      (b'.navIndex != b.navIndex ==> b'.hideArmed) &&
      (!e.gamepadBack && e.key == "Enter" ==> b'.hideArmed) &&
      (e.gamepadBack || e.key == "ArrowLeft" ==> b'.hideArmed == b.hideArmed)
  {
  }

  /** Only Enter leads to a page, and then to the selected item's. */
  lemma HandleNavigates(b: Bar, labels: seq<string>, e: NavEvent)
    requires Valid(b, |labels|)
    ensures var (_, href) := Handle(b, labels, e);
      href.Some? ==> !e.gamepadBack && e.key == "Enter" && href == PageFor(labels[b.navIndex])
  {
  }

  /** k presses of Down from index i. */
  function DownTimes(b: Bar, labels: seq<string>, k: nat): Bar
  {
    if k == 0 then b else Handle(DownTimes(b, labels, k - 1), labels, NavEvent("ArrowDown", false)).0
  }

  /** Repeated Down stops at the last item instead of wrapping. */
  lemma {:induction false} DownStopsAtLast(b: Bar, labels: seq<string>, k: nat)
    requires Valid(b, |labels|) && |labels| > 0
    ensures var b' := DownTimes(b, labels, k);
      Valid(b', |labels|) &&
      b'.navIndex == if b.navIndex + k < |labels| then b.navIndex + k else |labels| - 1
    decreases k
  {
    if k > 0 {
      DownStopsAtLast(b, labels, k - 1);
      HandleClamps(DownTimes(b, labels, k - 1), labels, NavEvent("ArrowDown", false));
    }
  }

  // ---------------------------------------------------------------------------
  // Gamepad frames
  // ---------------------------------------------------------------------------

  /** What one frame of handleGamepadInput has done so far: the bar, the last page
      assigned, and whether the frame is still running. Reading a button a pad does not
      have, or the caption of a missing item, throws a TypeError, which ends the frame
      then and there. */
  datatype Frame = Frame(bar: Bar, href: Option<string>, running: bool)

  /** handleNavigation throws on Enter, after restarting the timer, when no item is at
      the index: it reads the caption of `navItems[navIndex]`, which is missing. */
  predicate EnterThrows(b: Bar, labels: seq<string>, e: NavEvent)
  {
    !e.gamepadBack && e.key == "Enter" && !(0 <= b.navIndex < |labels|)
  }

  /** `if (gamepad.buttons[k].pressed) handleNavigation({ key, gamepad })`, where
      handleNavigation reads the Back button (button 1) before anything else. A missing
      button k, a missing button 1 behind a pressed k, or Enter on a missing item
      throws. */
  function Test(f: Frame, labels: seq<string>, buttons: seq<bool>, k: nat, key: string): (r: Frame)
    ensures !f.running ==> r == f
    ensures r.running <==>
      f.running && k < |buttons| &&
      (buttons[k] ==> 1 < |buttons| && !EnterThrows(f.bar, labels, NavEvent(key, buttons[1])))
    ensures k < |buttons| && !buttons[k] ==> r == f
    ensures r.href != f.href ==> r.href.Some?
    ensures 0 <= f.bar.navIndex < |labels| ==> 0 <= r.bar.navIndex < |labels|
  {
    if !f.running then f
    else if k >= |buttons| then f.(running := false)
    else if !buttons[k] then f
    else if |buttons| <= 1 then f.(running := false)
    else
      var e := NavEvent(key, buttons[1]);
      var (b', href) := Handle(f.bar, labels, e);
      Frame(b', if href.Some? then href else f.href, !EnterThrows(f.bar, labels, e))
  }

  /** A pad lets its frame complete when it has all sixteen buttons tested and its A
      press, if any, does not throw on an empty menu. */
  predicate PadCompletes(labels: seq<string>, buttons: seq<bool>)
  {
    |buttons| > 15 && !(labels == [] && buttons[0] && !buttons[1])
  }

  /** handleGamepadInput for one pad: D-pad up, down, left, right (buttons 12 to 15), then
      A (button 0) as Enter. From an index inside the menu, or on an empty menu, the
      frame completes exactly when the pad lets it. */
  function PadFrame(f: Frame, labels: seq<string>, buttons: seq<bool>): (r: Frame)
    ensures r.running ==> f.running && |buttons| > 15
    ensures 0 <= f.bar.navIndex < |labels| || labels == [] ==>
      (r.running <==> f.running && PadCompletes(labels, buttons))
    ensures 0 <= f.bar.navIndex < |labels| ==> 0 <= r.bar.navIndex < |labels|
    ensures f.running && |buttons| <= 12 ==> r == f.(running := false)
  {
    var up := Test(f, labels, buttons, 12, "ArrowUp");
    var down := Test(up, labels, buttons, 13, "ArrowDown");
    var left := Test(down, labels, buttons, 14, "ArrowLeft");
    var right := Test(left, labels, buttons, 15, "ArrowRight");
    Test(right, labels, buttons, 0, "Enter")
  }

  /** A held Back button turns every pressed direction and A into a hide: the selection
      and the timer stay, no page is opened, and the menu is either untouched or hidden.
      On a full pad it is hidden exactly when something was pressed. */
  lemma BackDominates(b: Bar, labels: seq<string>, buttons: seq<bool>)
    requires |buttons| > 1 && buttons[1]
    ensures var r := PadFrame(Frame(b, None, true), labels, buttons);
      r.href == None && r.bar.navIndex == b.navIndex && r.bar.marks == b.marks &&
      r.bar.hideArmed == b.hideArmed && (r.bar == b || !r.bar.visible) &&
      (|buttons| > 15 && (buttons[0] || buttons[12] || buttons[13] || buttons[14] || buttons[15]) ==> !r.bar.visible) &&
      (|buttons| > 15 && !(buttons[0] || buttons[12] || buttons[13] || buttons[14] || buttons[15]) ==> r.bar == b)
  {
    var f := Frame(b, None, true);
    var up := Test(f, labels, buttons, 12, "ArrowUp");
    var down := Test(up, labels, buttons, 13, "ArrowDown");
    var left := Test(down, labels, buttons, 14, "ArrowLeft");
    var right := Test(left, labels, buttons, 15, "ArrowRight");
    BackTest(b, f, labels, buttons, 12, "ArrowUp");
    BackTest(b, up, labels, buttons, 13, "ArrowDown");
    BackTest(b, down, labels, buttons, 14, "ArrowLeft");
    BackTest(b, left, labels, buttons, 15, "ArrowRight");
    BackTest(b, right, labels, buttons, 0, "Enter");
  }

  /** One button test under a held Back keeps what BackDominates promises. */
  lemma BackTest(b: Bar, f: Frame, labels: seq<string>, buttons: seq<bool>, k: nat, key: string)
    requires |buttons| > 1 && buttons[1]
    requires f.href == None && f.bar.navIndex == b.navIndex && f.bar.marks == b.marks
    requires f.bar.hideArmed == b.hideArmed && (f.bar == b || !f.bar.visible)
    ensures var r := Test(f, labels, buttons, k, key);
      r.href == None && r.bar.navIndex == b.navIndex && r.bar.marks == b.marks &&
      r.bar.hideArmed == b.hideArmed && (r.bar == b || !r.bar.visible) &&
      (f.running && k < |buttons| && buttons[k] ==> !r.bar.visible) &&
      (!f.bar.visible ==> !r.bar.visible) && (r.bar != f.bar ==> !r.bar.visible)
  {
  }

  /** Presses made before a missing button stand: on a pad with 13 buttons, Up is handled
      and the frame then throws at button 13. */
  lemma ThrowKeepsEarlierPresses(b: Bar, labels: seq<string>, buttons: seq<bool>)
    requires |buttons| == 13 && buttons[12]
    ensures var r := PadFrame(Frame(b, None, true), labels, buttons);
      !r.running && r.bar == Handle(b, labels, NavEvent("ArrowUp", buttons[1])).0
  {
  }

  /** Every connected pad has all sixteen buttons. */
  predicate AllFull(pads: seq<Option<seq<bool>>>)
  {
    forall k :: 0 <= k < |pads| && pads[k].Some? ==> |pads[k].value| > 15
  }

  /** Every connected pad lets the frame complete. */
  predicate AllComplete(labels: seq<string>, pads: seq<Option<seq<bool>>>)
  {
    forall k :: 0 <= k < |pads| && pads[k].Some? ==> PadCompletes(labels, pads[k].value)
  }

  /** Every connected pad in turn; absent slots are skipped, and once a pad has thrown the
      remaining pads are not looked at. From an index inside the menu, or on an empty
      menu, the frame completes exactly when every connected pad lets it. */
  function AllPads(f: Frame, labels: seq<string>, pads: seq<Option<seq<bool>>>): (r: Frame)
    ensures r.running ==> f.running && AllFull(pads)
    ensures 0 <= f.bar.navIndex < |labels| || labels == [] ==>
      (r.running <==> f.running && AllComplete(labels, pads))
    ensures 0 <= f.bar.navIndex < |labels| ==> 0 <= r.bar.navIndex < |labels|
    ensures !f.running ==> r == f
    decreases |pads|
  {
    if pads == [] then f
    else
      var last := pads[|pads| - 1];
      var before := AllPads(f, labels, pads[..|pads| - 1]);
      assert forall k :: 0 <= k < |pads| - 1 ==> pads[..|pads| - 1][k] == pads[k];
      if last.Some? then PadFrame(before, labels, last.value) else before
  }

  /** One more slot: a connected pad runs its part of the frame, an absent one adds
      nothing. */
  lemma AllPadsStep(f: Frame, labels: seq<string>, pads: seq<Option<seq<bool>>>, j: nat)
    requires j < |pads|
    ensures var before := AllPads(f, labels, pads[..j]);
      AllPads(f, labels, pads[..j + 1]) == if pads[j].Some? then PadFrame(before, labels, pads[j].value) else before
  {
    assert pads[..j + 1][..j] == pads[..j];
  }

  /** A frame keeps the bar valid, whether it completes or throws. */
  lemma {:induction false} AllPadsKeepValid(f: Frame, labels: seq<string>, pads: seq<Option<seq<bool>>>)
    requires Valid(f.bar, |labels|)
    ensures Valid(AllPads(f, labels, pads).bar, |labels|)
    decreases |pads|
  {
    if pads != [] {
      var init := pads[..|pads| - 1];
      AllPadsKeepValid(f, labels, init);
      var before := AllPads(f, labels, init);
      var last := pads[|pads| - 1];
      if last.Some? {
        PadFrameKeepsValid(before, labels, last.value);
      }
    }
  }

  /** Once a frame has stopped, the pads after the one that threw change nothing. */
  lemma {:induction false} AllPadsAfterThrow(f: Frame, labels: seq<string>, pads: seq<Option<seq<bool>>>, j: nat)
    requires j <= |pads|
    requires j < |pads| ==> !AllPads(f, labels, pads[..j]).running
    ensures AllPads(f, labels, pads[..j]) == AllPads(f, labels, pads)
    decreases |pads| - j
  {
    if j < |pads| {
      var next := pads[..j + 1];
      assert next[..j] == pads[..j];
      AllPadsAfterThrow(f, labels, pads, j + 1);
    } else {
      assert pads[..j] == pads;
    }
  }

  lemma PadFrameKeepsValid(f: Frame, labels: seq<string>, buttons: seq<bool>)
    requires Valid(f.bar, |labels|)
    ensures Valid(PadFrame(f, labels, buttons).bar, |labels|)
  {
    var up := Test(f, labels, buttons, 12, "ArrowUp");
    TestKeepsValid(f, labels, buttons, 12, "ArrowUp");
    var down := Test(up, labels, buttons, 13, "ArrowDown");
    TestKeepsValid(up, labels, buttons, 13, "ArrowDown");
    var left := Test(down, labels, buttons, 14, "ArrowLeft");
    TestKeepsValid(down, labels, buttons, 14, "ArrowLeft");
    var right := Test(left, labels, buttons, 15, "ArrowRight");
    TestKeepsValid(left, labels, buttons, 15, "ArrowRight");
    TestKeepsValid(right, labels, buttons, 0, "Enter");
  }

  lemma TestKeepsValid(f: Frame, labels: seq<string>, buttons: seq<bool>, k: nat, key: string)
    requires Valid(f.bar, |labels|)
    ensures Valid(Test(f, labels, buttons, k, key).bar, |labels|)
  {
    if f.running && k < |buttons| && buttons[k] && |buttons| > 1 {
      HandleClamps(f.bar, labels, NavEvent(key, buttons[1]));
    }
  }

  // ---------------------------------------------------------------------------
  // The module's state
  // ---------------------------------------------------------------------------

  class NavMenu {
    const labels: seq<string>
    var navIndex: int
    var marks: seq<bool>
    var visible: bool
    var hideArmed: bool
    /** Animation-frame callbacks scheduled by handleGamepadInput and not yet run. */
    var pending: nat

    function State(): Bar
      reads this
    {
      Bar(navIndex, marks, visible, hideArmed)
    }

    /** The module's initial values and the DOMContentLoaded listener. */
    constructor (labels: seq<string>, visibleAtLoad: bool)
      ensures this.labels == labels
      ensures State() == Loaded(|labels|, visibleAtLoad) && pending == 0
    {
      this.labels := labels;
      navIndex := 0;
      visible := visibleAtLoad;
      hideArmed := false;
      pending := 0;
      marks := [];
      new;
      UpdateSelectedNavItem();
    }

    /** updateSelectedNavItem: toggle each item's flag to whether it is the selected one. */
    method UpdateSelectedNavItem()
      modifies this
      ensures State() == old(State()).(marks := PageNav.Marks(|labels|, navIndex))
      ensures pending == old(pending)
    {
      var m: seq<bool> := [];
      var j := 0;
      while j < |labels|
        invariant 0 <= j <= |labels|
        invariant m == PageNav.Marks(j, navIndex)
      {
        m := m + [j == navIndex];
        j := j + 1;
      }
      marks := m;
    }

    /** resetNavHideTimer: clear any pending hide and arm a new one. */
    method ResetNavHideTimer()
      modifies this
      ensures State() == old(State()).(hideArmed := true)
      ensures pending == old(pending)
    {
      hideArmed := true;
    }

    method ShowNavBar()
      modifies this
      ensures State() == old(State()).(visible := true, hideArmed := true)
      ensures pending == old(pending)
    {
      visible := true;
      ResetNavHideTimer();
    }

    method HideNavBar()
      modifies this
      ensures State() == old(State()).(visible := false)
      ensures pending == old(pending)
    {
      visible := false;
    }

    /** handleNavigation; the page it returns is assigned to `window.location.href`. */
    method HandleNavigation(e: NavEvent) returns (href: Option<string>)
      modifies this
      ensures (State(), href) == Handle(old(State()), labels, e)
      ensures pending == old(pending)
    {
      href := None;
      if e.gamepadBack {
        HideNavBar();
        return;
      }
      if e.key == "ArrowRight" {
        if !visible {
          ShowNavBar();
        }
      } else if e.key == "ArrowLeft" {
        HideNavBar();
      } else if e.key == "ArrowUp" {
        if navIndex > 0 {
          navIndex := navIndex - 1;
          UpdateSelectedNavItem();
          ResetNavHideTimer();
        }
      } else if e.key == "ArrowDown" {
        if navIndex < |labels| - 1 {
          navIndex := navIndex + 1;
          UpdateSelectedNavItem();
          ResetNavHideTimer();
        }
      } else if e.key == "Enter" {
        ResetNavHideTimer();
        if 0 <= navIndex < |labels| {
          href := PageFor(labels[navIndex]);
        }
      }
    }

    /** The hide timer's callback. */
    method HideTimerFires()
      requires hideArmed
      modifies this
      ensures State() == HideFired(old(State()))
      ensures pending == old(pending)
    {
      HideNavBar();
      hideArmed := false;
    }

    /** The mousemove listener. */
    method MouseMove()
      modifies this
      ensures State() == MouseMoved(old(State()))
      ensures pending == old(pending)
    {
      if visible {
        ResetNavHideTimer();
      }
    }

    /** One `if (gamepad.buttons[k].pressed)` of handleGamepadInput, in a frame that is
        still running; `running` is false when the test threw. */
    method TestButton(buttons: seq<bool>, k: nat, key: string, href0: Option<string>) returns (href: Option<string>, running: bool)
      modifies this
      ensures Frame(State(), href, running) == Test(Frame(old(State()), href0, true), labels, buttons, k, key)
      ensures pending == old(pending)
    {
      href, running := href0, true;
      if k >= |buttons| {
        running := false;
      } else if buttons[k] {
        if |buttons| <= 1 {
          running := false;
        } else {
          var e := NavEvent(key, buttons[1]);
          running := !EnterThrows(State(), labels, e);
          var h := HandleNavigation(e);
          if h.Some? {
            href := h;
          }
        }
      }
    }

    /** One pad's part of handleGamepadInput; a throw skips the pad's remaining tests. */
    method PadInput(buttons: seq<bool>, href0: Option<string>) returns (href: Option<string>, running: bool)
      modifies this
      ensures Frame(State(), href, running) == PadFrame(Frame(old(State()), href0, true), labels, buttons)
      ensures pending == old(pending)
    {
      href, running := TestButton(buttons, 12, "ArrowUp", href0);
      if !running { return; }
      href, running := TestButton(buttons, 13, "ArrowDown", href);
      if !running { return; }
      href, running := TestButton(buttons, 14, "ArrowLeft", href);
      if !running { return; }
      href, running := TestButton(buttons, 15, "ArrowRight", href);
      if !running { return; }
      href, running := TestButton(buttons, 0, "Enter", href);
    }

    /** handleGamepadInput over `navigator.getGamepads()`: the last page assigned, if any,
        and whether the frame completed. Only a completed frame reaches
        `requestAnimationFrame`, which leaves one more callback pending. */
    method HandleGamepadInput(pads: seq<Option<seq<bool>>>) returns (href: Option<string>, completed: bool)
      modifies this
      ensures var r := AllPads(Frame(old(State()), None, true), labels, pads);
        State() == r.bar && href == r.href && completed == r.running &&
        pending == old(pending) + (if completed then 1 else 0)
    {
      href, completed := None, true;
      var j := 0;
      while j < |pads| && completed
        invariant 0 <= j <= |pads|
        invariant pending == old(pending)
        invariant Frame(State(), href, completed) == AllPads(Frame(old(State()), None, true), labels, pads[..j])
      {
        AllPadsStep(Frame(old(State()), None, true), labels, pads, j);
        if pads[j].Some? {
          href, completed := PadInput(pads[j].value, href);
        }
        j := j + 1;
      }
      AllPadsAfterThrow(Frame(old(State()), None, true), labels, pads, j);
      if completed {
        pending := pending + 1;
      }
    }

    /** The `gamepadconnected` listener starts a polling chain. */
    method GamepadConnected(pads: seq<Option<seq<bool>>>) returns (href: Option<string>)
      modifies this
      ensures var r := AllPads(Frame(old(State()), None, true), labels, pads);
        State() == r.bar && href == r.href && pending == old(pending) + (if r.running then 1 else 0)
    {
      var completed;
      href, completed := HandleGamepadInput(pads);
    }

    /** A pending animation-frame callback runs handleGamepadInput; a frame that throws
        schedules none, so that chain of polling ends for good. */
    method AnimationFrame(pads: seq<Option<seq<bool>>>) returns (href: Option<string>)
      requires pending > 0
      modifies this
      ensures var r := AllPads(Frame(old(State()), None, true), labels, pads);
        State() == r.bar && href == r.href && pending == old(pending) - (if r.running then 0 else 1)
    {
      pending := pending - 1;
      var completed;
      href, completed := HandleGamepadInput(pads);
    }
  }
}
