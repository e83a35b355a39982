/**
 * ymt/js/uiManager.js: the grid width table, the key-repeat guard and the extra keypress
 * mapping installed on smart TVs. Moving focus between DOM elements is not part of this
 * model.
 */
module UiManager {
  import opened JsBuiltins
  import opened KeyEvents

  const DefaultColumns: nat := 4
  const KeyRepeatDelay: int := 300

  /** `calculateGridColumns()`, given whether `.channels-container` exists, its
      `clientWidth` and the result of isSmartTV. */
  function GridColumns(hasContainer: bool, isTV: bool, width: int): (r: nat)
    ensures !hasContainer ==> r == DefaultColumns
    ensures 2 <= r <= 6
    ensures hasContainer && !isTV && width >= 1920 ==> r == 6
  {
    if !hasContainer then DefaultColumns
    else if isTV then
      if width < 1280 then 3 else if width < 1920 then 4 else 5
    else if width < 768 then 2
    else if width < 1024 then 3
    else if width < 1440 then 4
    else if width < 1920 then 5
    else 6
  }

  /** Between two and six columns, three to five on a TV; for a fixed device class a
      wider container never has fewer columns. */
  lemma GridColumnsRange(hasContainer: bool, isTV: bool, width: int, wider: int)
    requires width <= wider
    ensures 2 <= GridColumns(hasContainer, isTV, width) <= 6
    ensures isTV ==> 3 <= GridColumns(hasContainer, isTV, width) <= 5
    ensures GridColumns(hasContainer, isTV, width) <= GridColumns(hasContainer, isTV, wider)
  {
  }

  // ---------------------------------------------------------------------------
  // shouldProcessKey
  // ---------------------------------------------------------------------------

  /** A press of `key` at time `now` is processed unless it repeats the last accepted key
      within the delay. */
  predicate Accepts(lastKey: string, lastKeyTime: int, key: string, now: int)
  {
    !(lastKey == key && now - lastKeyTime < KeyRepeatDelay)
  }

  /** The guard's two fields. */
  datatype Guard = Guard(lastKey: string, lastKeyTime: int)

  /** The guard after a press: an accepted press becomes the reference, a rejected one
      leaves it. */
  function Pressed(g: Guard, key: string, now: int): (r: Guard)
    ensures r == g || r == Guard(key, now)
    ensures key == g.lastKey && now - g.lastKeyTime < KeyRepeatDelay ==> r == g
    ensures key != g.lastKey ==> r == Guard(key, now)
  {
    if Accepts(g.lastKey, g.lastKeyTime, key, now) then Guard(key, now) else g
  }

  /** The guard after a series of presses, each a key and a `Date.now()` reading. */
  function PressedAll(g: Guard, presses: seq<(string, int)>): Guard
    decreases |presses|
  {
    if presses == [] then g else PressedAll(Pressed(g, presses[0].0, presses[0].1), presses[1..])
  }

  /** After a press of `key` is accepted at `t`, every further press of the same key
      before `t + 300` is rejected and the reference stays at `t`. */
  lemma {:induction false} RepeatsSwallowed(key: string, t: int, presses: seq<(string, int)>)
    requires forall i :: 0 <= i < |presses| ==> presses[i].0 == key && presses[i].1 - t < KeyRepeatDelay
    ensures PressedAll(Guard(key, t), presses) == Guard(key, t)
  {
    if presses != [] {
      assert !Accepts(key, t, presses[0].0, presses[0].1);
      RepeatsSwallowed(key, t, presses[1..]);
    }
  }

  /** A different key, or the same key 300 ms or more after the reference, is accepted
      and becomes the reference. */
  lemma AcceptedBecomesReference(g: Guard, key: string, now: int)
    requires key != g.lastKey || now - g.lastKeyTime >= KeyRepeatDelay
    ensures Pressed(g, key, now) == Guard(key, now)
  {
  }

  /** The UIManager object's guard fields. */
  class KeyRepeatGuard {
    var lastKey: string
    var lastKeyTime: int

    function State(): Guard
      reads this
    {
      Guard(lastKey, lastKeyTime)
    }

    constructor ()
      ensures State() == Guard("", 0)
    {
      lastKey, lastKeyTime := "", 0;
    }

    /** `shouldProcessKey(key)` with `Date.now()` passed in. */
    method ShouldProcessKey(key: string, now: int) returns (process: bool)
      modifies this
      ensures process == Accepts(old(lastKey), old(lastKeyTime), key, now)
      ensures State() == Pressed(old(State()), key, now)
    {
      if lastKey == key && now - lastKeyTime < KeyRepeatDelay {
        return false;
      }
      lastKey := key;
      lastKeyTime := now;
      return true;
    }
  }

  // ---------------------------------------------------------------------------
  // setupTVRemoteHandling
  // ---------------------------------------------------------------------------

  /** The keypress mapping: 13 and 32 are Enter, 37-40 the arrows, 8, 27 and 461 Back. */
  function TvKey(e: KeyEvent): string
  {
    if e.keyCode == 8 || e.keyCode == 27 || e.keyCode == 461 then "Back"
    else if e.keyCode == 40 then "ArrowDown"
    else if e.keyCode == 39 then "ArrowRight"
    else if e.keyCode == 38 then "ArrowUp"
    else if e.keyCode == 37 then "ArrowLeft"
    else if e.keyCode == 13 || e.keyCode == 32 then "Enter"
    else e.key
  }

  /** The keypress listener: on a TV, the event handed to handleNavigation (with only a
      key), when the mapping changed the key. */
  function TvKeypress(isTV: bool, e: KeyEvent): (r: Option<KeyEvent>)
    ensures !isTV ==> r.None?
    ensures r.Some? ==> r.value.key != e.key && r.value.keyCode == 0
  {
    if isTV && TvKey(e) != e.key then Some(KeyEvent(TvKey(e), 0)) else None
  }

  /** The mapping is the page handlers' remote mapping plus the space bar as Enter. */
  lemma TvKeyIsRemoteKey(e: KeyEvent)
    ensures e.keyCode != 32 ==> TvKey(e) == RemoteKey(e)
    ensures e.keyCode == 32 ==> TvKey(e) == "Enter"
  {
  }

  /** A key is forwarded exactly on a TV when the mapping changes it; keys already named
      as mapped, and codes outside the mapping, are left to the page's own handler. */
  lemma TvKeypressForwards(isTV: bool, e: KeyEvent)
    ensures TvKeypress(isTV, e).Some? <==> isTV && TvKey(e) != e.key
    ensures TvKeypress(isTV, e).Some? ==> TvKeypress(isTV, e).value.key == TvKey(e)
    ensures e.keyCode !in {8, 13, 27, 32, 37, 38, 39, 40, 461} ==> TvKeypress(isTV, e).None?
  {
  }
}
