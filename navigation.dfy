/**
 * ymt/js/navigation.js: the shared keyboard handler of the channel pages. Focus is in the
 * nav bar, in the language dropdown (opened from nav item 1) or in a 6-column card grid.
 * The handler gets the document's nav items, dropdown entries and card count with each
 * event (`View`); what it asks of its callers — a digit for the number input, a channel to
 * open, a language to apply, a page to load — comes back as an `Effect`.
 */
module Navigation {
  import opened JsBuiltins
  import opened KeyEvents

  const Columns: nat := 6

  /** A nav item: the href of its link, if it has one, and the text of its last span. */
  datatype NavItem = NavItem(link: Option<string>, caption: Option<string>)

  /** What the document holds when a key arrives: the number of channels shown, the
      dropdown entries' languages and the nav items. */
  datatype View = View(filteredCount: nat, languageItems: seq<string>, navItems: seq<NavItem>)

  datatype Nav = Nav(isInNav: bool, isInDropdown: bool, navIndex: nat, languageIndex: nat, selectedIndex: nat)

  datatype Effect =
    | NoEffect
    | NumberInput(digit: string)
    | OpenChannel(index: nat)
    | ApplyLanguage(language: string)
    | Navigate(href: string)

  datatype Outcome = Outcome(nav: Nav, effect: Effect)

  const Initial: Nav := Nav(true, false, 0, 0, 0)

  /** The page for a nav item without a link, by its lower-cased caption. */
  function CaptionTarget(caption: string): Effect
  {
    if caption == "home" then Navigate("index.html")
    else if caption == "about" then Navigate("about.html")
    else if caption == "settings" then Navigate("settings.html")
    else NoEffect
  }

  /** handleNavigation(event, ...): the remote mapping, then digits, then the branch of
      the focused region. */
  function Next(s: Nav, e: KeyEvent, v: View): (r: Outcome)
    ensures r.effect.NumberInput? ==> r.nav == s && DigitRange(r.effect.digit)
    ensures r.effect.OpenChannel? ==> !s.isInNav && !s.isInDropdown && r.effect.index < v.filteredCount
    ensures r.effect.ApplyLanguage? ==> s.isInDropdown && !r.nav.isInDropdown && r.effect.language in v.languageItems
  {
    var key := RemoteKey(e);
    if DigitRange(key) then Outcome(s, NumberInput(key))
    else if s.isInDropdown then DropdownNext(s, key, v)
    else if s.isInNav then NavNext(s, key, v)
    else GridNext(s, key, v)
  }

  function DropdownNext(s: Nav, key: string, v: View): Outcome
  {
    if key == "ArrowUp" then
      Outcome(if s.languageIndex > 0 then s.(languageIndex := s.languageIndex - 1) else s, NoEffect)
    else if key == "ArrowDown" then
      Outcome(if s.languageIndex < |v.languageItems| - 1 then s.(languageIndex := s.languageIndex + 1) else s, NoEffect)
    else if key == "Enter" then
      if s.languageIndex < |v.languageItems| then
        Outcome(s.(isInDropdown := false), ApplyLanguage(v.languageItems[s.languageIndex]))
      else Outcome(s, NoEffect)
    else if key == "Escape" || key == "Back" then
      Outcome(s.(isInDropdown := false), NoEffect)
    else Outcome(s, NoEffect)
  }

  function NavNext(s: Nav, key: string, v: View): Outcome
  {
    if key == "ArrowLeft" then
      Outcome(if s.navIndex > 0 then s.(navIndex := s.navIndex - 1) else s, NoEffect)
    else if key == "ArrowRight" then
      Outcome(if s.navIndex < |v.navItems| - 1 then s.(navIndex := s.navIndex + 1) else s, NoEffect)
    else if key == "ArrowDown" then
      Outcome(s.(isInNav := false, selectedIndex := 0), NoEffect)
    else if key == "Enter" then
      if s.navIndex == 1 then Outcome(s.(isInDropdown := true, languageIndex := 0), NoEffect)
      else if s.navIndex < |v.navItems| then
        var item := v.navItems[s.navIndex];
        if item.link.Some? then Outcome(s, Navigate(item.link.value))
        else if item.caption.Some? then Outcome(s, CaptionTarget(AsciiLower(item.caption.value)))
        else Outcome(s, NoEffect)
      else Outcome(s, NoEffect)
    else Outcome(s, NoEffect)
  }

  function GridNext(s: Nav, key: string, v: View): Outcome
  {
    var total: int := v.filteredCount;
    var row := s.selectedIndex / Columns;
    var col := s.selectedIndex % Columns;
    if key == "ArrowUp" then
      if row == 0 then Outcome(s.(isInNav := true), NoEffect)
      else Outcome(s.(selectedIndex := s.selectedIndex - Columns), NoEffect)
    else if key == "ArrowDown" then
      Outcome(if s.selectedIndex + Columns < total then s.(selectedIndex := s.selectedIndex + Columns) else s, NoEffect)
    else if key == "ArrowLeft" then
      Outcome(if col > 0 then s.(selectedIndex := s.selectedIndex - 1) else s, NoEffect)
    else if key == "ArrowRight" then
      Outcome(if col < Columns - 1 && s.selectedIndex < total - 1 then s.(selectedIndex := s.selectedIndex + 1) else s, NoEffect)
    else if key == "Enter" then
      Outcome(s, if s.selectedIndex < total then OpenChannel(s.selectedIndex) else NoEffect)
    else if key == "Escape" || key == "Back" then
      Outcome(s.(isInNav := true), NoEffect)
    else Outcome(s, NoEffect)
  }

  // ---------------------------------------------------------------------------
  // What each key does
  // ---------------------------------------------------------------------------

  /** A digit key (after the remote mapping) goes to the number input and changes no
      navigation state. */
  lemma DigitKeys(s: Nav, e: KeyEvent, v: View)
    requires DigitRange(RemoteKey(e))
    ensures Next(s, e, v) == Outcome(s, NumberInput(RemoteKey(e)))
  {
  }

  /** Mapped remote keys are never digits. */
  lemma RemoteKeysAreNotDigits(e: KeyEvent)
    requires e.keyCode in {8, 13, 27, 37, 38, 39, 40, 461}
    ensures !DigitRange(RemoteKey(e))
  {
    var k := RemoteKey(e);
    DigitRangeChars(k);
    assert !IsDecimalDigit(k[0]);
  }

  /** In the dropdown, Up and Down keep the index on an entry, without wrapping; Enter
      applies the highlighted entry and closes; Escape and Back close without applying. */
  lemma DropdownKeys(s: Nav, v: View)
    requires s.isInDropdown && s.languageIndex < |v.languageItems|
    ensures var up := DropdownNext(s, "ArrowUp", v).nav;
      up.languageIndex < |v.languageItems| &&
      up.languageIndex == if s.languageIndex == 0 then 0 else s.languageIndex - 1
    ensures var down := DropdownNext(s, "ArrowDown", v).nav;
      down.languageIndex < |v.languageItems| &&
      down.languageIndex == if s.languageIndex == |v.languageItems| - 1 then s.languageIndex else s.languageIndex + 1
    ensures DropdownNext(s, "Enter", v) ==
      Outcome(s.(isInDropdown := false), ApplyLanguage(v.languageItems[s.languageIndex]))
    ensures DropdownNext(s, "Escape", v) == Outcome(s.(isInDropdown := false), NoEffect)
    ensures DropdownNext(s, "Back", v) == Outcome(s.(isInDropdown := false), NoEffect)
  {
  }

  /** In the nav bar, Left and Right stay on a nav item; Down always enters the grid at its
      first card; Enter on item 1 opens the dropdown at its first entry. */
  lemma NavKeys(s: Nav, v: View)
    requires s.isInNav && !s.isInDropdown && s.navIndex < |v.navItems|
    ensures NavNext(s, "ArrowLeft", v).nav.navIndex < |v.navItems|
    ensures NavNext(s, "ArrowRight", v).nav.navIndex < |v.navItems|
    ensures NavNext(s, "ArrowDown", v).nav == s.(isInNav := false, selectedIndex := 0)
    ensures s.navIndex == 1 ==> NavNext(s, "Enter", v).nav == s.(isInDropdown := true, languageIndex := 0)
    ensures s.navIndex != 1 && v.navItems[s.navIndex].link.Some? ==>
      NavNext(s, "Enter", v) == Outcome(s, Navigate(v.navItems[s.navIndex].link.value))
  {
  }

  /** Every grid key keeps the selection on a card when there is one. */
  lemma GridKeepsSelection(s: Nav, key: string, v: View)
    requires !s.isInNav && s.selectedIndex < v.filteredCount
    ensures GridNext(s, key, v).nav.selectedIndex < v.filteredCount
  {
  }

  /** Grid Up: from the first row back to the nav bar with the selection kept, otherwise
      one row up. Grid Down moves a row down exactly when a card exists there. */
  lemma GridUpDown(s: Nav, v: View)
    requires !s.isInNav
    ensures s.selectedIndex < Columns ==> GridNext(s, "ArrowUp", v).nav == s.(isInNav := true)
    ensures s.selectedIndex >= Columns ==>
      GridNext(s, "ArrowUp", v).nav == s.(selectedIndex := s.selectedIndex - Columns)
    ensures GridNext(s, "ArrowDown", v).nav.selectedIndex ==
      if s.selectedIndex + Columns < v.filteredCount then s.selectedIndex + Columns else s.selectedIndex
  {
  }

  /** Left and Right never leave the row. */
  lemma GridLeftRightRow(s: Nav, v: View)
    requires !s.isInNav
    ensures GridNext(s, "ArrowLeft", v).nav.selectedIndex / Columns == s.selectedIndex / Columns
    ensures GridNext(s, "ArrowRight", v).nav.selectedIndex / Columns == s.selectedIndex / Columns
  {
  }

  /** Grid Enter opens the selected channel exactly when it exists; Escape and Back return
      to the nav bar. */
  lemma GridEnterBack(s: Nav, v: View)
    requires !s.isInNav
    ensures GridNext(s, "Enter", v).effect == OpenChannel(s.selectedIndex) <==> s.selectedIndex < v.filteredCount
    ensures GridNext(s, "Enter", v).effect == NoEffect <==> s.selectedIndex >= v.filteredCount
    ensures GridNext(s, "Escape", v).nav == s.(isInNav := true)
    ensures GridNext(s, "Back", v).nav == s.(isInNav := true)
  {
  }

  // ---------------------------------------------------------------------------
  // The module's variables
  // ---------------------------------------------------------------------------

  class Navigator {
    var isInNav: bool
    var isInDropdown: bool
    var navIndex: nat
    var languageIndex: nat
    var selectedIndex: nat

    function State(): Nav
      reads this
    {
      Nav(isInNav, isInDropdown, navIndex, languageIndex, selectedIndex)
    }

    constructor ()
      ensures State() == Initial
    {
      isInNav, isInDropdown, navIndex, languageIndex, selectedIndex := true, false, 0, 0, 0;
    }

    /** handleNavigation(event, ...). */
    method HandleNavigation(e: KeyEvent, v: View) returns (effect: Effect)
      modifies this
      ensures Outcome(State(), effect) == Next(old(State()), e, v)
    {
      var key := RemoteKey(e);
      if DigitRange(key) {
        return NumberInput(key);
      }
      if isInDropdown {
        effect := DropdownKey(key, v);
      } else if isInNav {
        effect := NavKey(key, v);
      } else {
        effect := GridKey(key, v);
      }
    }

    method DropdownKey(key: string, v: View) returns (effect: Effect)
      modifies this
      ensures Outcome(State(), effect) == DropdownNext(old(State()), key, v)
    {
      effect := NoEffect;
      if key == "ArrowUp" {
        if languageIndex > 0 {
          languageIndex := languageIndex - 1;
        }
      } else if key == "ArrowDown" {
        if languageIndex < |v.languageItems| - 1 {
          languageIndex := languageIndex + 1;
        }
      } else if key == "Enter" {
        if languageIndex < |v.languageItems| {
          effect := ApplyLanguage(v.languageItems[languageIndex]);
          isInDropdown := false;
        }
      } else if key == "Escape" || key == "Back" {
        isInDropdown := false;
      }
    }

    method NavKey(key: string, v: View) returns (effect: Effect)
      modifies this
      ensures Outcome(State(), effect) == NavNext(old(State()), key, v)
    {
      effect := NoEffect;
      if key == "ArrowLeft" {
        if navIndex > 0 {
          navIndex := navIndex - 1;
        }
      } else if key == "ArrowRight" {
        if navIndex < |v.navItems| - 1 {
          navIndex := navIndex + 1;
        }
      } else if key == "ArrowDown" {
        isInNav := false;
        selectedIndex := 0;
      } else if key == "Enter" {
        if navIndex == 1 {
          isInDropdown := true;
          languageIndex := 0;
        } else if navIndex < |v.navItems| {
          var item := v.navItems[navIndex];
          if item.link.Some? {
            return Navigate(item.link.value);
          }
          if item.caption.Some? {
            effect := CaptionTarget(AsciiLower(item.caption.value));
          }
        }
      }
    }

    method GridKey(key: string, v: View) returns (effect: Effect)
      modifies this
      ensures Outcome(State(), effect) == GridNext(old(State()), key, v)
    {
      effect := NoEffect;
      var total: int := v.filteredCount;
      var currentRow := selectedIndex / Columns;
      var currentCol := selectedIndex % Columns;
      if key == "ArrowUp" {
        if currentRow == 0 {
          isInNav := true;
        } else {
          var newIndex := selectedIndex - Columns;
          if newIndex >= 0 {
            selectedIndex := newIndex;
          }
        }
      } else if key == "ArrowDown" {
        var newIndex := selectedIndex + Columns;
        if newIndex < total {
          selectedIndex := newIndex;
        }
      } else if key == "ArrowLeft" {
        if currentCol > 0 {
          selectedIndex := selectedIndex - 1;
        }
      } else if key == "ArrowRight" {
        if currentCol < Columns - 1 && selectedIndex < total - 1 {
          selectedIndex := selectedIndex + 1;
        }
      } else if key == "Enter" {
        if selectedIndex < total {
          effect := OpenChannel(selectedIndex);
        }
      } else if key == "Escape" || key == "Back" {
        isInNav := true;
      }
    }
  }
}
