/**
 * ymt/player.js: the player page. Three focus columns (nav bar, category list, channel
 * list) sit beside the video; the lists can be hidden to leave the video full width, an
 * auto-hide timer hides them 4000 ms after the last key, and digits go to the number
 * tuner of ymt/channelInput.js. The same script also runs on pages without a video
 * element (`isPlayerPage` false), where most operations do nothing.
 *
 * `Page` is the module's state together with what the document shows of it (whether the
 * lists are displayed, the URL playing); `Next`, `AutoHideFired`, `PageCommitFired` and
 * `NumberHidden` are its transitions, and `PlayerPage` is the script with its variables.
 */
module Player {
  import opened JsBuiltins
  import opened JsArrays
  import opened M3uParser
  import opened KeyEvents
  import opened ChannelInput

  const LastColumn: nat := 2
  const AutoHideMs: nat := 4000
  const SelectedNoKey: string := "selectedChannelNo"
  const SelectedUrlKey: string := "selectedChannelUrl"

  // ---------------------------------------------------------------------------
  // The playlist copy and its category and language sets
  // ---------------------------------------------------------------------------

  function CategoryOf(c: Channel): string { c.category }
  function LanguageOf(c: Channel): string { c.language }

  /** The non-empty values of `f` over the channels, in channel order (repeats kept):
      what `if (value) set.add(value)` offers the set, channel by channel. */
  function Offered(cs: seq<Channel>, f: Channel -> string): (r: seq<string>)
    ensures forall x :: x in r ==> x != ""
    ensures forall i :: 0 <= i < |cs| && f(cs[i]) != "" ==> f(cs[i]) in r
    ensures forall x :: x in r ==> exists i :: 0 <= i < |cs| && f(cs[i]) == x
    decreases |cs|
  {
    if cs == [] then []
    else
      var init := cs[..|cs| - 1];
      var last := cs[|cs| - 1];
      var r := Offered(init, f) + (if f(last) != "" then [f(last)] else []);
      assert forall i :: 0 <= i < |init| ==> init[i] == cs[i];
      r
  }

  lemma OfferedSnoc(cs: seq<Channel>, c: Channel, f: Channel -> string)
    ensures Offered(cs + [c], f) == Offered(cs, f) + (if f(c) != "" then [f(c)] else [])
  {
    assert (cs + [c])[..|cs|] == cs;
  }

  /** The Set of categories (or languages) after the copy of parseM3U has run: each
      non-empty value of an emitted channel, once, in order of first appearance. */
  function SetOf(cs: seq<Channel>, f: Channel -> string): seq<string>
  {
    Unique(Offered(cs, f))
  }

  /** The sets hold exactly the non-empty values of emitted channels. */
  lemma SetOfMembers(cs: seq<Channel>, f: Channel -> string, x: string)
    ensures x in SetOf(cs, f) <==> x != "" && exists i :: 0 <= i < |cs| && f(cs[i]) == x
  {
    var offered := Offered(cs, f);
    if x in SetOf(cs, f) {
      assert x in offered;
    }
    if x != "" && exists i :: 0 <= i < |cs| && f(cs[i]) == x {
      var i :| 0 <= i < |cs| && f(cs[i]) == x;
      assert x in offered;
    }
  }

  /** The copy of parseM3U in ymt/player.js: the shared scan with the `[^"]*` logo
      pattern, adding the category and language of each emitted channel to the sets. */
  method ParseM3UWithSets(content: string) returns (channels: seq<Channel>, categories: seq<string>, languages: seq<string>)
    ensures channels == Parse(content, AnyLogo)
    ensures categories == SetOf(channels, CategoryOf)
    ensures languages == SetOf(channels, LanguageOf)
  {
    var lines := Split(content, '\n');
    channels, categories, languages := ScanLines(lines, Classified(lines, AnyLogo));
  }

  /** The loop of the copy, with the two sets beside the pending slot and the output. */
  method ScanLines(lines: seq<string>, ghost kinds: seq<LineKind>)
    returns (channels: seq<Channel>, categories: seq<string>, languages: seq<string>)
    requires kinds == Classified(lines, AnyLogo)
    ensures channels == Scan(kinds, |kinds|).channels
    ensures categories == SetOf(channels, CategoryOf)
    ensures languages == SetOf(channels, LanguageOf)
  {
    channels, categories, languages := [], [], [];
    var current: Option<Channel> := None;
    for i := 0 to |lines|
      invariant Scan(kinds, i) == ScanState(current, channels)
      invariant categories == SetOf(channels, CategoryOf)
      invariant languages == SetOf(channels, LanguageOf)
    {
      ClassifiedAt(lines, AnyLogo, i);
      current, channels, categories, languages := ReadLine(lines[i], current, channels, categories, languages);
    }
  }

  /** The loop body of the copy for one raw line. */
  method ReadLine(raw: string, current: Option<Channel>, channels: seq<Channel>, categories: seq<string>, languages: seq<string>)
    returns (current': Option<Channel>, channels': seq<Channel>, categories': seq<string>, languages': seq<string>)
    requires categories == SetOf(channels, CategoryOf) && languages == SetOf(channels, LanguageOf)
    ensures ScanState(current', channels') == Step(ScanState(current, channels), Classify(raw, AnyLogo))
    ensures categories' == SetOf(channels', CategoryOf) && languages' == SetOf(channels', LanguageOf)
  {
    current', channels' := M3uParser.ReadLine(raw, AnyLogo, current, channels);
    StepEmitsAtMostOne(ScanState(current, channels), Classify(raw, AnyLogo));
    categories', languages' := categories, languages;
    if channels' != channels {
      categories', languages' := AddToSets(channels, channels'[|channels'| - 1], categories, languages);
    }
  }

  /** A step of the scan emits nothing or one channel at the end. */
  lemma StepEmitsAtMostOne(st: ScanState, kind: LineKind)
    ensures var r := Step(st, kind).channels;
      r == st.channels || (r != [] && r == st.channels + [r[|r| - 1]])
  {
  }

  /** One more emitted channel: its non-empty value joins the set unless already there. */
  lemma SetOfSnoc(cs: seq<Channel>, c: Channel, f: Channel -> string)
    ensures SetOf(cs + [c], f) ==
      if f(c) == "" || f(c) in SetOf(cs, f) then SetOf(cs, f) else SetOf(cs, f) + [f(c)]
  {
    OfferedSnoc(cs, c, f);
    if f(c) != "" {
      UniqueSnoc(Offered(cs, f), f(c));
    } else {
      assert Offered(cs + [c], f) == Offered(cs, f);
    }
  }

  /** `if (category) categories.add(category)` and the same for the language. */
  method AddToSets(before: seq<Channel>, c: Channel, categories: seq<string>, languages: seq<string>)
    returns (categories': seq<string>, languages': seq<string>)
    requires categories == SetOf(before, CategoryOf) && languages == SetOf(before, LanguageOf)
    ensures categories' == SetOf(before + [c], CategoryOf)
    ensures languages' == SetOf(before + [c], LanguageOf)
  {
    SetOfSnoc(before, c, CategoryOf);
    SetOfSnoc(before, c, LanguageOf);
    categories', languages' := categories, languages;
    if c.category != "" && c.category !in categories {
      categories' := categories + [c.category];
    }
    if c.language != "" && c.language !in languages {
      languages' := languages + [c.language];
    }
  }

  // ---------------------------------------------------------------------------
  // The page state
  // ---------------------------------------------------------------------------

  /** What is fixed once the playlist has loaded: whether the page has a video element,
      the lower-cased captions of its nav items, the playlist and its two sets. */
  datatype Setup = Setup(
    isPlayerPage: bool,
    navLabels: seq<string>,
    channels: seq<Channel>,
    categories: seq<string>,
    languages: seq<string>)

  /** The channel list shown: `filteredChannels`, the section and its selections, and
      `currentChannelIndex`. */
  datatype View = View(
    filtered: seq<Channel>,
    section: string,
    currentCategory: string,
    currentLanguage: string,
    currentChannelIndex: nat)

  /** `activeColumn`, `currentNavIndex` and `currentCategoryIndex`. */
  datatype Focus = Focus(activeColumn: nat, navIndex: nat, categoryIndex: nat)

  /** The `listsVisible` flag, whether the lists are actually displayed, whether the
      auto-hide timer is armed, and the URL handed to the video element. */
  datatype Screen = Screen(listsVisible: bool, listsShown: bool, autoHideArmed: bool, playing: Option<string>)

  datatype Page = Page(
    setup: Setup,
    view: View,
    focus: Focus,
    screen: Screen,
    tuner: Tuner,
    storage: map<string, string>)

  datatype Effect = NoEffect | Navigate(href: string)

  datatype Outcome = Outcome(page: Page, effect: Effect)

  /** The list loadChannel and changeChannel index: the filtered list when it is
      non-empty, otherwise the whole playlist. */
  function Active(p: Page): seq<Channel>
  {
    if p.view.filtered != [] then p.view.filtered else p.setup.channels
  }

  /** The list and screen updates leave the setup, the focus, the tuner and the storage
      alone. */
  predicate Around(p: Page, r: Page)
  {
    r.setup == p.setup && r.focus == p.focus && r.tuner == p.tuner && r.storage == p.storage
  }

  /** On the player page, `listsVisible` says whether the lists are displayed, and a
      non-empty playlist always has its current channel inside the active list. */
  predicate Consistent(p: Page)
  {
    p.setup.isPlayerPage ==>
      p.screen.listsVisible == p.screen.listsShown &&
      (p.setup.channels != [] ==> p.view.currentChannelIndex < |Active(p)|)
  }

  /** The test of updateChannelList's filter for the current section. */
  predicate Keeps(section: string, category: string, language: string, c: Channel)
  {
    if section == "category" then c.category == category
    else if section == "language" then c.language == language
    else true
  }

  /** 'category' keeps the channels of the selected category, 'language' those of the
      selected language, any other section the whole playlist. */
  function Listed(channels: seq<Channel>, section: string, category: string, language: string): (r: seq<Channel>)
    ensures section == "category" ==> forall c :: c in r <==> c in channels && c.category == category
    ensures section == "language" ==> forall c :: c in r <==> c in channels && c.language == language
    ensures section != "category" && section != "language" ==> r == channels
  {
    var keep := (c: Channel) => Keeps(section, category, language, c);
    if section != "category" && section != "language" then
      FilterAll(channels, keep);
      Filter(channels, keep)
    else Filter(channels, keep)
  }

  /** The entries updateCategoriesList renders for the section (on the player page, the
      only one with a category list). */
  function Items(p: Page): seq<string>
  {
    if !p.setup.isPlayerPage then []
    else if p.view.section == "category" then p.setup.categories
    else if p.view.section == "language" then p.setup.languages
    else []
  }

  /** `item` is the selection of the view's section. */
  predicate Chosen(v: View, item: string)
  {
    (v.section == "category" ==> v.currentCategory == item) &&
    (v.section == "language" ==> v.currentLanguage == item)
  }

  /** resetAutoHideTimer() */
  function ResetAutoHide(p: Page): (r: Page)
    ensures r.(screen := p.screen) == p
    ensures r.screen == p.screen.(autoHideArmed := p.screen.autoHideArmed || p.setup.isPlayerPage)
  {
    if p.setup.isPlayerPage then p.(screen := p.screen.(autoHideArmed := true)) else p
  }

  /** toggleListsVisibility(show): display or hide the lists; showing restarts the
      auto-hide timer and hiding cancels it. */
  function Toggle(p: Page, show: bool): (r: Page)
    ensures r.(screen := p.screen) == p
    ensures p.setup.isPlayerPage ==>
      r.screen.listsVisible == show && r.screen.listsShown == show &&
      r.screen.autoHideArmed == show && r.screen.playing == p.screen.playing
    ensures !p.setup.isPlayerPage ==> r == p
  {
    if !p.setup.isPlayerPage then p
    else p.(screen := p.screen.(listsShown := show, autoHideArmed := show, listsVisible := show))
  }

  /** loadChannel(index): nothing happens for an index outside the active list; inside
      it the channel becomes current and plays, and lists marked hidden are hidden. */
  function ChannelLoaded(p: Page, index: int): (r: Page)
    ensures Around(p, r) && r.view.(currentChannelIndex := p.view.currentChannelIndex) == p.view
    ensures !p.setup.isPlayerPage || index < 0 || index >= |Active(p)| ==> r == p
    ensures p.setup.isPlayerPage && 0 <= index < |Active(p)| ==>
      r.view.currentChannelIndex == index && r.screen.playing == Some(Active(p)[index].url) &&
      r.screen.listsVisible == p.screen.listsVisible &&
      (if p.screen.listsVisible then r.screen.listsShown == p.screen.listsShown else !r.screen.listsShown)
    ensures Consistent(p) ==> Consistent(r)
  {
    var list := Active(p);
    if !p.setup.isPlayerPage || index < 0 || index >= |list| then p
    else
      var q := p.(view := p.view.(currentChannelIndex := index), screen := p.screen.(playing := Some(list[index].url)));
      if !q.screen.listsVisible then Toggle(q, false) else q
  }

  /** updateChannelList(): refilter by the section and start again at the first channel. */
  function ChannelListUpdated(p: Page): (r: Page)
    ensures Around(p, r)
    ensures !p.setup.isPlayerPage ==> r == p
    ensures p.setup.isPlayerPage ==>
      r.view == p.view.(filtered := Listed(p.setup.channels, p.view.section, p.view.currentCategory, p.view.currentLanguage),
                        currentChannelIndex := 0) &&
      (r.view.filtered != [] ==> r.screen.playing == Some(r.view.filtered[0].url))
    ensures Consistent(p) ==> Consistent(r)
  {
    if !p.setup.isPlayerPage then p
    else
      var q := p.(view := p.view.(filtered := Listed(p.setup.channels, p.view.section, p.view.currentCategory, p.view.currentLanguage),
                                  currentChannelIndex := 0));
      if q.view.filtered != [] then ChannelLoaded(q, 0) else q
  }

  /** updateNavSelection(): a nav item captioned 'language' or 'category' becomes the
      section with both selections cleared; on the player page the list is refiltered
      from its first channel and the section's entries are listed, elsewhere the list
      stays. Any other item changes nothing. */
  function NavSelectionUpdated(p: Page): (r: Page)
    ensures Around(p, r)
    ensures Consistent(p) ==> Consistent(r)
    ensures
      var labels := p.setup.navLabels;
      var i := p.focus.navIndex;
      if i < |labels| && labels[i] in {"language", "category"} then
        r.view.section == labels[i] && r.view.currentCategory == "" && r.view.currentLanguage == "" &&
        (p.setup.isPlayerPage ==>
          r.view.filtered == Listed(p.setup.channels, labels[i], "", "") && r.view.currentChannelIndex == 0 &&
          (r.view.filtered != [] ==> r.screen.playing == Some(r.view.filtered[0].url)) &&
          Items(r) == if labels[i] == "category" then p.setup.categories else p.setup.languages) &&
        (!p.setup.isPlayerPage ==> r.view.filtered == p.view.filtered)
      else r == p
  {
    if p.focus.navIndex < |p.setup.navLabels| &&
       (p.setup.navLabels[p.focus.navIndex] == "language" || p.setup.navLabels[p.focus.navIndex] == "category") then
      var q := p.(view := p.view.(section := p.setup.navLabels[p.focus.navIndex], currentCategory := "", currentLanguage := ""));
      if q.setup.isPlayerPage then ChannelListUpdated(q) else q
    else p
  }

  /** updateCategorySelection(): the highlighted entry becomes the section's selection,
      the other selection stays, and the list is refiltered to the channels of that
      entry, from its first channel. With no entry highlighted nothing changes. */
  function CategorySelectionUpdated(p: Page): (r: Page)
    ensures Around(p, r)
    ensures Consistent(p) ==> Consistent(r)
    ensures
      var items := Items(p);
      var i := p.focus.categoryIndex;
      if i < |items| then
        p.setup.isPlayerPage && r.view.section == p.view.section && Chosen(r.view, items[i]) &&
        (p.view.section == "category" ==>
          r.view.currentLanguage == p.view.currentLanguage &&
          forall c :: c in r.view.filtered <==> c in p.setup.channels && c.category == items[i]) &&
        (p.view.section == "language" ==>
          r.view.currentCategory == p.view.currentCategory &&
          forall c :: c in r.view.filtered <==> c in p.setup.channels && c.language == items[i]) &&
        r.view.currentChannelIndex == 0 &&
        (r.view.filtered != [] ==> r.screen.playing == Some(r.view.filtered[0].url))
      else r == p
  {
    var items := Items(p);
    if p.focus.categoryIndex < |items| then
      var item := items[p.focus.categoryIndex];
      var q := if p.view.section == "category" then p.(view := p.view.(currentCategory := item))
               else if p.view.section == "language" then p.(view := p.view.(currentLanguage := item))
               else p;
      if q.setup.isPlayerPage then ChannelListUpdated(q) else q
    else p
  }

  /** updateActiveColumn(): entering the category column of the player page highlights
      and applies its first entry; any other column change leaves the page as it was. */
  function ActiveColumnUpdated(p: Page): (r: Page)
    ensures r.setup == p.setup && r.tuner == p.tuner && r.storage == p.storage
    ensures r.focus == if p.setup.isPlayerPage && p.focus.activeColumn == 1 then p.focus.(categoryIndex := 0) else p.focus
    ensures Consistent(p) ==> Consistent(r)
    ensures
      (p.setup.isPlayerPage && p.focus.activeColumn == 1 && Items(p) != [] ==>
        r.focus.categoryIndex == 0 && r.view.section == p.view.section && Chosen(r.view, Items(p)[0]) &&
        r.view.filtered == Listed(p.setup.channels, p.view.section, r.view.currentCategory, r.view.currentLanguage) &&
        r.view.currentChannelIndex == 0) &&
      (p.setup.isPlayerPage && p.focus.activeColumn == 1 && Items(p) == [] ==>
        r == p.(focus := p.focus.(categoryIndex := 0))) &&
      (!(p.setup.isPlayerPage && p.focus.activeColumn == 1) ==> r == p)
  {
    if !p.setup.isPlayerPage then p
    else if p.focus.activeColumn == 1 then CategorySelectionUpdated(p.(focus := p.focus.(categoryIndex := 0)))
    else p
  }

  /** changeChannel(direction) AS WRITTEN: the flag is set before loading, which in the
      hidden mode marks the lists visible while they stay hidden. */
  function ChannelChangedAsWritten(p: Page, direction: int): (r: Page)
    ensures var n := p.view.currentChannelIndex + direction;
      if p.setup.isPlayerPage && 0 <= n < |Active(p)| then
        r.view.currentChannelIndex == n && r.screen.listsVisible && r.screen.listsShown == p.screen.listsShown
      else r == p
  {
    var n := p.view.currentChannelIndex + direction;
    if p.setup.isPlayerPage && 0 <= n < |Active(p)| then ChannelLoaded(p.(screen := p.screen.(listsVisible := true)), n) else p
  }

  /** changeChannel(direction) as the hidden mode needs it: the flag is left alone, so
      loadChannel keeps hidden lists hidden. */
  function ChannelChanged(p: Page, direction: int): (r: Page)
    ensures var n := p.view.currentChannelIndex + direction;
      if p.setup.isPlayerPage && 0 <= n < |Active(p)| then
        r.view.currentChannelIndex == n && r.screen.playing == Some(Active(p)[n].url)
      else r == p
    ensures Consistent(p) ==> Consistent(r)
  {
    var n := p.view.currentChannelIndex + direction;
    if p.setup.isPlayerPage && 0 <= n < |Active(p)| then ChannelLoaded(p, n) else p
  }

  /** playSelectedChannel(): play the channel chosen on the home page, by number, and
      forget the choice. */
  function PlaySelected(p: Page): (r: Page)
    ensures r.setup == p.setup && r.focus == p.focus && r.tuner == p.tuner
    ensures r.view.(currentChannelIndex := p.view.currentChannelIndex) == p.view
    ensures var chosen := SelectedNoKey in p.storage && SelectedUrlKey in p.storage &&
                          p.storage[SelectedNoKey] != "" && p.storage[SelectedUrlKey] != "";
      r.storage == if chosen then p.storage - {SelectedNoKey, SelectedUrlKey} else p.storage
    ensures Consistent(p) && Active(p) == p.setup.channels ==> Consistent(r)
  {
    if SelectedNoKey in p.storage && SelectedUrlKey in p.storage
       && p.storage[SelectedNoKey] != "" && p.storage[SelectedUrlKey] != "" then
      var no := ParseInt(p.storage[SelectedNoKey]);
      var k := FindIndex(p.setup.channels, (c: Channel) => NumberIs(c, no));
      var q := if k != -1 then ChannelLoaded(p.(view := p.view.(currentChannelIndex := k)), k) else p;
      q.(storage := q.storage - {SelectedNoKey, SelectedUrlKey})
    else p
  }

  /** The page state before the playlist is shown: the module's initial values. */
  function Fresh(isPlayerPage: bool, navLabels: seq<string>, channels: seq<Channel>, storage: map<string, string>): Page
  {
    Page(Setup(isPlayerPage, navLabels, channels, SetOf(channels, CategoryOf), SetOf(channels, LanguageOf)),
         View([], "home", "", "", 0), Focus(0, 0, 0), Screen(true, true, false, None),
         Tuner("", None, false, "", false, false), storage)
  }

  /** The page as the DOMContentLoaded handler leaves it, given the fetched text. */
  function Load(content: string, isPlayerPage: bool, navLabels: seq<string>, storage: map<string, string>): Page
  {
    var p := Fresh(isPlayerPage, navLabels, Parse(content, AnyLogo), storage);
    if isPlayerPage then PlaySelected(ActiveColumnUpdated(ChannelListUpdated(p))) else p
  }

  // ---------------------------------------------------------------------------
  // Keys
  // ---------------------------------------------------------------------------

  /** The digit test of handleNavigation: the string comparison on `event.key`, or a
      main-row or keypad key code. */
  predicate IsNumberKey(e: KeyEvent)
  {
    DigitRange(e.key) || (48 <= e.keyCode <= 57) || (96 <= e.keyCode <= 105)
  }

  /** The digit handed to the tuner: from the key code when it is a digit code, otherwise
      `event.key`. */
  function NumberKey(e: KeyEvent): string
  {
    if 48 <= e.keyCode <= 57 then NatToString(e.keyCode - 48)
    else if 96 <= e.keyCode <= 105 then NatToString(e.keyCode - 96)
    else e.key
  }

  /** The state a key finds after the auto-hide timer has been restarted. */
  function Touched(p: Page): Page
  {
    if p.setup.isPlayerPage && p.screen.listsVisible then ResetAutoHide(p) else p
  }

  /** handleNavigation(event), with the corrected changeChannel in the hidden mode. */
  function Next(p: Page, e: KeyEvent): (r: Outcome)
    ensures r.page.setup == p.setup
    ensures IsNumberKey(e) ==> r.effect == NoEffect
  {
    var q := Touched(p);
    if IsNumberKey(e) then
      Outcome(q.(tuner := Digit(q.tuner, NumberKey(e), q.setup.channels, q.setup.isPlayerPage)), NoEffect)
    else
      var key := RemoteKey(e);
      if q.setup.isPlayerPage && !q.screen.listsVisible then Outcome(HiddenNext(q, key), NoEffect)
      else ColumnNext(q, key)
  }

  /** handleNavigation(event) as written. */
  function NextAsWritten(p: Page, e: KeyEvent): (r: Outcome)
    ensures r.page.setup == p.setup
    ensures IsNumberKey(e) ==> r.effect == NoEffect
  {
    var q := Touched(p);
    if IsNumberKey(e) then
      Outcome(q.(tuner := Digit(q.tuner, NumberKey(e), q.setup.channels, q.setup.isPlayerPage)), NoEffect)
    else
      var key := RemoteKey(e);
      if q.setup.isPlayerPage && !q.screen.listsVisible then Outcome(HiddenNextAsWritten(q, key), NoEffect)
      else ColumnNext(q, key)
  }

  /** The hidden mode: Right shows the lists, Up and Down change the channel, any other
      key is ignored. */
  function HiddenNext(p: Page, key: string): (r: Page)
    ensures r.focus == p.focus
    ensures key != "ArrowRight" && key != "ArrowUp" && key != "ArrowDown" ==> r == p
    ensures Consistent(p) ==> Consistent(r)
  {
    if key == "ArrowRight" then Toggle(p, true)
    else if key == "ArrowUp" then ChannelChanged(p, -1)
    else if key == "ArrowDown" then ChannelChanged(p, 1)
    else p
  }

  function HiddenNextAsWritten(p: Page, key: string): (r: Page)
    ensures r.focus == p.focus
    ensures key != "ArrowRight" && key != "ArrowUp" && key != "ArrowDown" ==> r == p
  {
    if key == "ArrowRight" then Toggle(p, true)
    else if key == "ArrowUp" then ChannelChangedAsWritten(p, -1)
    else if key == "ArrowDown" then ChannelChangedAsWritten(p, 1)
    else p
  }

  /** The switch of handleNavigation. */
  function ColumnNext(p: Page, key: string): (r: Outcome)
    ensures r.page.setup == p.setup
  {
    if key == "ArrowLeft" then Outcome(LeftKey(p), NoEffect)
    else if key == "ArrowRight" then Outcome(RightKey(p), NoEffect)
    else if key == "ArrowUp" then Outcome(UpKey(p), NoEffect)
    else if key == "ArrowDown" then Outcome(DownKey(p), NoEffect)
    else if key == "Enter" then EnterKey(p)
    else if key == "Back" || key == "Escape" then BackKey(p)
    else Outcome(p, NoEffect)
  }

  /** Left: one column left from columns 1 and 2; in column 0 of the player page it hides
      the lists instead. */
  function LeftKey(p: Page): (r: Page)
    ensures r.setup == p.setup
    ensures r.focus.activeColumn ==
      if p.focus.activeColumn > 0 then p.focus.activeColumn - 1 else p.focus.activeColumn
    ensures p.focus.activeColumn == 0 && p.setup.isPlayerPage ==> !r.screen.listsVisible && !r.screen.listsShown
    ensures Consistent(p) ==> Consistent(r)
  {
    if p.focus.activeColumn == 0 && p.setup.isPlayerPage then
      Toggle(p.(screen := p.screen.(listsVisible := false)), false)
    else if p.focus.activeColumn > 0 then ActiveColumnUpdated(p.(focus := p.focus.(activeColumn := p.focus.activeColumn - 1)))
    else p
  }

  /** Right: one column right, only below column 2 and only on the player page. */
  function RightKey(p: Page): (r: Page)
    ensures r.setup == p.setup
    ensures r.focus.activeColumn ==
      if p.focus.activeColumn < LastColumn && p.setup.isPlayerPage then p.focus.activeColumn + 1 else p.focus.activeColumn
    ensures Consistent(p) ==> Consistent(r)
  {
    if p.focus.activeColumn < LastColumn && p.setup.isPlayerPage then
      ActiveColumnUpdated(p.(focus := p.focus.(activeColumn := p.focus.activeColumn + 1)))
    else p
  }

  /** Up moves the focused column's index one back unless it is at 0: the nav item,
      whose 'language' or 'category' caption then becomes the section; the category
      entry, which then becomes the selection; or, on the player page, the channel,
      which then plays with the lists marked visible. Nothing else moves. */
  function UpKey(p: Page): (r: Page)
    ensures r.setup == p.setup
    ensures r.focus.activeColumn == p.focus.activeColumn
    ensures Consistent(p) && (p.setup.isPlayerPage ==> p.screen.listsVisible) ==> Consistent(r)
    ensures
      var f := p.focus;
      var labels := p.setup.navLabels;
      var ci := p.view.currentChannelIndex;
      (f.activeColumn == 0 ==>
        r.focus == f.(navIndex := if f.navIndex > 0 then f.navIndex - 1 else f.navIndex) &&
        (0 < f.navIndex <= |labels| && labels[f.navIndex - 1] in {"language", "category"} ==>
          r.view.section == labels[f.navIndex - 1])) &&
      (f.activeColumn == 1 ==>
        r.focus == f.(categoryIndex := if f.categoryIndex > 0 then f.categoryIndex - 1 else f.categoryIndex) &&
        (0 < f.categoryIndex <= |Items(p)| ==> Chosen(r.view, Items(p)[f.categoryIndex - 1]))) &&
      (f.activeColumn == 2 && p.setup.isPlayerPage && ci > 0 ==>
        r.focus == f && r.view.currentChannelIndex == ci - 1 && r.screen.listsVisible &&
        (ci <= |Active(p)| ==> r.screen.playing == Some(Active(p)[ci - 1].url))) &&
      (f.activeColumn == 2 && !(p.setup.isPlayerPage && ci > 0) ==> r == p)
  {
    var f := p.focus;
    if f.activeColumn == 0 && f.navIndex > 0 then
      NavSelectionUpdated(p.(focus := f.(navIndex := f.navIndex - 1)))
    else if f.activeColumn == 1 && f.categoryIndex > 0 then
      CategorySelectionUpdated(p.(focus := f.(categoryIndex := f.categoryIndex - 1)))
    else if f.activeColumn == 2 && p.view.currentChannelIndex > 0 && p.setup.isPlayerPage then
      var i := p.view.currentChannelIndex - 1;
      ChannelLoaded(p.(view := p.view.(currentChannelIndex := i), screen := p.screen.(listsVisible := true)), i)
    else p
  }

  /** Down moves the focused column's index one on unless it is at the column's last
      item, with the same effects as Up. Nothing else moves. */
  function DownKey(p: Page): (r: Page)
    ensures r.setup == p.setup
    ensures r.focus.activeColumn == p.focus.activeColumn
    ensures Consistent(p) && (p.setup.isPlayerPage ==> p.screen.listsVisible) ==> Consistent(r)
    ensures
      var f := p.focus;
      var labels := p.setup.navLabels;
      var ci := p.view.currentChannelIndex;
      (f.activeColumn == 0 ==>
        r.focus == f.(navIndex := if f.navIndex < |labels| - 1 then f.navIndex + 1 else f.navIndex) &&
        (f.navIndex + 1 < |labels| && labels[f.navIndex + 1] in {"language", "category"} ==>
          r.view.section == labels[f.navIndex + 1])) &&
      (f.activeColumn == 1 ==>
        r.focus == f.(categoryIndex := if f.categoryIndex < |Items(p)| - 1 then f.categoryIndex + 1 else f.categoryIndex) &&
        (f.categoryIndex + 1 < |Items(p)| ==> Chosen(r.view, Items(p)[f.categoryIndex + 1]))) &&
      (f.activeColumn == 2 && p.setup.isPlayerPage && ci + 1 < |Active(p)| ==>
        r.focus == f && r.view.currentChannelIndex == ci + 1 && r.screen.listsVisible &&
        r.screen.playing == Some(Active(p)[ci + 1].url)) &&
      (f.activeColumn == 2 && !(p.setup.isPlayerPage && ci + 1 < |Active(p)|) ==> r == p)
  {
    var f := p.focus;
    if f.activeColumn == 0 && f.navIndex < |p.setup.navLabels| - 1 then
      NavSelectionUpdated(p.(focus := f.(navIndex := f.navIndex + 1)))
    else if f.activeColumn == 1 && f.categoryIndex < |Items(p)| - 1 then
      CategorySelectionUpdated(p.(focus := f.(categoryIndex := f.categoryIndex + 1)))
    else if f.activeColumn == 2 && p.view.currentChannelIndex < |Active(p)| - 1 && p.setup.isPlayerPage then
      var i := p.view.currentChannelIndex + 1;
      ChannelLoaded(p.(view := p.view.(currentChannelIndex := i), screen := p.screen.(listsVisible := true)), i)
    else p
  }

  /** navigateToPage(page): stop the video, then leave. */
  function Leave(p: Page, page: string): (r: Outcome)
    ensures r.effect == Navigate(page) && r.page.screen.playing.None?
    ensures r.page.(screen := p.screen) == p
  {
    Outcome(p.(screen := p.screen.(playing := None)), Navigate(page))
  }

  /** Enter leaves the page exactly when the nav column is focused on 'home', 'about' or
      'settings', or on 'language' or 'category' off the player page; leaving for home,
      about or settings stops the video. In the channel column of the player page it
      reloads the current channel with the lists hidden. Otherwise nothing happens. */
  function EnterKey(p: Page): (r: Outcome)
    ensures r.page.setup == p.setup
    ensures r.page.focus == p.focus
    ensures Consistent(p) && p.setup.channels != [] ==> Consistent(r.page)
    ensures
      var f := p.focus;
      var labels := p.setup.navLabels;
      var ci := p.view.currentChannelIndex;
      (r.effect.Navigate? <==>
        f.activeColumn == 0 && f.navIndex < |labels| &&
        (labels[f.navIndex] in {"home", "about", "settings"} ||
         (labels[f.navIndex] in {"language", "category"} && !p.setup.isPlayerPage))) &&
      (f.activeColumn == 0 && f.navIndex < |labels| ==>
        (labels[f.navIndex] == "home" ==> r.effect == Navigate("index.html") && r.page.screen.playing.None?) &&
        (labels[f.navIndex] == "about" ==> r.effect == Navigate("about.html") && r.page.screen.playing.None?) &&
        (labels[f.navIndex] == "settings" ==> r.effect == Navigate("settings.html") && r.page.screen.playing.None?) &&
        (labels[f.navIndex] in {"language", "category"} && !p.setup.isPlayerPage ==>
          r == Outcome(p, Navigate("player.html")))) &&
      (f.activeColumn == 2 && p.setup.isPlayerPage ==>
        r.effect == NoEffect && !r.page.screen.listsVisible && r.page.view.currentChannelIndex == ci &&
        (ci < |Active(p)| ==> r.page.screen.playing == Some(Active(p)[ci].url) && !r.page.screen.listsShown)) &&
      (r.effect.NoEffect? && !(f.activeColumn == 2 && p.setup.isPlayerPage) ==> r.page == p)
  {
    if p.focus.activeColumn == 0 then
      if p.focus.navIndex < |p.setup.navLabels| then
        var section := p.setup.navLabels[p.focus.navIndex];
        if section == "home" then Leave(p, "index.html")
        else if section == "about" then Leave(p, "about.html")
        else if section == "settings" then Leave(p, "settings.html")
        else if (section == "language" || section == "category") && !p.setup.isPlayerPage then Outcome(p, Navigate("player.html"))
        else Outcome(p, NoEffect)
      else Outcome(p, NoEffect)
    else if p.focus.activeColumn == 2 && p.setup.isPlayerPage then
      Outcome(ChannelLoaded(p.(screen := p.screen.(listsVisible := false)), p.view.currentChannelIndex), NoEffect)
    else Outcome(p, NoEffect)
  }

  /** Back and Escape: hide the lists on the player page, go home elsewhere. */
  function BackKey(p: Page): (r: Outcome)
    ensures r.page.setup == p.setup
    ensures r.page.focus == p.focus
    ensures p.setup.isPlayerPage ==> r.effect == NoEffect && !r.page.screen.listsVisible && !r.page.screen.listsShown
    ensures !p.setup.isPlayerPage ==> r.effect == Navigate("index.html")
    ensures Consistent(p) ==> Consistent(r.page)
  {
    if p.setup.isPlayerPage then Outcome(Toggle(p.(screen := p.screen.(listsVisible := false)), false), NoEffect)
    else Leave(p, "index.html")
  }

  // ---------------------------------------------------------------------------
  // Timers
  // ---------------------------------------------------------------------------

  /** The auto-hide timer expires: lists still marked visible are hidden. */
  function AutoHideFired(p: Page): (r: Page)
    ensures !r.screen.autoHideArmed
    ensures p.setup.isPlayerPage ==> !r.screen.listsVisible
    ensures Consistent(p) ==> Consistent(r)
  {
    var q := p.(screen := p.screen.(autoHideArmed := false));
    if q.screen.listsVisible then Toggle(q.(screen := q.screen.(listsVisible := false)), false) else q
  }

  /** `ch.channelNo === selectedChannel.channelNo` */
  predicate SameNumber(a: Option<JsNum>, b: Option<JsNum>)
  {
    (a.None? && b.None?) || (a.Some? && b.Some? && a.value.Num? && b.value.Num? && a.value.n == b.value.n)
  }

  /** The tuner's onChannelFound callback for an index into the whole playlist. */
  function Tuned(p: Page, k: nat): (r: Page)
    requires k < |p.setup.channels|
    ensures Consistent(p) ==> Consistent(r)
  {
    var q := FoundSelected(p, k);
    ChannelLoaded(q, q.view.currentChannelIndex)
  }

  /** The selection onChannelFound makes before loading: the first channel of the
      filtered list with the same number, or the channel itself with the filters
      dropped; with no filtered list, the channel itself. */
  function FoundSelected(p: Page, k: nat): Page
    requires k < |p.setup.channels|
  {
    var selected := p.setup.channels[k];
    if p.view.filtered != [] then
      var fi := FindIndex(p.view.filtered, (c: Channel) => SameNumber(c.channelNo, selected.channelNo));
      if fi != -1 then p.(view := p.view.(currentChannelIndex := fi))
      else p.(view := View(p.setup.channels, "home", "", "", k))
    else p.(view := p.view.(currentChannelIndex := k))
  }

  /** The tuner's commit timer expires. */
  function PageCommitFired(p: Page): (r: Page)
    requires p.tuner.commit.Some? && p.tuner.commit.value < |p.setup.channels|
    ensures r.tuner.buffer == "" && r.tuner.commit.None?
    ensures Consistent(p) ==> Consistent(r)
  {
    var (t, k) := ChannelInput.CommitFired(p.tuner);
    Tuned(p.(tuner := t), k)
  }

  /** The tuner's display timer expires. */
  function NumberHidden(p: Page): (r: Page)
    ensures r == p.(tuner := HideFired(p.tuner))
  {
    p.(tuner := HideFired(p.tuner))
  }

  // ---------------------------------------------------------------------------
  // Properties of the key handler
  // ---------------------------------------------------------------------------

  /** An armed commit names a channel of the playlist. */
  predicate CommitInRange(p: Page)
  {
    p.tuner.commit.Some? ==> p.tuner.commit.value < |p.setup.channels|
  }

  /** A digit key, typed or from the keypad, only feeds the tuner (and restarts the
      auto-hide timer); whatever the focus, no list, column or channel changes. */
  lemma NumberKeysOnlyTune(p: Page, e: KeyEvent)
    requires IsNumberKey(e)
    ensures var r := Next(p, e);
      r.effect == NoEffect &&
      r.page.(tuner := p.tuner, screen := p.screen) == p &&
      r.page.screen == Touched(p).screen &&
      r.page.tuner == Digit(p.tuner, NumberKey(e), p.setup.channels, p.setup.isPlayerPage)
  {
  }

  /** Key codes 48-57 and 96-105 feed the tuner the digit they stand for, whatever
      `event.key` says. */
  lemma NumberKeyCodes(e: KeyEvent)
    ensures 48 <= e.keyCode <= 57 ==> IsNumberKey(e) && NumberKey(e) == [DigitChar(e.keyCode - 48)]
    ensures 96 <= e.keyCode <= 105 ==> IsNumberKey(e) && NumberKey(e) == [DigitChar(e.keyCode - 96)]
    ensures IsNumberKey(e) && !(48 <= e.keyCode <= 57) && !(96 <= e.keyCode <= 105) ==> NumberKey(e) == e.key && DigitRange(e.key)
  {
  }



  /** The focused column stays one of the three columns, and Left and Right move it by
      one within them; no other key moves it. */
  lemma ActiveColumnInRange(p: Page, e: KeyEvent)
    requires p.focus.activeColumn <= LastColumn
    ensures var r := Next(p, e).page;
      r.focus.activeColumn <= LastColumn &&
      ((IsNumberKey(e) || (p.setup.isPlayerPage && !p.screen.listsVisible) ||
        RemoteKey(e) !in {"ArrowLeft", "ArrowRight"}) ==> r.focus.activeColumn == p.focus.activeColumn)
  {
    var q := Touched(p);
    if !IsNumberKey(e) && !(q.setup.isPlayerPage && !q.screen.listsVisible) {
      var key := RemoteKey(e);
      if key == "Enter" { assert EnterKey(q).page.focus == q.focus; }
      else if key == "Back" || key == "Escape" { assert BackKey(q).page.focus == q.focus; }
    }
  }

  /** With the lists showing, Right moves one column right below the last column of the
      player page, and Left moves one column left from any column but the first. */
  lemma ColumnKeys(p: Page, e: KeyEvent)
    requires !IsNumberKey(e) && !(p.setup.isPlayerPage && !p.screen.listsVisible)
    ensures RemoteKey(e) == "ArrowRight" ==>
      Next(p, e).page.focus.activeColumn ==
        if p.focus.activeColumn < LastColumn && p.setup.isPlayerPage then p.focus.activeColumn + 1 else p.focus.activeColumn
    ensures RemoteKey(e) == "ArrowLeft" && p.focus.activeColumn > 0 ==>
      Next(p, e).page.focus.activeColumn == p.focus.activeColumn - 1
    ensures RemoteKey(e) == "ArrowLeft" && p.focus.activeColumn == 0 && p.setup.isPlayerPage ==>
      !Next(p, e).page.screen.listsVisible && !Next(p, e).page.screen.listsShown
  {
  }

  /** With the lists hidden on the player page, every key but a digit, Right, Up and
      Down leaves the page as it was. */
  lemma HiddenModeIgnores(p: Page, e: KeyEvent)
    requires p.setup.isPlayerPage && !p.screen.listsVisible && !IsNumberKey(e)
    requires RemoteKey(e) !in {"ArrowRight", "ArrowUp", "ArrowDown"}
    ensures Next(p, e) == Outcome(p, NoEffect)
  {
  }

  /** In the hidden mode Up and Down play the neighbouring channel and keep the lists
      hidden; Right then shows them, with the focus where it was. */
  lemma HiddenChannelChange(p: Page, e: KeyEvent, right: KeyEvent)
    requires p.setup.isPlayerPage && !p.screen.listsVisible && !p.screen.listsShown && !IsNumberKey(e)
    requires RemoteKey(e) == "ArrowDown" && p.view.currentChannelIndex + 1 < |Active(p)|
    requires !IsNumberKey(right) && RemoteKey(right) == "ArrowRight"
    ensures var r := Next(p, e).page;
      r.view.currentChannelIndex == p.view.currentChannelIndex + 1 &&
      r.screen.playing == Some(Active(p)[p.view.currentChannelIndex + 1].url) &&
      !r.screen.listsVisible && !r.screen.listsShown &&
      var s := Next(r, right).page;
      s.screen.listsVisible && s.screen.listsShown && s.focus == p.focus
  {
  }

  /** The page model runs the corrected changeChannel. The code as written differs from it
      only on Up and Down while the lists are hidden, and there only in the screen's flags:
      the same channel plays, with the lists marked visible although they stay hidden. */
  lemma NextAsWrittenAgrees(p: Page, e: KeyEvent)
    ensures var hiddenUpDown := !IsNumberKey(e) && p.setup.isPlayerPage && !p.screen.listsVisible &&
        (RemoteKey(e) == "ArrowUp" || RemoteKey(e) == "ArrowDown");
      var w, c := NextAsWritten(p, e), Next(p, e);
      (!hiddenUpDown ==> w == c) &&
      (hiddenUpDown ==>
        w.effect == c.effect && w.page.(screen := c.page.screen) == c.page &&
        w.page.screen.playing == c.page.screen.playing &&
        (w.page != c.page ==> w.page.screen.listsVisible && !c.page.screen.listsVisible))
  {
  }

  /** As written, the same Down marks the lists visible while they stay hidden, so the
      following Right moves the invisible focus to the next column instead of showing
      the lists. */
  lemma HiddenChannelChangeAsWritten(p: Page, e: KeyEvent, right: KeyEvent)
    requires p.setup.isPlayerPage && !p.screen.listsVisible && !p.screen.listsShown && !IsNumberKey(e)
    requires RemoteKey(e) == "ArrowDown" && p.view.currentChannelIndex + 1 < |Active(p)|
    requires !IsNumberKey(right) && RemoteKey(right) == "ArrowRight" && p.focus.activeColumn == 0
    ensures var r := NextAsWritten(p, e).page;
      r.screen.listsVisible && !r.screen.listsShown && !Consistent(r) &&
      var s := NextAsWritten(r, right).page;
      !s.screen.listsShown && s.focus.activeColumn == 1
  {
    assert Touched(p) == p;
    var r := ChannelChangedAsWritten(p, 1);
    assert NextAsWritten(p, e).page == r;
    RightWithListsMarked(r, right);
  }

  /** Right on the player page with the lists marked visible but not shown moves the
      focus from the first column to the second and leaves the lists unshown. */
  lemma RightWithListsMarked(r: Page, right: KeyEvent)
    requires r.setup.isPlayerPage && r.screen.listsVisible && !r.screen.listsShown && r.focus.activeColumn == 0
    requires !IsNumberKey(right) && RemoteKey(right) == "ArrowRight"
    ensures var s := NextAsWritten(r, right).page;
      !s.screen.listsShown && s.focus.activeColumn == 1
  {
    var q := Touched(r);
    assert q.screen == r.screen.(autoHideArmed := q.screen.autoHideArmed) && q.focus == r.focus && q.setup == r.setup;
    ColumnModeAsWritten(r, right);
    RightKeepsLists(q);
  }

  /** Outside the hidden mode a key that is no digit goes to the column handlers. */
  lemma ColumnModeAsWritten(p: Page, e: KeyEvent)
    requires !IsNumberKey(e)
    requires var q := Touched(p); !(q.setup.isPlayerPage && !q.screen.listsVisible)
    ensures NextAsWritten(p, e) == ColumnNext(Touched(p), RemoteKey(e))
  {
  }

  /** Right from the first column with the lists visible moves to the second column and
      leaves the lists as they were. */
  lemma RightKeepsLists(q: Page)
    requires q.setup.isPlayerPage && q.screen.listsVisible && q.focus.activeColumn == 0
    ensures var s := RightKey(q);
      s.screen.listsShown == q.screen.listsShown && s.focus.activeColumn == 1
  {
    var moved := q.(focus := q.focus.(activeColumn := 1));
    assert RightKey(q) == ActiveColumnUpdated(moved);
    ColumnUpdateKeepsLists(moved);
  }

  /** With the lists visible, refiltering leaves them visible and shown as they were. */
  lemma ListUpdateKeepsLists(p: Page)
    requires p.screen.listsVisible
    ensures var r := ChannelListUpdated(p);
      r.screen.listsVisible && r.screen.listsShown == p.screen.listsShown
  {
    if p.setup.isPlayerPage {
      var q := p.(view := p.view.(filtered := Listed(p.setup.channels, p.view.section, p.view.currentCategory, p.view.currentLanguage),
                                  currentChannelIndex := 0));
      assert q.screen == p.screen;
      if q.view.filtered != [] {
        assert ChannelListUpdated(p) == ChannelLoaded(q, 0);
      }
    }
  }

  /** With the lists visible, updateActiveColumn leaves them visible and shown as they
      were. */
  lemma ColumnUpdateKeepsLists(p: Page)
    requires p.screen.listsVisible
    ensures var r := ActiveColumnUpdated(p);
      r.screen.listsVisible && r.screen.listsShown == p.screen.listsShown
  {
    if p.setup.isPlayerPage && p.focus.activeColumn == 1 {
      var p1 := p.(focus := p.focus.(categoryIndex := 0));
      var items := Items(p1);
      if p1.focus.categoryIndex < |items| {
        var item := items[p1.focus.categoryIndex];
        var q := if p1.view.section == "category" then p1.(view := p1.view.(currentCategory := item))
                 else if p1.view.section == "language" then p1.(view := p1.view.(currentLanguage := item))
                 else p1;
        assert CategorySelectionUpdated(p1) == ChannelListUpdated(q);
        ListUpdateKeepsLists(q);
      }
    }
  }

  /** The page before the player starts, built from what the parse returned. */
  lemma FreshFromParsed(content: string, isPlayerPage: bool, navLabels: seq<string>, storage: map<string, string>,
                        channels: seq<Channel>, categories: seq<string>, languages: seq<string>)
    requires channels == Parse(content, AnyLogo)
    requires categories == SetOf(channels, CategoryOf) && languages == SetOf(channels, LanguageOf)
    ensures Fresh(isPlayerPage, navLabels, Parse(content, AnyLogo), storage) ==
      Page(Setup(isPlayerPage, navLabels, channels, categories, languages),
           View([], "home", "", "", 0), Focus(0, 0, 0), Screen(true, true, false, None),
           Tuner("", None, false, "", false, false), storage)
  {
  }

  /** A key keeps the page consistent as long as the playlist is not empty. */
  lemma NextKeepsConsistent(p: Page, e: KeyEvent)
    requires Consistent(p) && p.setup.channels != []
    ensures Consistent(Next(p, e).page)
  {
    var q := Touched(p);
    assert Consistent(q);
    if !IsNumberKey(e) && !(q.setup.isPlayerPage && !q.screen.listsVisible) {
      var key := RemoteKey(e);
      if key == "Enter" { assert Consistent(EnterKey(q).page); }
      else if key == "Back" || key == "Escape" { assert Consistent(BackKey(q).page); }
    }
  }

  /** A key keeps the armed commit inside the playlist. */
  lemma NextKeepsCommitInRange(p: Page, e: KeyEvent)
    requires CommitInRange(p)
    ensures CommitInRange(Next(p, e).page)
  {
    var q := Touched(p);
    if IsNumberKey(e) {
      var t := Digit(q.tuner, NumberKey(e), q.setup.channels, q.setup.isPlayerPage);
      assert Next(p, e).page == q.(tuner := t);
      DigitCommitInRange(q.tuner, NumberKey(e), q.setup.channels, q.setup.isPlayerPage);
    } else {
      var key := RemoteKey(e);
      if q.setup.isPlayerPage && !q.screen.listsVisible {
        assert Next(p, e).page == HiddenNext(q, key);
        HiddenKeepsTuner(q, key);
      } else {
        assert Next(p, e).page == ColumnNext(q, key).page;
        ColumnKeepsTuner(q, key);
      }
    }
  }

  /** A key of the hidden mode leaves the tuner alone. */
  lemma HiddenKeepsTuner(p: Page, key: string)
    ensures HiddenNext(p, key).tuner == p.tuner
  {
    if key == "ArrowUp" || key == "ArrowDown" {
      assert HiddenNext(p, key) == ChannelChanged(p, if key == "ArrowUp" then -1 else 1);
    }
  }

  /** A key of the column mode leaves the tuner alone. */
  lemma ColumnKeepsTuner(p: Page, key: string)
    ensures ColumnNext(p, key).page.tuner == p.tuner
  {
    if key == "Enter" { assert EnterKey(p).page.tuner == p.tuner; }
    else if key == "Back" || key == "Escape" { assert BackKey(p).page.tuner == p.tuner; }
  }

  /** A committed number plays a channel with that number: the first such channel of
      the filtered list when it has one, otherwise the channel itself, with the filter
      dropped when the filtered list lacks it. */
  lemma TunedSelection(p: Page, k: nat)
    requires k < |p.setup.channels| && p.setup.isPlayerPage
    ensures var r := Tuned(p, k);
      var no := p.setup.channels[k].channelNo;
      (r.screen.playing == Some(p.setup.channels[k].url) && (r.view.filtered == p.view.filtered || r.view.filtered == p.setup.channels)) ||
      (exists i :: 0 <= i < |p.view.filtered| && SameNumber(p.view.filtered[i].channelNo, no) &&
                   r.screen.playing == Some(p.view.filtered[i].url) && r.view.currentChannelIndex == i)
  {
    var selected := p.setup.channels[k];
    if p.view.filtered != [] {
      var fi := FindIndex(p.view.filtered, (c: Channel) => SameNumber(c.channelNo, selected.channelNo));
      if fi != -1 {
        assert SameNumber(p.view.filtered[fi].channelNo, selected.channelNo);
      }
    }
  }

  /** The page the playlist loads into is consistent, with nothing armed; on the player
      page the whole playlist is listed and, unless it is empty, a channel plays. */
  lemma LoadConsistent(content: string, isPlayerPage: bool, navLabels: seq<string>, storage: map<string, string>)
    ensures var p := Load(content, isPlayerPage, navLabels, storage);
      Consistent(p) && CommitInRange(p) && p.focus == Focus(0, 0, 0) &&
      (isPlayerPage ==> p.view.filtered == p.setup.channels &&
                        (p.setup.channels != [] ==> p.screen.playing.Some?))
  {
    if isPlayerPage {
      ShowPlaylist(Fresh(isPlayerPage, navLabels, Parse(content, AnyLogo), storage));
    }
  }

  lemma ShowPlaylist(p0: Page)
    requires p0.setup.isPlayerPage && p0.view == View([], "home", "", "", 0) && p0.focus == Focus(0, 0, 0)
    requires p0.screen.listsVisible && p0.screen.listsShown && p0.tuner.commit.None?
    ensures var p := PlaySelected(ActiveColumnUpdated(ChannelListUpdated(p0)));
      Consistent(p) && CommitInRange(p) && p.focus == Focus(0, 0, 0) &&
      p.view.filtered == p.setup.channels &&
      (p.setup.channels != [] ==> p.screen.playing.Some?)
  {
    var p1 := ChannelListUpdated(p0);
    assert p1.view.filtered == p0.setup.channels;
    var p2 := ActiveColumnUpdated(p1);
    assert p2 == p1;
    assert Active(p2) == p2.setup.channels;
  }

  /** Each timer keeps the page consistent. */
  lemma TimersKeepConsistent(p: Page)
    requires Consistent(p) && CommitInRange(p)
    ensures Consistent(AutoHideFired(p)) && Consistent(NumberHidden(p))
    ensures p.tuner.commit.Some? ==> Consistent(PageCommitFired(p)) && CommitInRange(PageCommitFired(p))
  {
    if p.tuner.commit.Some? {
      var (t, k) := ChannelInput.CommitFired(p.tuner);
      assert Tuned(p.(tuner := t), k).tuner == t;
    }
  }

  // ---------------------------------------------------------------------------
  // Gamepad buttons
  // ---------------------------------------------------------------------------

  /** handleGamepadButton(j): the key event a standard-mapping button stands for. */
  function ButtonKey(j: nat): (r: Option<KeyEvent>)
    ensures r.Some? <==> j in {0, 1, 12, 13, 14, 15}
    ensures j == 0 ==> r.Some? && RemoteKey(r.value) == "Enter"
    ensures j == 1 ==> r.Some? && RemoteKey(r.value) == "Back"
    ensures j == 12 ==> r.Some? && RemoteKey(r.value) == "ArrowUp"
    ensures j == 13 ==> r.Some? && RemoteKey(r.value) == "ArrowDown"
    ensures j == 14 ==> r.Some? && RemoteKey(r.value) == "ArrowLeft"
    ensures j == 15 ==> r.Some? && RemoteKey(r.value) == "ArrowRight"
  {
    var r := if j == 0 then Some(KeyEvent("Enter", 13))
      else if j == 1 then Some(KeyEvent("Back", 27))
      else if j == 12 then Some(KeyEvent("ArrowUp", 38))
      else if j == 13 then Some(KeyEvent("ArrowDown", 40))
      else if j == 14 then Some(KeyEvent("ArrowLeft", 37))
      else if j == 15 then Some(KeyEvent("ArrowRight", 39))
      else None;
    r
  }

  /** The words the buttons stand for fail the digit test. */
  lemma ButtonWordsAreNotDigits()
    ensures !DigitRange("Enter") && !DigitRange("Back") && !DigitRange("ArrowUp")
    ensures !DigitRange("ArrowDown") && !DigitRange("ArrowLeft") && !DigitRange("ArrowRight")
  {
    DigitRangeChars("Enter");
    DigitRangeChars("Back");
    DigitRangeChars("ArrowUp");
    DigitRangeChars("ArrowDown");
    DigitRangeChars("ArrowLeft");
    DigitRangeChars("ArrowRight");
  }

  /** No button stands for a digit key. */
  lemma ButtonKeyNotDigit(j: nat)
    ensures ButtonKey(j).Some? ==> !IsNumberKey(ButtonKey(j).value)
  {
    ButtonWordsAreNotDigits();
  }

  /** One gamepad as `navigator.getGamepads()` reports it: its index and the pressed
      flags of its buttons. */
  datatype Pad = Pad(index: int, buttons: seq<bool>)

  /** Whether the remembered state has button `j` down (an element past the end reads as
      `undefined`, which is falsy). */
  predicate WasPressed(prev: seq<bool>, j: nat)
  {
    j < |prev| && prev[j]
  }

  /** The buttons among the first `n` that are down now and were not down before, in
      button order. */
  function JustPressed(prev: seq<bool>, now: seq<bool>, n: nat): (r: seq<nat>)
    requires n <= |now|
    ensures forall k :: 0 <= k < |r| ==> r[k] < n
    ensures forall k, l :: 0 <= k < l < |r| ==> r[k] < r[l]
  {
    if n == 0 then []
    else JustPressed(prev, now, n - 1) + (if now[n - 1] && !WasPressed(prev, n - 1) then [n - 1] else [])
  }

  /** The remembered flags after a poll: the new flags, and past their end whatever was
      remembered before. */
  function Remember(prev: seq<bool>, now: seq<bool>): seq<bool>
  {
    if |prev| > |now| then now + prev[|now|..] else now
  }

  function Falses(n: nat): (r: seq<bool>)
    ensures |r| == n && forall k :: 0 <= k < n ==> !r[k]
  {
    seq(n, k => false)
  }

  /** The remembered flags of a gamepad before a poll: all up for one seen first. */
  function Previous(state: map<int, seq<bool>>, pad: Pad): seq<bool>
  {
    if pad.index in state then state[pad.index] else Falses(|pad.buttons|)
  }

  /** One pass of checkGamepads over the reported list: the new state and the buttons
      handed to handleGamepadButton, in order. */
  function PollAll(state: map<int, seq<bool>>, pads: seq<Option<Pad>>): (map<int, seq<bool>>, seq<nat>)
  {
    if pads == [] then (state, [])
    else
      var (state', fired) := PollAll(state, pads[..|pads| - 1]);
      match pads[|pads| - 1]
      case None => (state', fired)
      case Some(pad) =>
        var prev := Previous(state', pad);
        (state'[pad.index := Remember(prev, pad.buttons)], fired + JustPressed(prev, pad.buttons, |pad.buttons|))
  }

  /** A button fires exactly when it is down now and was not down at the last poll. */
  lemma {:induction false} JustPressedMembers(prev: seq<bool>, now: seq<bool>, n: nat, j: nat)
    requires n <= |now|
    ensures j in JustPressed(prev, now, n) <==> j < n && now[j] && !WasPressed(prev, j)
  {
    if n > 0 {
      JustPressedMembers(prev, now, n - 1, j);
    }
  }

  /** Holding a button down fires it once: polling the same flags again fires nothing. */
  lemma {:induction false} HeldButtonsFireOnce(prev: seq<bool>, now: seq<bool>, n: nat)
    requires n <= |now|
    ensures JustPressed(Remember(prev, now), now, n) == []
  {
    if n > 0 {
      HeldButtonsFireOnce(prev, now, n - 1);
      assert WasPressed(Remember(prev, now), n - 1) == now[n - 1];
    }
  }

  /** A pad seen for the first time fires every button it has down. */
  lemma FirstPollFiresPressed(state: map<int, seq<bool>>, pad: Pad, j: nat)
    requires pad.index !in state
    ensures j in JustPressed(Previous(state, pad), pad.buttons, |pad.buttons|) <==> j < |pad.buttons| && pad.buttons[j]
  {
    JustPressedMembers(Previous(state, pad), pad.buttons, |pad.buttons|, j);
  }

  /** The `gamepadState` dictionary of setupGamepadSupport. */
  class GamepadPoller {
    var gamepadState: map<int, seq<bool>>

    constructor ()
      ensures gamepadState == map[]
    {
      gamepadState := map[];
    }

    /** checkGamepads(), one animation frame: the buttons to hand to
        handleGamepadButton, in order. */
    method CheckGamepads(pads: seq<Option<Pad>>) returns (fired: seq<nat>)
      modifies this
      ensures (gamepadState, fired) == PollAll(old(gamepadState), pads)
    {
      fired := [];
      for i := 0 to |pads|
        invariant (gamepadState, fired) == PollAll(old(gamepadState), pads[..i])
      {
        assert pads[..i + 1][..i] == pads[..i];
        if pads[i].Some? {
          var more := CheckButtons(pads[i].value);
          fired := fired + more;
        }
      }
      assert pads[..|pads|] == pads;
    }

    /** The button loop for one gamepad. */
    method CheckButtons(pad: Pad) returns (fired: seq<nat>)
      modifies this
      ensures var prev := Previous(old(gamepadState), pad);
        gamepadState == old(gamepadState)[pad.index := Remember(prev, pad.buttons)] &&
        fired == JustPressed(prev, pad.buttons, |pad.buttons|)
    {
      if pad.index !in gamepadState {
        gamepadState := gamepadState[pad.index := Falses(|pad.buttons|)];
      }
      var buttons;
      buttons, fired := ButtonLoop(gamepadState[pad.index], pad.buttons);
      gamepadState := gamepadState[pad.index := buttons];
    }
  }

  /** The loop over the buttons of one gamepad whose remembered flags are `prev`: the
      flags it leaves remembered and the buttons that fired. The source writes each flag
      into the remembered array as it goes; nothing reads that array inside the loop, so
      the array is stored back once, after it. */
  method ButtonLoop(prev: seq<bool>, now: seq<bool>) returns (buttons: seq<bool>, fired: seq<nat>)
    ensures buttons == Remember(prev, now)
    ensures fired == JustPressed(prev, now, |now|)
  {
    buttons := prev;
    assert Remember(prev, now[..0]) == prev;
    fired := [];
    for j := 0 to |now|
      invariant buttons == Remember(prev, now[..j])
      invariant fired == JustPressed(prev, now, j)
    {
      var pressed := now[j];
      RememberStep(prev, now, j);
      JustPressedStep(prev, now, j, buttons);
      if pressed && !(j < |buttons| && buttons[j]) {
        fired := fired + [j];
      }
      buttons := Store(buttons, j, pressed);
    }
    assert now[..|now|] == now;
  }

  /** `buttons[j] = pressed` on a JavaScript array, which grows when `j` is its length. */
  function Store(buttons: seq<bool>, j: nat, pressed: bool): (r: seq<bool>)
    requires j <= |buttons|
    ensures |r| == if j < |buttons| then |buttons| else j + 1
    ensures r[j] == pressed && forall k :: 0 <= k < |r| && k != j ==> r[k] == buttons[k]
  {
    if j < |buttons| then buttons[j := pressed] else buttons + [pressed]
  }

  /** Button `j` fires when it is down and the flags remembered so far do not have it down. */
  lemma JustPressedStep(prev: seq<bool>, now: seq<bool>, j: nat, buttons: seq<bool>)
    requires j < |now| && buttons == Remember(prev, now[..j])
    ensures JustPressed(prev, now, j + 1) ==
      JustPressed(prev, now, j) + (if now[j] && !(j < |buttons| && buttons[j]) then [j] else [])
  {
    RememberStep(prev, now, j);
  }

  lemma RememberStep(prev: seq<bool>, now: seq<bool>, j: nat)
    requires j < |now|
    ensures Store(Remember(prev, now[..j]), j, now[j]) == Remember(prev, now[..j + 1])
    ensures j < |Remember(prev, now[..j])| <==> j < |prev|
    ensures j < |prev| ==> Remember(prev, now[..j])[j] == prev[j]
  {
    var a := Store(Remember(prev, now[..j]), j, now[j]);
    var b := Remember(prev, now[..j + 1]);
    assert |a| == |b|;
    forall k | 0 <= k < |a|
      ensures a[k] == b[k]
    {
    }
  }

  // ---------------------------------------------------------------------------
  // The page's module state
  // ---------------------------------------------------------------------------

  /** The module-level variables of the player page, the parts of the DOM the handlers
      read (the nav captions, whether the lists are displayed, the URL the video element
      plays), the two `localStorage` keys and the number tuner. */
  class PlayerPage {
    const isPlayerPage: bool
    const navLabels: seq<string>
    const channels: seq<Channel>
    const categories: seq<string>
    const languages: seq<string>
    const tuner: NumberTuner
    var currentChannelIndex: nat
    var filteredChannels: seq<Channel>
    var currentSection: string
    var currentCategory: string
    var currentLanguage: string
    var activeColumn: nat
    var currentNavIndex: nat
    var currentCategoryIndex: nat
    var listsVisible: bool
    var listsShown: bool
    var autoHideArmed: bool
    var playing: Option<string>
    var storage: map<string, string>

    function State(): Page
      reads this, tuner
    {
      Page(Setup(isPlayerPage, navLabels, channels, categories, languages),
           View(filteredChannels, currentSection, currentCategory, currentLanguage, currentChannelIndex),
           Focus(activeColumn, currentNavIndex, currentCategoryIndex),
           Screen(listsVisible, listsShown, autoHideArmed, playing),
           tuner.State(), storage)
    }

    /** The DOMContentLoaded handler, given the fetched playlist text, whether the page
        has a video element, the nav captions and the stored choice. */
    constructor (content: string, hasVideo: bool, labels: seq<string>, saved: map<string, string>)
      ensures State() == Load(content, hasVideo, labels, saved)
      ensures tuner.videoSection == isPlayerPage && fresh(tuner)
    {
      isPlayerPage := hasVideo;
      navLabels := labels;
      var parsed, cats, langs := ParseM3UWithSets(content);
      channels, categories, languages := parsed, cats, langs;
      tuner := new NumberTuner(hasVideo);
      currentChannelIndex, filteredChannels := 0, [];
      currentSection, currentCategory, currentLanguage := "home", "", "";
      activeColumn, currentNavIndex, currentCategoryIndex := 0, 0, 0;
      listsVisible, listsShown, autoHideArmed, playing := true, true, false, None;
      storage := saved;
      new;
      FreshFromParsed(content, hasVideo, labels, saved, parsed, cats, langs);
      assert State() == Fresh(hasVideo, labels, Parse(content, AnyLogo), saved);
      if isPlayerPage {
        StartPlayer();
      }
    }

    /** The player-page part of the DOMContentLoaded listener: list the channels, apply
        the focused column and play the selection. */
    method StartPlayer()
      modifies this
      ensures State() == PlaySelected(ActiveColumnUpdated(ChannelListUpdated(old(State()))))
    {
      UpdateChannelList();
      UpdateActiveColumn();
      PlaySelectedChannel();
    }

    /** resetAutoHideTimer() */
    method ResetAutoHideTimer()
      modifies this
      ensures State() == ResetAutoHide(old(State()))
    {
      if isPlayerPage {
        autoHideArmed := true;
      }
    }

    /** toggleListsVisibility(show) */
    method ToggleListsVisibility(show: bool)
      modifies this
      ensures State() == Toggle(old(State()), show)
    {
      if !isPlayerPage {
        return;
      }
      listsShown := show;
      autoHideArmed := show;
      listsVisible := show;
    }

    /** loadChannel(index) */
    method LoadChannel(index: int)
      modifies this
      ensures State() == ChannelLoaded(old(State()), index)
    {
      if !isPlayerPage {
        return;
      }
      var channelsToUse := if |filteredChannels| > 0 then filteredChannels else channels;
      if index < 0 || index >= |channelsToUse| {
        return;
      }
      currentChannelIndex := index;
      playing := Some(channelsToUse[index].url);
      if !listsVisible {
        ToggleListsVisibility(false);
      }
    }

    /** updateChannelList() */
    method UpdateChannelList()
      modifies this
      ensures State() == ChannelListUpdated(old(State()))
    {
      if !isPlayerPage {
        return;
      }
      filteredChannels := Listed(channels, currentSection, currentCategory, currentLanguage);
      currentChannelIndex := 0;
      if |filteredChannels| > 0 {
        LoadChannel(0);
      }
    }

    /** changeChannel(direction), with the visibility flag left to loadChannel. */
    method ChangeChannel(direction: int)
      modifies this
      ensures State() == ChannelChanged(old(State()), direction)
    {
      if !isPlayerPage {
        return;
      }
      var channelsToUse := if |filteredChannels| > 0 then filteredChannels else channels;
      var newIndex := currentChannelIndex + direction;
      if 0 <= newIndex < |channelsToUse| {
        LoadChannel(newIndex);
      }
    }

    /** playSelectedChannel() */
    method PlaySelectedChannel()
      modifies this
      ensures State() == PlaySelected(old(State()))
    {
      if SelectedNoKey in storage && SelectedUrlKey in storage
         && storage[SelectedNoKey] != "" && storage[SelectedUrlKey] != "" {
        var no := ParseInt(storage[SelectedNoKey]);
        var channelIndex := FindIndex(channels, (c: Channel) => NumberIs(c, no));
        if channelIndex != -1 {
          currentChannelIndex := channelIndex;
          LoadChannel(currentChannelIndex);
        }
        storage := storage - {SelectedNoKey, SelectedUrlKey};
      }
    }

    /** updateNavSelection() */
    method UpdateNavSelection()
      modifies this
      ensures State() == NavSelectionUpdated(old(State()))
    {
      if currentNavIndex < |navLabels| {
        var section := navLabels[currentNavIndex];
        if section == "language" || section == "category" {
          currentSection := section;
          currentCategory := "";
          currentLanguage := "";
          if isPlayerPage {
            UpdateChannelList();
          }
        }
      }
    }

    /** updateCategorySelection() */
    method UpdateCategorySelection()
      modifies this
      ensures State() == CategorySelectionUpdated(old(State()))
    {
      var items := Items(State());
      if currentCategoryIndex < |items| {
        var selectedItem := items[currentCategoryIndex];
        if currentSection == "category" {
          currentCategory := selectedItem;
        } else if currentSection == "language" {
          currentLanguage := selectedItem;
        }
        if isPlayerPage {
          UpdateChannelList();
        }
      }
    }

    /** updateActiveColumn() */
    method UpdateActiveColumn()
      modifies this
      ensures State() == ActiveColumnUpdated(old(State()))
    {
      if !isPlayerPage {
        return;
      }
      if activeColumn == 1 {
        currentCategoryIndex := 0;
        UpdateCategorySelection();
      }
    }

    /** handleNavigation(event): the page it leaves for, if any. */
    method HandleNavigation(e: KeyEvent) returns (effect: Effect)
      requires tuner.videoSection == isPlayerPage
      modifies this, tuner
      ensures Outcome(State(), effect) == Next(old(State()), e)
    {
      if isPlayerPage && listsVisible {
        ResetAutoHideTimer();
      }
      effect := NoEffect;
      if IsNumberKey(e) {
        tuner.HandleNumberInput(NumberKey(e), channels);
        return;
      }
      var key := RemoteKey(e);
      if isPlayerPage && !listsVisible {
        if key == "ArrowRight" {
          ToggleListsVisibility(true);
        } else if key == "ArrowUp" {
          ChangeChannel(-1);
        } else if key == "ArrowDown" {
          ChangeChannel(1);
        }
        return;
      }
      if key == "ArrowLeft" {
        ArrowLeft();
      } else if key == "ArrowRight" {
        ArrowRight();
      } else if key == "ArrowUp" {
        ArrowUp();
      } else if key == "ArrowDown" {
        ArrowDown();
      } else if key == "Enter" {
        effect := EnterPressed();
      } else if key == "Back" || key == "Escape" {
        effect := BackPressed();
      }
    }

    method ArrowLeft()
      modifies this
      ensures State() == LeftKey(old(State()))
    {
      if activeColumn == 0 && isPlayerPage {
        listsVisible := false;
        ToggleListsVisibility(false);
      } else if activeColumn > 0 {
        activeColumn := activeColumn - 1;
        UpdateActiveColumn();
      }
    }

    method ArrowRight()
      modifies this
      ensures State() == RightKey(old(State()))
    {
      if activeColumn < LastColumn && isPlayerPage {
        activeColumn := activeColumn + 1;
        UpdateActiveColumn();
      }
    }

    method ArrowUp()
      modifies this
      ensures State() == UpKey(old(State()))
    {
      if activeColumn == 0 && currentNavIndex > 0 {
        MoveToNavItem(currentNavIndex - 1);
      } else if activeColumn == 1 && currentCategoryIndex > 0 {
        MoveToCategory(currentCategoryIndex - 1);
      } else if activeColumn == 2 && currentChannelIndex > 0 && isPlayerPage {
        MoveToChannel(currentChannelIndex - 1);
      }
    }

    method ArrowDown()
      modifies this
      ensures State() == DownKey(old(State()))
    {
      var maxNav := |navLabels| - 1;
      var maxCategory := |Items(State())| - 1;
      var maxChannel := |Active(State())| - 1;
      if activeColumn == 0 && currentNavIndex < maxNav {
        NextNavItem();
      } else if activeColumn == 1 && currentCategoryIndex < maxCategory {
        NextCategory();
      } else if activeColumn == 2 && currentChannelIndex < maxChannel && isPlayerPage {
        MoveToChannel(currentChannelIndex + 1);
      }
    }

    /** Down in the nav column, below its first item. */
    method NextNavItem()
      requires activeColumn == 0 && currentNavIndex < |navLabels| - 1
      modifies this
      ensures State() == DownKey(old(State()))
    {
      MoveToNavItem(currentNavIndex + 1);
    }

    /** Down in the category column, above its last item. */
    method NextCategory()
      requires activeColumn == 1 && currentCategoryIndex < |Items(State())| - 1
      modifies this
      ensures State() == DownKey(old(State()))
    {
      MoveToCategory(currentCategoryIndex + 1);
    }

    /** The nav column's Up and Down. */
    method MoveToNavItem(index: nat)
      modifies this
      ensures var p := old(State());
        State() == NavSelectionUpdated(p.(focus := p.focus.(navIndex := index)))
    {
      currentNavIndex := index;
      UpdateNavSelection();
    }

    /** The category column's Up and Down. */
    method MoveToCategory(index: nat)
      modifies this
      ensures var p := old(State());
        State() == CategorySelectionUpdated(p.(focus := p.focus.(categoryIndex := index)))
    {
      currentCategoryIndex := index;
      UpdateCategorySelection();
    }

    /** The channel column's Up and Down: select the channel and play it, marking the
        lists visible. */
    method MoveToChannel(index: nat)
      modifies this
      ensures var p := old(State());
        State() == ChannelLoaded(p.(view := p.view.(currentChannelIndex := index), screen := p.screen.(listsVisible := true)), index)
    {
      currentChannelIndex := index;
      listsVisible := true;
      LoadChannel(currentChannelIndex);
    }

    method EnterPressed() returns (effect: Effect)
      modifies this
      ensures Outcome(State(), effect) == EnterKey(old(State()))
    {
      effect := NoEffect;
      if activeColumn == 0 {
        if currentNavIndex < |navLabels| {
          var section := navLabels[currentNavIndex];
          if section == "home" {
            effect := NavigateToPage("index.html");
          } else if section == "about" {
            effect := NavigateToPage("about.html");
          } else if section == "settings" {
            effect := NavigateToPage("settings.html");
          } else if (section == "language" || section == "category") && !isPlayerPage {
            effect := Navigate("player.html");
          }
        }
      } else if activeColumn == 2 && isPlayerPage {
        listsVisible := false;
        LoadChannel(currentChannelIndex);
      }
    }

    method BackPressed() returns (effect: Effect)
      modifies this
      ensures Outcome(State(), effect) == BackKey(old(State()))
    {
      effect := NoEffect;
      if isPlayerPage {
        listsVisible := false;
        ToggleListsVisibility(false);
      } else {
        effect := NavigateToPage("index.html");
      }
    }

    /** navigateToPage(page) */
    method NavigateToPage(page: string) returns (effect: Effect)
      modifies this
      ensures Outcome(State(), effect) == Leave(old(State()), page)
    {
      playing := None;
      effect := Navigate(page);
    }

    /** The auto-hide timer's callback. */
    method AutoHideFires()
      modifies this
      ensures State() == AutoHideFired(old(State()))
    {
      autoHideArmed := false;
      if listsVisible {
        listsVisible := false;
        ToggleListsVisibility(false);
      }
    }

    /** The onChannelFound callback handed to the tuner. */
    method ChannelFound(channelIndex: nat)
      requires channelIndex < |channels|
      modifies this
      ensures State() == Tuned(old(State()), channelIndex)
    {
      SelectFound(channelIndex);
      LoadChannel(currentChannelIndex);
    }

    /** The lookup of the onChannelFound callback, before the channel loads. */
    method SelectFound(channelIndex: nat)
      requires channelIndex < |channels|
      modifies this
      ensures State() == FoundSelected(old(State()), channelIndex)
    {
      var selectedChannel := channels[channelIndex];
      ghost var p := State();
      if |filteredChannels| > 0 {
        var filteredIndex := FindIndex(filteredChannels, (c: Channel) => SameNumber(c.channelNo, selectedChannel.channelNo));
        if filteredIndex != -1 {
          currentChannelIndex := filteredIndex;
        } else {
          currentSection := "home";
          currentCategory := "";
          currentLanguage := "";
          filteredChannels := channels;
          currentChannelIndex := channelIndex;
          assert State() == p.(view := View(channels, "home", "", "", channelIndex));
        }
      } else {
        currentChannelIndex := channelIndex;
      }
    }

    /** The tuner's commit timer expires. */
    method CommitFires()
      requires tuner.commit.Some? && tuner.commit.value < |channels|
      modifies this, tuner
      ensures State() == PageCommitFired(old(State()))
    {
      var index := tuner.CommitFires();
      ChannelFound(index);
    }

    /** The tuner's display timer expires. */
    method NumberDisplayHides()
      modifies tuner
      ensures State() == NumberHidden(old(State()))
    {
      tuner.HideNumberInput();
    }

    /** handleGamepadButton(j) */
    method GamepadButton(j: nat) returns (effect: Effect)
      requires tuner.videoSection == isPlayerPage
      modifies this, tuner
      ensures ButtonKey(j).Some? ==> Outcome(State(), effect) == Next(old(State()), ButtonKey(j).value)
      ensures ButtonKey(j).None? ==> State() == old(State()) && effect == NoEffect
    {
      effect := NoEffect;
      var e := ButtonKey(j);
      if e.Some? {
        effect := HandleNavigation(e.value);
      }
    }
  }
}
