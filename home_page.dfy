/**
 * ymt/script.js: the home page. The page keeps its focus in one of three regions — the
 * nav bar, the language dropdown under nav item 1, or a 4-column channel grid — and a
 * keydown handler moves the focus. The page's module-level variables are the fields of
 * `HomePage`; `Next` is the handler as a function of the old state, and the lemmas below
 * state what each key does. Page changes come back as an `Effect`; localStorage is a map.
 */
module Home {
  import opened JsBuiltins
  import opened JsArrays
  import opened M3uParser

  const Columns: nat := 4

  /** What the handler asks of the browser besides changing the page's variables. */
  datatype Effect = NoEffect | Navigate(href: string)

  /** The page's variables. `options` are the dropdown entries' languages and `navLabels`
      the nav items' label texts, both as rendered into the document. */
  datatype Home = Home(
    channels: seq<Channel>,
    filtered: seq<Channel>,
    options: seq<string>,
    navLabels: seq<string>,
    selectedIndex: nat,
    navIndex: nat,
    isInNav: bool,
    isInDropdown: bool,
    languageIndex: nat,
    selectedLanguage: string,
    storage: map<string, string>)

  datatype Outcome = Outcome(home: Home, effect: Effect)

  // ---------------------------------------------------------------------------
  // Filtering and the language list
  // ---------------------------------------------------------------------------

  function Languages(channels: seq<Channel>): (langs: seq<string>)
    ensures |langs| == |channels|
    ensures forall i :: 0 <= i < |channels| ==> langs[i] == channels[i].language
  {
    seq(|channels|, i requires 0 <= i < |channels| => channels[i].language)
  }

  /** updateLanguageList: "All Languages" (the empty language) and then each channel
      language once, in order of first appearance (the order of a JavaScript Set). */
  function LanguageOptions(channels: seq<Channel>): (options: seq<string>)
    ensures |options| >= 1 && options[0] == ""
  {
    [""] + Unique(Languages(channels))
  }

  lemma LanguageOptionsCover(channels: seq<Channel>)
    ensures forall i :: 0 <= i < |channels| ==> channels[i].language in LanguageOptions(channels)[1..]
    ensures forall k :: 1 <= k < |LanguageOptions(channels)| ==>
      exists i :: 0 <= i < |channels| && channels[i].language == LanguageOptions(channels)[k]
    ensures Distinct(LanguageOptions(channels)[1..])
  {
    var langs := Languages(channels);
    var options := LanguageOptions(channels);
    assert options[1..] == Unique(langs);
    forall i | 0 <= i < |channels| ensures channels[i].language in options[1..] {
      assert langs[i] in langs;
    }
    forall k | 1 <= k < |options|
      ensures exists i :: 0 <= i < |channels| && channels[i].language == options[k]
    {
      assert options[k] == Unique(langs)[k - 1];
      assert options[k] in langs;
    }
  }

  /** filterChannels: the empty selection keeps the whole list; otherwise the channels
      whose language equals the selection, in their original order. */
  function FilterLanguage(channels: seq<Channel>, selected: string): (r: seq<Channel>)
    ensures selected == "" ==> r == channels
    ensures selected != "" ==> forall c :: c in r <==> c in channels && c.language == selected
  {
    if selected == "" then channels else Filter(channels, (c: Channel) => c.language == selected)
  }

  /** Filtering keeps the relative order: a split list filters part by part. */
  lemma FilterLanguageAppend(a: seq<Channel>, b: seq<Channel>, selected: string)
    ensures FilterLanguage(a + b, selected) == FilterLanguage(a, selected) + FilterLanguage(b, selected)
  {
    if selected != "" {
      FilterAppend(a, b, (c: Channel) => c.language == selected);
    }
  }

  /** Applying the same selection again changes nothing. */
  lemma FilterLanguageIdempotent(channels: seq<Channel>, selected: string)
    ensures FilterLanguage(FilterLanguage(channels, selected), selected) == FilterLanguage(channels, selected)
  {
    if selected != "" {
      FilterIdempotent(channels, (c: Channel) => c.language == selected);
    }
  }

  // ---------------------------------------------------------------------------
  // The key handler
  // ---------------------------------------------------------------------------

  /** The indices the handler keeps in range: the dropdown index names an entry, the nav
      index a nav item and the grid index a card (0 when there is none), and the dropdown
      is only open from the nav bar. */
  predicate Valid(h: Home)
  {
    |h.options| >= 1 && h.languageIndex < |h.options| &&
    (h.navIndex == 0 || h.navIndex < |h.navLabels|) &&
    (h.selectedIndex == 0 || h.selectedIndex < |h.filtered|) &&
    (h.isInDropdown ==> h.isInNav)
  }

  /** The page a nav item's lower-cased label leads to. */
  function NavTarget(name: string): Effect
  {
    if name == "home" then Navigate("index.html")
    else if name == "about" then Navigate("about.html")
    else if name == "settings" then Navigate("settings.html")
    else NoEffect
  }

  /** handleNavigation(event) for `event.key == key`: the branch of the focused region. */
  function Next(h: Home, key: string): (r: Outcome)
    requires Valid(h)
    ensures r.home.channels == h.channels && r.home.options == h.options && r.home.navLabels == h.navLabels
    ensures r.home.storage != h.storage ==> r.effect == Navigate("player.html")
    ensures r.home.selectedLanguage != h.selectedLanguage ==>
      h.isInDropdown && key == "Enter" && r.home.selectedLanguage in h.options
  {
    if h.isInDropdown then DropdownNext(h, key)
    else if h.isInNav then NavNext(h, key)
    else GridNext(h, key)
  }

  function DropdownNext(h: Home, key: string): Outcome
    requires Valid(h)
  {
    if key == "ArrowUp" then
      Outcome(if h.languageIndex > 0 then h.(languageIndex := h.languageIndex - 1) else h, NoEffect)
    else if key == "ArrowDown" then
      Outcome(if h.languageIndex < |h.options| - 1 then h.(languageIndex := h.languageIndex + 1) else h, NoEffect)
    else if key == "Enter" then
      var language := h.options[h.languageIndex];
      Outcome(h.(selectedLanguage := language, filtered := FilterLanguage(h.channels, language),
                 selectedIndex := 0, isInDropdown := false), NoEffect)
    else if key == "Escape" then
      Outcome(h.(isInDropdown := false), NoEffect)
    else Outcome(h, NoEffect)
  }

  function NavNext(h: Home, key: string): Outcome
  {
    if key == "ArrowLeft" then
      Outcome(if h.navIndex > 0 then h.(navIndex := h.navIndex - 1) else h, NoEffect)
    else if key == "ArrowRight" then
      Outcome(if h.navIndex < |h.navLabels| - 1 then h.(navIndex := h.navIndex + 1) else h, NoEffect)
    else if key == "ArrowDown" || key == "Enter" then
      if h.navIndex == 1 then Outcome(h.(isInDropdown := true, languageIndex := 0), NoEffect)
      else if key == "ArrowDown" then Outcome(h.(isInNav := false), NoEffect)
      else if h.navIndex < |h.navLabels| then Outcome(h, NavTarget(AsciiLower(h.navLabels[h.navIndex])))
      else Outcome(h, NoEffect)
    else Outcome(h, NoEffect)
  }

  function GridNext(h: Home, key: string): Outcome
  {
    var total := |h.filtered|;
    var row := h.selectedIndex / Columns;
    var col := h.selectedIndex % Columns;
    var totalRows := (total + Columns - 1) / Columns;
    if key == "ArrowUp" then
      if row == 0 then Outcome(h.(isInNav := true), NoEffect)
      else Outcome(h.(selectedIndex := h.selectedIndex - Columns), NoEffect)
    else if key == "ArrowDown" then
      Outcome(if row < totalRows - 1 && h.selectedIndex + Columns < total
              then h.(selectedIndex := h.selectedIndex + Columns) else h, NoEffect)
    else if key == "ArrowLeft" then
      Outcome(if col > 0 then h.(selectedIndex := h.selectedIndex - 1) else h, NoEffect)
    else if key == "ArrowRight" then
      Outcome(if col < Columns - 1 && h.selectedIndex < total - 1
              then h.(selectedIndex := h.selectedIndex + 1) else h, NoEffect)
    else if key == "Enter" then
      if h.selectedIndex < total && HasChannelNo(h.filtered[h.selectedIndex]) then
        var c := h.filtered[h.selectedIndex];
        Outcome(h.(storage := h.storage["selectedChannelNo" := NumToString(c.channelNo.value)]
                                      ["selectedChannelUrl" := c.url]),
                Navigate("player.html"))
      else Outcome(h, NoEffect)
    else Outcome(h, NoEffect)
  }

  // ---------------------------------------------------------------------------
  // What each key does
  // ---------------------------------------------------------------------------

  /** Every key keeps the indices in range. */
  lemma NextValid(h: Home, key: string)
    requires Valid(h)
    ensures Valid(Next(h, key).home)
  {
  }

  /** In the grid, Down moves one row down exactly when a card exists there: the row test
      of the source is implied by the index test. */
  lemma GridDown(h: Home)
    requires Valid(h) && !h.isInNav
    ensures Next(h, "ArrowDown").home.selectedIndex ==
      if h.selectedIndex + Columns < |h.filtered| then h.selectedIndex + Columns else h.selectedIndex
    ensures Next(h, "ArrowDown").home.(selectedIndex := h.selectedIndex) == h
  {
    var total := |h.filtered|;
    var i := h.selectedIndex;
    if i + Columns < total {
      RowBelowExists(i, total);
    }
  }

  lemma RowBelowExists(i: nat, total: nat)
    requires i + Columns < total
    ensures i / Columns < (total + Columns - 1) / Columns - 1
  {
    var r := i / Columns;
    assert i >= r * Columns;
    assert total + Columns - 1 >= (r + 2) * Columns;
    DivAtLeast(total + Columns - 1, r + 2);
  }

  lemma DivAtLeast(n: nat, q: nat)
    requires n >= q * Columns
    ensures n / Columns >= q
  {
  }

  /** In the grid, Up from the top row returns to the nav bar with the card index kept;
      from any other row it moves one row up. */
  lemma GridUp(h: Home)
    requires Valid(h) && !h.isInNav
    ensures h.selectedIndex < Columns ==> Next(h, "ArrowUp").home == h.(isInNav := true)
    ensures h.selectedIndex >= Columns ==>
      Next(h, "ArrowUp").home == h.(selectedIndex := h.selectedIndex - Columns)
  {
  }

  /** Down and then Up in the grid comes back to the same card. */
  lemma GridDownUp(h: Home)
    requires Valid(h) && !h.isInNav && h.selectedIndex + Columns < |h.filtered|
    ensures Next(Next(h, "ArrowDown").home, "ArrowUp").home == h
  {
    GridDown(h);
    var d := Next(h, "ArrowDown").home;
    assert d.selectedIndex == h.selectedIndex + Columns;
    assert d.selectedIndex / Columns >= 1;
  }

  /** Left and Right stay in the same row and on an existing card. */
  lemma GridLeftRight(h: Home, key: string)
    requires Valid(h) && !h.isInNav && h.selectedIndex < |h.filtered|
    requires key == "ArrowLeft" || key == "ArrowRight"
    ensures var i := Next(h, key).home.selectedIndex;
      i / Columns == h.selectedIndex / Columns && i < |h.filtered|
    ensures key == "ArrowLeft" ==> (Next(h, key).home.selectedIndex ==
      if h.selectedIndex % Columns > 0 then h.selectedIndex - 1 else h.selectedIndex)
    ensures key == "ArrowRight" ==> (Next(h, key).home.selectedIndex ==
      if h.selectedIndex % Columns < Columns - 1 && h.selectedIndex + 1 < |h.filtered|
      then h.selectedIndex + 1 else h.selectedIndex)
  {
  }

  /** Grid Enter opens the player only for an existing card whose channel number is
      truthy (so 0, NaN and a missing number are not selectable), after storing the
      number's text and the URL. */
  lemma GridEnter(h: Home)
    requires Valid(h) && !h.isInNav
    ensures var o := Next(h, "Enter");
      (o.effect != NoEffect <==> h.selectedIndex < |h.filtered| && HasChannelNo(h.filtered[h.selectedIndex])) &&
      (o.effect != NoEffect ==>
        o.effect == Navigate("player.html") &&
        o.home.storage["selectedChannelUrl"] == h.filtered[h.selectedIndex].url &&
        o.home.storage["selectedChannelNo"] == IntToString(h.filtered[h.selectedIndex].channelNo.value.n) &&
        o.home.(storage := h.storage) == h) &&
      (o.effect == NoEffect ==> o.home == h)
  {
  }

  /** Nav Left/Right move within the nav items; Down on item 1 opens the dropdown at its
      first entry, Down elsewhere enters the grid at the card selected before. */
  lemma NavKeys(h: Home)
    requires Valid(h) && h.isInNav && !h.isInDropdown
    ensures Next(h, "ArrowLeft").home.navIndex == if h.navIndex > 0 then h.navIndex - 1 else h.navIndex
    ensures Next(h, "ArrowRight").home.navIndex ==
      if h.navIndex + 1 < |h.navLabels| then h.navIndex + 1 else h.navIndex
    ensures h.navIndex == 1 ==>
      Next(h, "ArrowDown").home == h.(isInDropdown := true, languageIndex := 0) &&
      Next(h, "Enter").home == h.(isInDropdown := true, languageIndex := 0)
    ensures h.navIndex != 1 ==> Next(h, "ArrowDown").home == h.(isInNav := false)
  {
  }

  /** Dropdown keys: Up/Down move without wrapping; Enter applies the highlighted language
      (filtering the grid and resetting its index) and closes; Escape closes without
      applying anything. */
  lemma DropdownKeys(h: Home)
    requires Valid(h) && h.isInDropdown
    ensures Next(h, "ArrowUp").home.languageIndex ==
      if h.languageIndex > 0 then h.languageIndex - 1 else h.languageIndex
    ensures Next(h, "ArrowDown").home.languageIndex ==
      if h.languageIndex + 1 < |h.options| then h.languageIndex + 1 else h.languageIndex
    ensures var e := Next(h, "Enter").home;
      e.selectedLanguage == h.options[h.languageIndex] &&
      e.filtered == FilterLanguage(h.channels, e.selectedLanguage) &&
      e.selectedIndex == 0 && !e.isInDropdown && e.isInNav
    ensures Next(h, "Escape").home == h.(isInDropdown := false)
  {
  }

  // ---------------------------------------------------------------------------
  // The page
  // ---------------------------------------------------------------------------

  class HomePage {
    var channels: seq<Channel>
    var filteredChannels: seq<Channel>
    var languageOptions: seq<string>
    var navLabels: seq<string>
    var selectedIndex: nat
    var navIndex: nat
    var isInNav: bool
    var isInDropdown: bool
    var languageIndex: nat
    var selectedLanguage: string
    var storage: map<string, string>
    /** The keydown handler is installed. */
    var listening: bool
    /** The text put in the channel list instead of cards, if any. */
    var message: Option<string>

    function State(): Home
      reads this
    {
      Home(channels, filteredChannels, languageOptions, navLabels, selectedIndex, navIndex,
           isInNav, isInDropdown, languageIndex, selectedLanguage, storage)
    }

    /** The globals' initial values and then initializeChannelList on the fetched playlist
        text (a failed fetch yields no channels, as the empty text does). */
    constructor (content: string, labels: seq<string>, stored: map<string, string>)
      ensures Valid(State())
      ensures channels == Parse(content, NonEmptyLogo) && filteredChannels == channels
      ensures languageOptions == LanguageOptions(channels) && navLabels == labels
      ensures selectedIndex == 0 && navIndex == 0 && isInNav && !isInDropdown
      ensures languageIndex == 0 && selectedLanguage == "" && storage == stored
      ensures listening <==> channels != []
      ensures message == if channels == [] then Some("No channels found") else None
    {
      var parsed := ParseChannels(content);
      channels := parsed;
      filteredChannels := parsed;
      languageOptions := LanguageOptions(parsed);
      navLabels := labels;
      selectedIndex := 0;
      navIndex := 0;
      isInNav := true;
      isInDropdown := false;
      languageIndex := 0;
      selectedLanguage := "";
      storage := stored;
      if parsed == [] {
        message := Some("No channels found");
        listening := false;
      } else {
        message := None;
        listening := true;
      }
    }

    /** A keydown event: nothing happens unless the handler was installed. */
    method KeyDown(key: string) returns (effect: Effect)
      requires Valid(State())
      modifies this
      ensures Valid(State())
      ensures listening == old(listening) && message == old(message)
      ensures old(listening) ==> Outcome(State(), effect) == Next(old(State()), key)
      ensures !old(listening) ==> State() == old(State()) && effect == NoEffect
    {
      effect := NoEffect;
      if listening {
        effect := HandleNavigation(key);
      }
    }

    /** handleNavigation. */
    method HandleNavigation(key: string) returns (effect: Effect)
      requires Valid(State())
      modifies this`filteredChannels, this`selectedIndex, this`navIndex, this`isInNav,
        this`isInDropdown, this`languageIndex, this`selectedLanguage, this`storage
      ensures Outcome(State(), effect) == Next(old(State()), key)
      ensures Valid(State())
    {
      NextValid(State(), key);
      if isInDropdown {
        effect := DropdownKey(key);
      } else if isInNav {
        effect := NavKey(key);
      } else {
        effect := GridKey(key);
      }
    }

    method DropdownKey(key: string) returns (effect: Effect)
      requires Valid(State())
      modifies this`filteredChannels, this`selectedIndex, this`isInDropdown, this`languageIndex,
        this`selectedLanguage
      ensures Outcome(State(), effect) == DropdownNext(old(State()), key)
    {
      effect := NoEffect;
      if key == "ArrowUp" {
        if languageIndex > 0 {
          languageIndex := languageIndex - 1;
        }
      } else if key == "ArrowDown" {
        if languageIndex < |languageOptions| - 1 {
          languageIndex := languageIndex + 1;
        }
      } else if key == "Enter" {
        ChooseLanguage();
      } else if key == "Escape" {
        isInDropdown := false;
      }
    }

    /** Enter in the dropdown: filter by the highlighted language and close the list. */
    method ChooseLanguage()
      requires languageIndex < |languageOptions|
      modifies this`filteredChannels, this`selectedIndex, this`isInDropdown, this`selectedLanguage
      ensures var h := old(State()); var language := h.options[h.languageIndex];
        State() == h.(selectedLanguage := language, filtered := FilterLanguage(h.channels, language),
                      selectedIndex := 0, isInDropdown := false)
    {
      selectedLanguage := languageOptions[languageIndex];
      FilterChannels();
      isInDropdown := false;
    }

    method NavKey(key: string) returns (effect: Effect)
      modifies this`navIndex, this`isInNav, this`isInDropdown, this`languageIndex
      ensures Outcome(State(), effect) == NavNext(old(State()), key)
    {
      effect := NoEffect;
      if key == "ArrowLeft" {
        if navIndex > 0 {
          navIndex := navIndex - 1;
        }
      } else if key == "ArrowRight" {
        if navIndex < |navLabels| - 1 {
          navIndex := navIndex + 1;
        }
      } else if key == "ArrowDown" || key == "Enter" {
        if navIndex == 1 {
          isInDropdown := true;
          languageIndex := 0;
        } else if key == "ArrowDown" {
          isInNav := false;
        } else if navIndex < |navLabels| {
          effect := NavTarget(AsciiLower(navLabels[navIndex]));
        }
      }
    }

    method GridKey(key: string) returns (effect: Effect)
      modifies this`selectedIndex, this`isInNav, this`storage
      ensures Outcome(State(), effect) == GridNext(old(State()), key)
    {
      effect := NoEffect;
      var total := |filteredChannels|;
      var currentRow := selectedIndex / Columns;
      var currentCol := selectedIndex % Columns;
      var totalRows := (total + Columns - 1) / Columns;
      if key == "ArrowUp" {
        if currentRow == 0 {
          isInNav := true;
        } else if selectedIndex >= Columns {
          selectedIndex := selectedIndex - Columns;
        }
      } else if key == "ArrowDown" {
        if currentRow < totalRows - 1 && selectedIndex + Columns < total {
          selectedIndex := selectedIndex + Columns;
        }
      } else if key == "ArrowLeft" {
        if currentCol > 0 {
          selectedIndex := selectedIndex - 1;
        }
      } else if key == "ArrowRight" {
        if currentCol < Columns - 1 && selectedIndex < total - 1 {
          selectedIndex := selectedIndex + 1;
        }
      } else if key == "Enter" {
        if selectedIndex < total && HasChannelNo(filteredChannels[selectedIndex]) {
          var c := filteredChannels[selectedIndex];
          storage := storage["selectedChannelNo" := NumToString(c.channelNo.value)];
          storage := storage["selectedChannelUrl" := c.url];
          effect := Navigate("player.html");
        }
      }
    }

    /** filterChannels followed by updateChannelGrid's index reset. */
    method FilterChannels()
      modifies this`filteredChannels, this`selectedIndex
      ensures filteredChannels == FilterLanguage(channels, selectedLanguage)
      ensures selectedIndex == 0
    {
      if selectedLanguage == "" {
        filteredChannels := channels;
      } else {
        var language := selectedLanguage;
        filteredChannels := Filter(channels, (c: Channel) => c.language == language);
      }
      selectedIndex := 0;
    }

    /** The script's own copy of parseM3U, with the `[^"]+` logo pattern. */
    static method ParseChannels(content: string) returns (result: seq<Channel>)
      ensures result == Parse(content, NonEmptyLogo)
    {
      result := M3uParser.ParseM3U(content, NonEmptyLogo);
    }
  }
}
