/**
 * ymt/playerMobile.js: the touch player. A grid of the channels that pass the category
 * and language filters, a video element, and a direct-entry number display with its own
 * timings: an exact match switches after 1500 ms, an impossible number stays on screen
 * for 2000 ms, a possible prefix is forgotten after 3000 ms without input.
 *
 * `Mobile` is the script's state with what the document shows of it; `ChannelLoaded`,
 * `Refiltered`, `ChannelChanged`, `NumberPressed` and the two timer events are its
 * transitions, and `MobilePlayer` is the script with its variables.
 */
module PlayerMobile {
  import opened JsBuiltins
  import opened JsArrays
  import opened M3uParser
  import opened KeyEvents
  import opened ChannelInput
  import Player

  const CommitMs: nat := 1500
  const NotAvailableMs: nat := 2000
  const IdleMs: nat := 3000
  const NotAvailableSuffix: string := " - Not Available"

  /** The one `numberInputTimeout`: what the armed timer will do. */
  datatype NumberTimer =
    | NoTimer
    | CommitTo(index: nat)   // switch to `channels[index]` after 1500 ms
    | ClearAfter(ms: nat)    // forget the digits after `ms`

  /** The `#numberDisplay` element: shown or not, its text and its error styling. */
  datatype Display = Display(shown: bool, text: string, isError: bool)

  datatype Mobile = Mobile(
    channels: seq<Channel>,
    categories: seq<string>,
    languages: seq<string>,
    filtered: seq<Channel>,
    currentCategory: string,
    currentLanguage: string,
    currentChannelIndex: nat,
    playing: Option<string>,
    numberInput: string,
    timer: NumberTimer,
    display: Display)

  // ---------------------------------------------------------------------------
  // Filters
  // ---------------------------------------------------------------------------

  /** The test of filterChannels: an empty selection imposes nothing. */
  predicate Matches(category: string, language: string, c: Channel)
  {
    (category == "" || c.category == category) && (language == "" || c.language == language)
  }

  /** A channel is listed exactly when it matches the category when one is chosen and the
      language when one is chosen; the list keeps playlist order and is never longer. */
  lemma FilterMatches(channels: seq<Channel>, category: string, language: string)
    ensures var r := Filter(channels, (c: Channel) => Matches(category, language, c));
      |r| <= |channels| &&
      (forall c :: c in r <==>
        c in channels && (category == "" || c.category == category) && (language == "" || c.language == language)) &&
      (category == "" && language == "" ==> r == channels)
  {
    if category == "" && language == "" {
      FilterAll(channels, (c: Channel) => Matches(category, language, c));
    }
  }

  // ---------------------------------------------------------------------------
  // Transitions
  // ---------------------------------------------------------------------------

  /** loadChannel(index): outside the filtered list nothing happens; inside it the
      channel becomes current and plays. */
  function ChannelLoaded(m: Mobile, index: int): (r: Mobile)
    ensures index < 0 || index >= |m.filtered| ==> r == m
    ensures 0 <= index < |m.filtered| ==>
      r == m.(currentChannelIndex := index, playing := Some(m.filtered[index].url))
  {
    if index < 0 || index >= |m.filtered| then m
    else m.(currentChannelIndex := index, playing := Some(m.filtered[index].url))
  }

  /** filterChannels(): list the matching channels; when some match, start again at the
      first of them. */
  function Refiltered(m: Mobile): (r: Mobile)
    ensures r.filtered == Filter(m.channels, (c: Channel) => Matches(m.currentCategory, m.currentLanguage, c))
    ensures r.filtered != [] ==> r.currentChannelIndex == 0 && r.playing == Some(r.filtered[0].url)
    ensures r.filtered == [] ==> r == m.(filtered := [])
  {
    var q := m.(filtered := Filter(m.channels, (c: Channel) => Matches(m.currentCategory, m.currentLanguage, c)));
    if q.filtered != [] then ChannelLoaded(q.(currentChannelIndex := 0), 0) else q
  }

  /** A click on an option of the filter panel: '' is "All". */
  function FilterChosen(m: Mobile, isLanguage: bool, value: string): (r: Mobile)
    ensures isLanguage ==> r.currentLanguage == value && r.currentCategory == m.currentCategory
    ensures !isLanguage ==> r.currentCategory == value && r.currentLanguage == m.currentLanguage
    ensures r == Refiltered(r)
  {
    var q := if isLanguage then m.(currentLanguage := value) else m.(currentCategory := value);
    Refiltered(q)
  }

  /** changeChannel(direction): a neighbour inside the filtered list, or nothing. */
  function ChannelChanged(m: Mobile, direction: int): (r: Mobile)
    ensures var n := m.currentChannelIndex + direction;
      if 0 <= n < |m.filtered| then r.currentChannelIndex == n && r.playing == Some(m.filtered[n].url)
      else r == m
  {
    var n := m.currentChannelIndex + direction;
    if 0 <= n < |m.filtered| then ChannelLoaded(m, n) else m
  }

  /** handleNumberInput(number): cancel the armed timer, append the digit while the
      buffer is shorter than four, show it, and look the buffer up again. */
  function NumberPressed(m: Mobile, number: string): (r: Mobile)
    ensures r.numberInput == if |m.numberInput| < MaxDigits then m.numberInput + number else m.numberInput
    ensures r.display.shown && r.channels == m.channels && r.filtered == m.filtered && r.playing == m.playing
    ensures r.timer.CommitTo? ==>
      r.timer.index < |m.channels| && NumberIs(m.channels[r.timer.index], ParseInt(r.numberInput))
  {
    var b := if |m.numberInput| < MaxDigits then m.numberInput + number else m.numberInput;
    var q := m.(numberInput := b, timer := NoTimer, display := Display(true, b, false));
    var k := IndexOfNumber(m.channels, ParseInt(b));
    if k != -1 then q.(timer := CommitTo(k))
    else if !SomeNumberStartsWith(m.channels, b) then
      q.(display := Display(true, b + NotAvailableSuffix, true), timer := ClearAfter(NotAvailableMs))
    else q.(timer := ClearAfter(IdleMs))
  }

  /** The keydown handler: only keys that pass the string test for a digit. */
  function KeyDown(m: Mobile, e: KeyEvent): Mobile
  {
    if DigitRange(e.key) then NumberPressed(m, e.key) else m
  }

  /** `ch.channelNo === channel.channelNo` */
  predicate SameNumber(a: Channel, b: Channel)
  {
    Player.SameNumber(a.channelNo, b.channelNo)
  }

  /** The armed commit expires: play the channel from the filtered list when it is there,
      otherwise drop both filters and play it from the whole list; then forget the
      digits. */
  function NumberCommitted(m: Mobile): (r: Mobile)
    requires m.timer.CommitTo? && m.timer.index < |m.channels|
    ensures r.numberInput == "" && r.timer == NoTimer && !r.display.shown && r.channels == m.channels
    ensures r.filtered == m.filtered || (r.filtered == m.channels && r.currentCategory == "" && r.currentLanguage == "")
  {
    var channel := m.channels[m.timer.index];
    var fi := FindIndex(m.filtered, (c: Channel) => SameNumber(c, channel));
    var q :=
      if fi != -1 then ChannelLoaded(m, fi)
      else
        var reset := m.(currentCategory := "", currentLanguage := "", filtered := m.channels);
        ChannelLoaded(reset, FindIndex(reset.filtered, (c: Channel) => SameNumber(c, channel)));
    q.(numberInput := "", timer := NoTimer, display := q.display.(shown := false))
  }

  /** A clearing timer expires. */
  function NumberCleared(m: Mobile): (r: Mobile)
    requires m.timer.ClearAfter?
    ensures r == m.(numberInput := "", timer := NoTimer, display := m.display.(shown := false))
  {
    m.(numberInput := "", timer := NoTimer, display := m.display.(shown := false))
  }

  /** init(), given the parsed playlist: every channel listed and the first one playing. */
  function Started(channels: seq<Channel>): (r: Mobile)
    ensures r.filtered == channels && r.timer == NoTimer && r.numberInput == ""
    ensures channels != [] ==> r.currentChannelIndex == 0 && r.playing == Some(channels[0].url)
    ensures channels == [] ==> r.playing == None
  {
    var m := Mobile(channels, Player.SetOf(channels, Player.CategoryOf), Player.SetOf(channels, Player.LanguageOf),
                    channels, "", "", 0, None, "", NoTimer, Display(false, "", false));
    if channels != [] then ChannelLoaded(m, 0) else m
  }

  // ---------------------------------------------------------------------------
  // Properties
  // ---------------------------------------------------------------------------

  /** What every event keeps: the buffer holds at most four one-character digits, an
      armed commit names a numbered channel of the playlist, the filtered list is no
      longer than the playlist, and the current channel lies inside the filtered list
      when it is not empty and inside the playlist always. */
  predicate Valid(m: Mobile)
  {
    |m.numberInput| <= MaxDigits &&
    (m.timer.CommitTo? ==> m.timer.index < |m.channels| && Numbered(m.channels[m.timer.index])) &&
    |m.filtered| <= |m.channels| &&
    (m.filtered != [] ==> m.currentChannelIndex < |m.filtered|) &&
    (m.channels != [] ==> m.currentChannelIndex < |m.channels|)
  }

  /** The channel carries a number (not null, not NaN). */
  predicate Numbered(c: Channel)
  {
    c.channelNo.Some? && c.channelNo.value.Num?
  }

  lemma StartedValid(channels: seq<Channel>)
    ensures Valid(Started(channels))
  {
  }

  /** Every digit first cancels the armed timer: the timer afterwards is the one this
      digit's lookup arms, and the buffer grows only below four digits. */
  lemma NumberPressedCancels(m: Mobile, number: string)
    ensures var r := NumberPressed(m, number);
      r.timer != NoTimer &&
      r.numberInput == (if |m.numberInput| < MaxDigits then m.numberInput + number else m.numberInput) &&
      r.display.shown &&
      r.filtered == m.filtered && r.currentChannelIndex == m.currentChannelIndex && r.playing == m.playing
  {
    var b := if |m.numberInput| < MaxDigits then m.numberInput + number else m.numberInput;
    var q := m.(numberInput := b, timer := NoTimer, display := Display(true, b, false));
    var k := IndexOfNumber(m.channels, ParseInt(b));
    var r := NumberPressed(m, number);
    if k != -1 {
      assert r == q.(timer := CommitTo(k));
    } else if !SomeNumberStartsWith(m.channels, b) {
      assert r == q.(display := Display(true, b + NotAvailableSuffix, true), timer := ClearAfter(NotAvailableMs));
    } else {
      assert r == q.(timer := ClearAfter(IdleMs));
    }
  }

  /** A full buffer ignores the digit but still looks the buffer up and re-arms the
      timer it calls for. */
  lemma FullBufferRearms(m: Mobile, number: string)
    requires |m.numberInput| >= MaxDigits
    ensures NumberPressed(m, number) == NumberPressed(m, "")
    ensures NumberPressed(m, number).numberInput == m.numberInput
  {
  }

  /** An exact match arms the commit for the first channel with the typed number. */
  lemma ExactMatchArmsCommit(m: Mobile, number: string, i: nat)
    requires i < |m.channels|
    requires var b := if |m.numberInput| < MaxDigits then m.numberInput + number else m.numberInput;
      NumberIs(m.channels[i], ParseInt(b))
    ensures var r := NumberPressed(m, number);
      r.timer.CommitTo? && r.timer.index <= i &&
      NumberIs(m.channels[r.timer.index], ParseInt(r.numberInput)) &&
      (forall j :: 0 <= j < r.timer.index ==> !NumberIs(m.channels[j], ParseInt(r.numberInput))) &&
      r.display == Display(true, r.numberInput, false)
  {
    var b := if |m.numberInput| < MaxDigits then m.numberInput + number else m.numberInput;
    var q := m.(numberInput := b, timer := NoTimer, display := Display(true, b, false));
    var k := IndexOfNumber(m.channels, ParseInt(b));
    assert 0 <= k <= i;
    assert NumberPressed(m, number) == q.(timer := CommitTo(k));
  }

  /** No channel number starts with the buffer: the error is shown and the digits are
      kept for 2000 ms rather than dropped at once. */
  lemma NoMatchShowsError(m: Mobile, number: string)
    requires var b := if |m.numberInput| < MaxDigits then m.numberInput + number else m.numberInput;
      (forall j :: 0 <= j < |m.channels| ==> !NumberIs(m.channels[j], ParseInt(b))) &&
      !SomeNumberStartsWith(m.channels, b)
    ensures var r := NumberPressed(m, number);
      r.timer == ClearAfter(NotAvailableMs) &&
      r.display == Display(true, r.numberInput + NotAvailableSuffix, true)
  {
  }

  /** A buffer that is a prefix of some channel number is kept for 3000 ms. */
  lemma PrefixWaits(m: Mobile, number: string)
    requires var b := if |m.numberInput| < MaxDigits then m.numberInput + number else m.numberInput;
      (forall j :: 0 <= j < |m.channels| ==> !NumberIs(m.channels[j], ParseInt(b))) &&
      SomeNumberStartsWith(m.channels, b)
    ensures var r := NumberPressed(m, number);
      r.timer == ClearAfter(IdleMs) && r.display == Display(true, r.numberInput, false)
  {
  }

  /** The commit plays a channel whose number is the committed channel's: from the
      filtered list with the filters kept when it is there, otherwise from the whole list
      with both filters dropped. The digits are forgotten either way. */
  lemma CommitPlaysNumber(m: Mobile)
    requires m.timer.CommitTo? && m.timer.index < |m.channels|
    requires NumberIs(m.channels[m.timer.index], ParseInt(m.numberInput))
    ensures var r := NumberCommitted(m);
      var channel := m.channels[m.timer.index];
      r.numberInput == "" && r.timer == NoTimer && !r.display.shown &&
      r.currentChannelIndex < |r.filtered| && SameNumber(r.filtered[r.currentChannelIndex], channel) &&
      r.playing == Some(r.filtered[r.currentChannelIndex].url) &&
      ((r.filtered == m.filtered && r.currentCategory == m.currentCategory && r.currentLanguage == m.currentLanguage) ||
       (r.filtered == m.channels && r.currentCategory == "" && r.currentLanguage == ""))
  {
    var channel := m.channels[m.timer.index];
    var fi := FindIndex(m.filtered, (c: Channel) => SameNumber(c, channel));
    if fi == -1 {
      var k := FindIndex(m.channels, (c: Channel) => SameNumber(c, channel));
      assert SameNumber(m.channels[m.timer.index], channel);
      assert k != -1;
    }
  }

  /** A one-character key keeps the state valid. */
  lemma KeyDownKeepsValid(m: Mobile, e: KeyEvent)
    requires Valid(m) && |e.key| == 1
    ensures Valid(KeyDown(m, e))
  {
    if DigitRange(e.key) {
      NumberPressedKeepsValid(m, e.key);
    }
  }

  /** A digit keeps the state valid: the buffer stays within four characters and an armed
      commit names a numbered channel. */
  lemma NumberPressedKeepsValid(m: Mobile, number: string)
    requires Valid(m) && |number| == 1
    ensures Valid(NumberPressed(m, number))
  {
    var b := if |m.numberInput| < MaxDigits then m.numberInput + number else m.numberInput;
    var k := IndexOfNumber(m.channels, ParseInt(b));
    if k != -1 {
      assert NumberIs(m.channels[k], ParseInt(b));
    }
  }

  /** Changing channel, choosing a filter and the clearing timer keep the state valid. */
  lemma ListEventsKeepValid(m: Mobile, direction: int, isLanguage: bool, value: string)
    requires Valid(m)
    ensures Valid(ChannelChanged(m, direction))
    ensures Valid(FilterChosen(m, isLanguage, value))
    ensures m.timer.ClearAfter? ==> Valid(NumberCleared(m))
  {
  }

  /** The commit keeps the state valid. */
  lemma CommitKeepsValid(m: Mobile)
    requires Valid(m) && m.timer.CommitTo?
    ensures Valid(NumberCommitted(m))
  {
    var channel := m.channels[m.timer.index];
    var fi := FindIndex(m.filtered, (c: Channel) => SameNumber(c, channel));
    if fi == -1 {
      assert SameNumber(m.channels[m.timer.index], channel);
    }
  }

  // ---------------------------------------------------------------------------
  // The script's variables
  // ---------------------------------------------------------------------------

  /** The module-level variables of the page and the number display element. */
  class MobilePlayer {
    const channels: seq<Channel>
    const categories: seq<string>
    const languages: seq<string>
    var filteredChannels: seq<Channel>
    var currentCategory: string
    var currentLanguage: string
    var currentChannelIndex: nat
    var playing: Option<string>
    var numberInput: string
    var timer: NumberTimer
    var display: Display

    function State(): Mobile
      reads this
    {
      Mobile(channels, categories, languages, filteredChannels, currentCategory, currentLanguage,
             currentChannelIndex, playing, numberInput, timer, display)
    }

    /** init(), given the fetched playlist text. */
    constructor (content: string)
      ensures State() == Started(Parse(content, AnyLogo))
    {
      var parsed := ParseM3UCopy(content);
      channels := parsed;
      var cats, langs := CollectSets(parsed);
      categories, languages := cats, langs;
      filteredChannels := parsed;
      currentCategory, currentLanguage := "", "";
      currentChannelIndex, playing := 0, None;
      numberInput, timer, display := "", NoTimer, Display(false, "", false);
      new;
      if |filteredChannels| > 0 {
        LoadChannel(0);
      }
    }

    /** loadChannel(index) */
    method LoadChannel(index: int)
      modifies this
      ensures State() == ChannelLoaded(old(State()), index)
    {
      if index < 0 || index >= |filteredChannels| {
        return;
      }
      currentChannelIndex := index;
      playing := Some(filteredChannels[index].url);
    }

    /** filterChannels() */
    method FilterChannels()
      modifies this
      ensures State() == Refiltered(old(State()))
    {
      var category, language := currentCategory, currentLanguage;
      filteredChannels := Filter(channels, (c: Channel) => Matches(category, language, c));
      if |filteredChannels| > 0 {
        currentChannelIndex := 0;
        LoadChannel(0);
      }
    }

    /** The click handler of a filter-panel option. */
    method ChooseFilter(isLanguage: bool, value: string)
      modifies this
      ensures State() == FilterChosen(old(State()), isLanguage, value)
    {
      if isLanguage {
        currentLanguage := value;
      } else {
        currentCategory := value;
      }
      FilterChannels();
    }

    /** changeChannel(direction) */
    method ChangeChannel(direction: int)
      modifies this
      ensures State() == ChannelChanged(old(State()), direction)
    {
      var newIndex := currentChannelIndex + direction;
      if 0 <= newIndex < |filteredChannels| {
        LoadChannel(newIndex);
      }
    }

    /** handleNumberInput(number) */
    method HandleNumberInput(number: string)
      modifies this
      ensures State() == NumberPressed(old(State()), number)
    {
      ghost var m0 := State();
      timer := NoTimer;
      if |numberInput| < MaxDigits {
        numberInput := numberInput + number;
      }
      display := Display(true, numberInput, false);
      ghost var q := State();
      assert q == m0.(numberInput := numberInput, timer := NoTimer, display := display);
      var channelNumber := ParseInt(numberInput);
      var channelIndex := IndexOfNumber(channels, channelNumber);
      if channelIndex != -1 {
        timer := CommitTo(channelIndex);
        assert State() == q.(timer := CommitTo(channelIndex));
      } else {
        var possibleChannel := SomeNumberStartsWith(channels, numberInput);
        if !possibleChannel {
          display := Display(true, numberInput + NotAvailableSuffix, true);
          timer := ClearAfter(NotAvailableMs);
        } else {
          timer := ClearAfter(IdleMs);
        }
      }
    }

    /** The keydown listener. */
    method KeyPressed(e: KeyEvent)
      modifies this
      ensures State() == KeyDown(old(State()), e)
    {
      if DigitRange(e.key) {
        HandleNumberInput(e.key);
      }
    }

    /** The 1500 ms commit timer's callback. */
    method CommitFires()
      requires timer.CommitTo? && timer.index < |channels|
      modifies this
      ensures State() == NumberCommitted(old(State()))
    {
      var channel := channels[timer.index];
      var filteredIndex := FindIndex(filteredChannels, (c: Channel) => SameNumber(c, channel));
      if filteredIndex != -1 {
        LoadChannel(filteredIndex);
      } else {
        currentCategory := "";
        currentLanguage := "";
        filteredChannels := channels;
        LoadChannel(FindIndex(filteredChannels, (c: Channel) => SameNumber(c, channel)));
      }
      numberInput := "";
      timer := NoTimer;
      display := display.(shown := false);
    }

    /** The 2000 ms and 3000 ms clearing timers' callback. */
    method ClearFires()
      requires timer.ClearAfter?
      modifies this
      ensures State() == NumberCleared(old(State()))
    {
      numberInput := "";
      timer := NoTimer;
      display := display.(shown := false);
    }
  }

  /** The copy of parseM3U in this script: the shared scan with the `[^"]*` logo
      pattern. */
  method ParseM3UCopy(content: string) returns (channels: seq<Channel>)
    ensures channels == Parse(content, AnyLogo)
  {
    channels := M3uParser.ParseM3U(content, AnyLogo);
  }

  /** The forEach of init() that fills the category and language sets. */
  method CollectSets(channels: seq<Channel>) returns (categories: seq<string>, languages: seq<string>)
    ensures categories == Player.SetOf(channels, Player.CategoryOf)
    ensures languages == Player.SetOf(channels, Player.LanguageOf)
  {
    categories, languages := [], [];
    for i := 0 to |channels|
      invariant categories == Player.SetOf(channels[..i], Player.CategoryOf)
      invariant languages == Player.SetOf(channels[..i], Player.LanguageOf)
    {
      var channel := channels[i];
      assert channels[..i + 1] == channels[..i] + [channel];
      Player.SetOfSnoc(channels[..i], channel, Player.CategoryOf);
      Player.SetOfSnoc(channels[..i], channel, Player.LanguageOf);
      if channel.category != "" && channel.category !in categories {
        categories := categories + [channel.category];
      }
      if channel.language != "" && channel.language !in languages {
        languages := languages + [channel.language];
      }
    }
    assert channels[..|channels|] == channels;
  }
}
