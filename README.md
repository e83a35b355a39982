# Verified model of the ymt IPTV pages

The ymt repository is a set of browser pages for watching Tamil IPTV channels on
phones, desktops and smart TVs. Under their DOM code the pages share a small amount of
logic, and that logic is what this Dafny project models and proves:

- **The channel playlist parser.** `parseM3U` reads an M3U playlist line by line, keeping
  one pending channel. An `#EXTINF:` line (section 4.3.2.1 of RFC 8216) with a title after
  its first comma fills the pending slot. Its `tvg-logo`, `Category`, `Language` and `c-no`
  attributes are each read by an independent regular-expression search. The next plain
  line is the URL and emits the channel. The parser is copied into six files, and the
  copies differ only in the logo pattern (`[^"]+` or `[^"]*`).
- **The schedule parser** of the Aatral TV page. It pairs every `#EXTINF` line with the
  next non-blank line and keeps only entries with integer times, a title and a YouTube
  `v=` id. An empty result is an error.
- **The two numeric tuners.** A digit buffer of at most four characters has exact-match,
  prefix and no-match branches and cancellable timers.
- **The focus-navigation state machines:**
  - the nav bar, dropdown and six-column grid of the TV home page;
  - the four-column grid of the desktop home page;
  - the three columns and hidden-list mode of the player page;
  - the wrap-around page menu and the auto-hiding nav bar.
- **Filtering and layout arithmetic:**
  - the language dropdown;
  - the width-to-columns table;
  - the key-repeat guard;
  - the smart-TV user-agent test.
- **The schedule arithmetic of the video player.** This covers clock text to seconds, the
  start offset, the latest entry scheduled at or before now, the advance at the end of a
  video and the playlist fallback.
- **The helpers of the video portal.** These are the ISO 8601 duration formatter, the
  YouTube id extraction, the cloning of the catalogue and the choice of suggestions.

Code that updates state step by step is modelled imperatively:

- Module-level variables and closures become a `class` whose methods state their new
  state as a function of the old one.
- Loops become `while` loops with their invariants.
- The properties the pages rely on are lemmas about those functions.

Timers are explicit events: a field records what the armed timer will do, and a
`...Fires` method runs it. The clock, the fetched text, `localStorage`, the DOM counts
and captions, and the user agent are parameters.

Modules, one per source file, plus shared models of the JavaScript built-ins:

| module | file | models |
|---|---|---|
| JsBuiltins | js_builtins.dfy | `trim`, `split`, `includes`, `toLowerCase` on ASCII letters, `padStart`, `Number.prototype.toString` and `parseInt` (with leading white space, sign, `0x` prefix and NaN) |
| JsArrays | js_arrays.dfy | `filter`, `new Set` order, `indexOf`, `findIndex`, `slice` and the default string `sort` |
| Patterns | patterns.dfy | the regular expressions: `key="([^"]*)"` and `key="([^"]+)"`, `,(.+)$`, `,\s*(.+)$`, `[?&]v=([^&]+)` |
| M3uParser | m3u_parser.dfy | ymt/js/m3uParser.js, the reference channel parser (shared by every copy) |
| M3uAttributes | m3u_attributes.dfy | why attribute order never changes the record, and when a comma inside a value moves the title |
| ChannelManager, MyChannels | channel_manager.dfy, my_channels.dfy | the copies in ymt/js/channelManager.js and ymt/js/myChannels.js |
| ChannelInput | channel_input.dfy | ymt/channelInput.js, the TV tuner |
| KeyEvents, Navigation | key_events.dfy, navigation.dfy | ymt/js/navigation.js |
| Home | home_page.dfy | ymt/script.js |
| Player | player_page.dfy | ymt/player.js, including its gamepad polling |
| PlayerMobile | player_mobile.dfy | ymt/playerMobile.js, including its own tuner |
| LanguageFilter | language_filter.dfy | ymt/js/languageFilter.js |
| UiManager | ui_manager.dfy | ymt/js/uiManager.js |
| TvDetection | tv_detection.dfy | ymt/js/tvDetection.js |
| PageNav | page_nav.dfy | ymt/js/pageNav.js |
| NavBar | nav_bar.dfy | ymt/aatral-tv/js/navBar.js |
| ScheduleParser | schedule_parser.dfy | ymt/aatral-tv/js/m3uParser.js |
| VideoSchedule | video_player.dfy | ymt/aatral-tv/js/VideoPlayer.js |
| Portal | portal.dfy | main.js |

JavaScript numbers that come out of `parseInt` are modelled as `JsNum` (`NaN` or an
integer). A missing `c-no` is `None`, standing for `null`. Strings are `seq<char>`, a
sequence of Unicode scalar values; where JavaScript's view of a string as UTF-16 code
units matters (the relational operators and the default sort order), `JsArrays.Units`
gives those code units.

## Model

| member | source | states |
|---|---|---|
| ChannelInput.Show | ymt/channelInput.js:5-19 | the display shows the message, or the buffer when the message is empty, and the hide timer is armed; the buffer and the armed commit are untouched |
| ChannelInput.CommitFired | ymt/channelInput.js:42-48 | the commit reports the index it was armed with, then the buffer is empty and no commit is armed |
| ChannelInput.Digit | ymt/channelInput.js:29-64 | a digit with four characters buffered changes nothing; otherwise the buffer grows by the digit or is emptied, the display is shown and its timer restarted, and a newly armed commit names a playlist channel whose number is the buffer's parseInt value; DigitExact, DigitNoMatch and DigitPrefix state each case |
| ChannelInput.DigitAtLimit | ymt/channelInput.js:30-31 | a digit arriving with four characters buffered changes nothing at all |
| ChannelInput.DigitBound | ymt/channelInput.js:30-33 | one-character keys never take the buffer beyond four characters |
| ChannelInput.DigitExact | ymt/channelInput.js:33-48 | when parseInt of the buffer equals some channel number, the buffer is shown and a commit is armed for the first channel with that number, replacing any earlier commit |
| ChannelInput.DigitNoMatch | ymt/channelInput.js:49-58 | with no exact match and no channel number starting with the buffer, 'This no. not available for TV' is shown and the buffer is emptied at once, while an earlier commit stays armed |
| ChannelInput.DigitPrefix | ymt/channelInput.js:49-62 | with no exact match but a channel number starting with the buffer, the extended buffer is kept and shown, and an earlier commit stays armed |
| ChannelInput.DigitCommitInRange | ymt/channelInput.js:37-45 | an armed commit always names an index of the channel list |
| ChannelInput.DigitKeepsPrefix | ymt/channelInput.js:50-62 | a digit that makes the buffer a prefix of a listed number is kept |
| ChannelInput.TypingChannelNumber | ymt/channelInput.js:29-48 | typing the decimal text of a listed number of up to four digits from an empty buffer arms a commit for the first channel with that number, whatever other numbers share its prefixes |
| ChannelInput.TypingPrefix | ymt/channelInput.js:29-62 | while a listed number is typed, every prefix typed so far stays in the buffer |
| ChannelInput.NumberTuner.constructor | ymt/channelInput.js:1-3 | empty buffer, no timers, display absent |
| ChannelInput.NumberTuner.ShowNumberInput | ymt/channelInput.js:5-19 | the new state is Show of the old one |
| ChannelInput.NumberTuner.HideNumberInput | ymt/channelInput.js:21-27 | hides the display and empties the buffer only when the display exists |
| ChannelInput.NumberTuner.HandleNumberInput | ymt/channelInput.js:29-64 | the new state is Digit of the old one, whose cases are the lemmas above |
| ChannelInput.NumberTuner.CommitFires | ymt/channelInput.js:42-48 | returns the armed index and leaves the state CommitFired describes |
| KeyEvents.RemoteKey | ymt/js/navigation.js:75-83 | keyCode 13 gives Enter, 8, 27 and 461 give Back, and any code outside the mapped ones keeps `event.key` |
| KeyEvents.RemoteArrows | ymt/js/navigation.js:79-82 | keyCodes 37 to 40 give the four arrow keys |
| KeyEvents.DigitRangeChars | ymt/js/navigation.js:86 | the string comparison `key >= '0' && key <= '9'` admits exactly the texts that start with '0' to '8', and "9" alone, so on a one-character key it is the digit test |
| Navigation.Next | ymt/js/navigation.js:74-229 | a digit goes to the number input with the state unchanged; a channel is opened only from the grid and only when it exists; a language is applied only from the dropdown, which closes, and it is one of the dropdown's entries; the lemmas below state each region |
| Navigation.DigitKeys | ymt/js/navigation.js:85-91 | a digit key goes to the number input and changes no navigation state |
| Navigation.RemoteKeysAreNotDigits | ymt/js/navigation.js:77-86 | a mapped remote key never reaches the number input |
| Navigation.DropdownKeys | ymt/js/navigation.js:93-125 | in the dropdown, Up and Down keep the index on an entry without wrapping; Enter applies the highlighted language and closes the dropdown; Escape and Back close it without applying |
| Navigation.NavKeys | ymt/js/navigation.js:126-175 | in the nav bar, Left and Right stay on a nav item; Down enters the grid at card 0; Enter on item 1 opens the dropdown at entry 0; Enter on a linked item follows the link |
| Navigation.GridKeepsSelection | ymt/js/navigation.js:176-228 | every grid key keeps the selection on an existing card |
| Navigation.GridUpDown | ymt/js/navigation.js:183-202 | Up from the first row returns to the nav bar with the selection kept, otherwise moves one row (6 cards) up; Down moves a row down exactly when a card exists there |
| Navigation.GridLeftRightRow | ymt/js/navigation.js:203-214 | Left and Right never leave the row |
| Navigation.GridEnterBack | ymt/js/navigation.js:215-226 | Enter opens the selected channel if and only if it exists; Escape and Back return to the nav bar |
| Navigation.Navigator.constructor | ymt/js/navigation.js:2-6 | the page starts in the nav bar on item 0, with the dropdown closed and both indices 0 |
| Navigation.Navigator.HandleNavigation | ymt/js/navigation.js:74-229 | the new state and the effect are those of the key's transition function |
| Navigation.Navigator.DropdownKey | ymt/js/navigation.js:93-125 | the dropdown branch, as DropdownNext |
| Navigation.Navigator.NavKey | ymt/js/navigation.js:126-175 | the nav-bar branch, as NavNext |
| Navigation.Navigator.GridKey | ymt/js/navigation.js:176-228 | the grid branch, as GridNext |
| LanguageFilter.Languages | ymt/js/languageFilter.js:18 | each language of the playlist appears exactly once, and nothing else does |
| LanguageFilter.GridDimensions | ymt/js/languageFilter.js:17-23 | one item per distinct language plus 'All Languages', laid out in one to four columns, never more columns than items; GridDimensionsBounds adds the rows |
| LanguageFilter.GridDimensionsBounds | ymt/js/languageFilter.js:17-23 | totalItems is the number of distinct languages plus one; 1 ≤ columns ≤ 4 and columns ≤ totalItems; rows is just enough to hold every entry: (rows − 1)·columns < totalItems ≤ rows·columns |
| LanguageFilter.CeilDivBounds | ymt/js/languageFilter.js:21 | `Math.ceil(a / b)` is the least q with a ≤ q·b |
| LanguageFilter.Options | ymt/js/languageFilter.js:39-98 | 'All Languages' (value '') and then one entry per distinct language, each a language of the playlist; OptionsOrder adds the sorted order |
| LanguageFilter.OptionsOrder | ymt/js/languageFilter.js:39-98 | the rendered entries are 'All Languages' (value '') and then every distinct language once, in strictly increasing order; one entry per grid cell |
| LanguageFilter.HighlightIsSelection | ymt/js/languageFilter.js:100-102 | the highlighted entry is the selection's own entry, and entry 0 when there is no selection or it is not offered |
| LanguageFilter.ListedIndexFollowsDropdown | ymt/js/languageFilter.js:100-107 | with the dropdown open the index becomes the highlight; closed, it is left as it was |
| LanguageFilter.FilterChannels | ymt/js/languageFilter.js:116-121 | the result is drawn from the channels, never longer, and with a selection holds only channels of that language; FilterChannelsMatches adds the converse |
| LanguageFilter.FilterChannelsMatches | ymt/js/languageFilter.js:116-121 | no selection keeps every channel; a selection keeps exactly the channels of that language |
| LanguageFilter.FilterChannelsIdempotent | ymt/js/languageFilter.js:116-121 | filtering twice by the same selection equals filtering once |
| TvDetection.IsSmartTV | ymt/js/tvDetection.js:7-19 | an agent is a TV if and only if its lower-cased form contains 'tv', 'netcast', 'viera', 'webos' or 'tizen' (the other listed markers contain 'tv') |
| TvDetection.TvMarkersSubsumed | ymt/js/tvDetection.js:10-12 | a text containing 'smart-tv', 'android tv' or 'hbbtv' contains 'tv' |
| TvDetection.SmartTVIsSomeMarker | ymt/js/tvDetection.js:7-19 | an agent is a TV if and only if its lower-cased form contains one of the eight listed markers, so the result is false exactly when none occurs |
| TvDetection.MarkerListed | ymt/js/tvDetection.js:9-18 | the chain of includes tests is containment of some listed marker |
| TvDetection.CaseInsensitive | ymt/js/tvDetection.js:8 | an agent and its lower-cased form are judged alike |
| UiManager.GridColumns | ymt/js/uiManager.js:18-37 | without a container four columns; always between two and six; six on a non-TV container at least 1920 pixels wide |
| UiManager.GridColumnsRange | ymt/js/uiManager.js:18-37 | between two and six columns, three to five on a TV, four without a container; for a fixed device class a wider container never gets fewer columns |
| UiManager.Pressed | ymt/js/uiManager.js:128-136 | the guard either stays as it was or records this key at this time; a repeat of the remembered key within 300 ms leaves it, a different key is always recorded |
| UiManager.RepeatsSwallowed | ymt/js/uiManager.js:128-132 | once a key is accepted at t, every further press of that key before t + 300 ms is rejected and leaves the reference at t |
| UiManager.AcceptedBecomesReference | ymt/js/uiManager.js:133-135 | a different key, or the same key 300 ms or more later, is accepted and becomes the new reference |
| UiManager.KeyRepeatGuard.constructor | ymt/js/uiManager.js:7-12 | no last key, time 0 |
| UiManager.KeyRepeatGuard.ShouldProcessKey | ymt/js/uiManager.js:128-136 | answers whether the press is accepted and leaves the guard as Pressed describes |
| UiManager.TvKeypress | ymt/js/uiManager.js:152-175 | off a TV nothing is forwarded; a forwarded event carries a key other than the pressed one and key code 0 |
| UiManager.TvKeyIsRemoteKey | ymt/js/uiManager.js:162-170 | the TV keypress mapping is the pages' remote mapping plus keyCode 32 as Enter |
| UiManager.TvKeypressForwards | ymt/js/uiManager.js:152-175 | a keypress is forwarded to handleNavigation exactly on a TV when the mapping changed the key, carrying the mapped key; unmapped codes are never forwarded |
| PageNav.Marks | ymt/js/pageNav.js:14-21 | one flag per nav item |
| PageNav.ExactlyOneSelected | ymt/js/pageNav.js:14-21 | after updateSelectedNav exactly one item is marked, the one at the index, when the index is in range |
| PageNav.InitialIndex | ymt/js/pageNav.js:4-11 | the initial index is the last item already marked 'selected', and 0 when none is |
| PageNav.Down | ymt/js/pageNav.js:25-27 | with items the next index lies in [0, n); with none the index stays; UpDownInverse states the wrap |
| PageNav.Up | ymt/js/pageNav.js:28-30 | with items the previous index lies in [0, n); with none the index stays; UpDownInverse states the wrap |
| PageNav.UpDownInverse | ymt/js/pageNav.js:25-30 | Down and Up keep the index in [0, n); Up undoes Down and Down undoes Up; Down wraps from the last item to the first and Up from the first to the last |
| PageNav.DownSteps | ymt/js/pageNav.js:25-27 | k presses of Down (k ≤ n) move k items forward round the ring |
| PageNav.FullCircle | ymt/js/pageNav.js:25-27 | n presses of Down return to the starting item |
| PageNav.PageForTable | ymt/js/pageNav.js:33-52 | Enter leads to a page exactly when the lower-cased label is in the table, and then to that entry's page; 'language' and 'category' both open player.html |
| PageNav.KeyDown | ymt/js/pageNav.js:24-53 | only Enter on an existing item leads to a page, and it leaves the menu as it was; keys other than the arrows never change the menu; after an arrow the index is an item and that item is marked |
| PageNav.KeyDownKeepsInRange | ymt/js/pageNav.js:24-53 | every key keeps the index in range; after an arrow exactly the selected item is marked; only Enter leads anywhere, and then to the selected item's page |
| PageNav.LoadedInRange | ymt/js/pageNav.js:3-11 | the loaded menu starts in range |
| PageNav.PageMenu.constructor | ymt/js/pageNav.js:2-11 | the index is the last marked item, otherwise 0 |
| PageNav.PageMenu.UpdateSelectedNav | ymt/js/pageNav.js:14-21 | marks exactly the selected item and clears every other, leaving the index alone |
| PageNav.PageMenu.HandleKey | ymt/js/pageNav.js:24-54 | the new state and the page to open are those of KeyDown |
| NavBar.PageForCases | ymt/aatral-tv/js/navBar.js:75-92 | five lower-cased labels lead to a page, 'language' and 'category' both to the player page; any other label, 'aatral tv' among them, leads nowhere |
| NavBar.LoadedValid | ymt/aatral-tv/js/navBar.js:123-130 | on load the first item is the only one marked |
| NavBar.Handle | ymt/aatral-tv/js/navBar.js:34-95 | a page is only reached by Enter, which changes nothing but the hide timer; gamepad Back and Left hide the menu; the index moves by at most one and stays within the items |
| NavBar.HandleClamps | ymt/aatral-tv/js/navBar.js:34-95 | every event keeps the index within the items with exactly that item marked; Up and Down move by one, clamped at both ends; no other key moves it; Right shows the menu and Left or a held gamepad Back hides it |
| NavBar.HandleRestartsTimer | ymt/aatral-tv/js/navBar.js:25-31 | showing the menu, moving the selection and Enter restart the single hide timer; Left and gamepad Back leave it as it was |
| NavBar.HandleNavigates | ymt/aatral-tv/js/navBar.js:73-93 | only Enter leads to a page, and then to the page of the selected item's label |
| NavBar.DownStopsAtLast | ymt/aatral-tv/js/navBar.js:65-71 | repeated Down advances one item per press and stops at the last item instead of wrapping |
| NavBar.Test | ymt/aatral-tv/js/navBar.js:103-117 | one button test: an unpressed button changes nothing; the frame keeps running exactly when the button exists and, if pressed, the Back button exists and the press is not an Enter on a missing item, which throws after restarting the hide timer; an index inside the menu stays inside; a page, once assigned, is only replaced by another |
| NavBar.PadFrame | ymt/aatral-tv/js/navBar.js:101-118 | from an index inside the menu, or on an empty menu, one pad's five tests complete exactly when the pad has more than 15 buttons and is not pressing A without Back on an empty menu; only a pad of more than 15 buttons can complete; a pad of at most 12 buttons throws at button 12 before anything happens |
| NavBar.BackDominates | ymt/aatral-tv/js/navBar.js:38-44 | with the gamepad Back button held, on any pad: no move, no page, the timer untouched, the menu untouched or hidden; on a full pad hidden exactly when a direction or A was pressed |
| NavBar.ThrowKeepsEarlierPresses | ymt/aatral-tv/js/navBar.js:101-106 | on a 13-button pad a pressed Up is handled before button 13 throws, and the frame stops |
| NavBar.AllPads | ymt/aatral-tv/js/navBar.js:98-119 | from an index inside the menu, or on an empty menu, a frame over all pads completes exactly when every connected pad has more than 15 buttons and none presses A without Back on an empty menu; a stopped frame stays as it is |
| NavBar.AllPadsAfterThrow | ymt/aatral-tv/js/navBar.js:98-119 | once a pad has thrown, the pads after it change nothing |
| NavBar.AllPadsKeepValid | ymt/aatral-tv/js/navBar.js:98-121 | a frame of gamepad polling over all pads keeps the bar valid, whether it completes or throws |
| NavBar.TestKeepsValid | ymt/aatral-tv/js/navBar.js:103-117 | one button test keeps the bar valid |
| NavBar.PadFrameKeepsValid | ymt/aatral-tv/js/navBar.js:101-118 | one pad's five button tests keep the bar valid, whatever the pad's size |
| NavBar.NavMenu.constructor | ymt/aatral-tv/js/navBar.js:123-130 | index 0 with the first item marked, the menu as its markup has it, no hide timer and no animation-frame callback pending |
| NavBar.NavMenu.UpdateSelectedNavItem | ymt/aatral-tv/js/navBar.js:4-8 | marks exactly the item at the index and changes nothing else |
| NavBar.NavMenu.ResetNavHideTimer | ymt/aatral-tv/js/navBar.js:25-32 | replaces any pending hide with a single new one |
| NavBar.NavMenu.ShowNavBar | ymt/aatral-tv/js/navBar.js:10-16 | shows the menu and restarts the hide timer |
| NavBar.NavMenu.HideNavBar | ymt/aatral-tv/js/navBar.js:18-23 | hides the menu, nothing else |
| NavBar.NavMenu.HandleNavigation | ymt/aatral-tv/js/navBar.js:34-95 | the new state and the page opened are those of Handle |
| NavBar.NavMenu.HideTimerFires | ymt/aatral-tv/js/navBar.js:29-31 | the expired timer hides the menu |
| NavBar.NavMenu.MouseMove | ymt/aatral-tv/js/navBar.js:139-143 | mouse movement restarts the timer only while the menu is shown |
| NavBar.NavMenu.TestButton | ymt/aatral-tv/js/navBar.js:103-117 | one button test on the menu's state, throwing as Test does; no callback is scheduled |
| NavBar.NavMenu.PadInput | ymt/aatral-tv/js/navBar.js:101-118 | one pad's buttons in the source's order, stopping at the first throw, as PadFrame |
| NavBar.NavMenu.HandleGamepadInput | ymt/aatral-tv/js/navBar.js:98-121 | one frame over every connected pad, as AllPads; only a completed frame schedules the next callback |
| NavBar.NavMenu.GamepadConnected | ymt/aatral-tv/js/navBar.js:134-136 | a connected pad starts a polling chain unless its first frame throws |
| NavBar.NavMenu.AnimationFrame | ymt/aatral-tv/js/navBar.js:98-121 | a pending callback runs a frame; a frame that throws schedules no successor, so that polling chain ends for good |
| ScheduleParser.Parse | ymt/aatral-tv/js/m3uParser.js:1-53 | a successful parse holds at least one entry; the only error is 'Failed to parse M3U file: ' followed by the no-entries message; ParseOutcome states when each happens |
| ScheduleParser.Entry | ymt/aatral-tv/js/m3uParser.js:17-36 | an entry keeps its URL line as its URL, its streaming slot is a `dd:dd:dd` text and its video id is the URL's `v=` parameter; EntryRequires and EntryFields state the rest |
| ScheduleParser.NonBlankLines | ymt/aatral-tv/js/m3uParser.js:3 | the lines kept are exactly the lines of the content that are not whitespace-only |
| ScheduleParser.TimeAttrSpec | ymt/aatral-tv/js/m3uParser.js:17-19 | a time is the decimal value of a digit string quoted after its name in the header, and is present exactly when the pattern matches |
| ScheduleParser.StreamingAttrSpec | ymt/aatral-tv/js/m3uParser.js:20 | the streaming slot is always a `dd:dd:dd` text: the header's own when it has one, '00:00:00' otherwise |
| ScheduleParser.EntriesAt | ymt/aatral-tv/js/m3uParser.js:6-43 | one step of the scan: a header with a following line yields its entry, if valid, and skips that line; a header on the last line yields nothing; any other line is passed over |
| ScheduleParser.ParseM3U | ymt/aatral-tv/js/m3uParser.js:1-53 | returns the value of Parse |
| ScheduleParser.ScanEntries | ymt/aatral-tv/js/m3uParser.js:4-43 | the loop with its manual skip collects exactly the entries of the line pairs |
| ScheduleParser.EntryRequires | ymt/aatral-tv/js/m3uParser.js:17-27 | an entry is emitted exactly when start, end and total time are digit strings, a comma title exists and the URL has a `v=` id; the streaming slot is optional |
| ScheduleParser.EntryFields | ymt/aatral-tv/js/m3uParser.js:28-36 | the entry's times are the decimal values of their attributes, its slot is a `dd:dd:dd` text defaulting to '00:00:00', and its url is the whole next line |
| ScheduleParser.EntryTitleAndId | ymt/aatral-tv/js/m3uParser.js:21-25 | the title is a non-empty tail of the header after the comma and its spaces; the video id is non-empty, free of '&' and follows `?v=` or `&v=` in the URL |
| ScheduleParser.CarriageReturnSkipsEntry | ymt/aatral-tv/js/m3uParser.js:21 | a header that keeps a CRLF '\r' at its end never matches the title pattern, so its entry is skipped |
| ScheduleParser.UrlLineConsumed | ymt/aatral-tv/js/m3uParser.js:9-41 | the line after a header is consumed whatever it holds, even another header |
| ScheduleParser.TrailingHeaderSkipped | ymt/aatral-tv/js/m3uParser.js:11-14 | a header on the last line yields nothing: appending one changes the entries only when it becomes the URL line of a header before it |
| ScheduleParser.EntriesFromPairs | ymt/aatral-tv/js/m3uParser.js:6-43 | every entry comes from a header line and the line after it, and there are at most half as many entries as lines |
| ScheduleParser.ParseOutcome | ymt/aatral-tv/js/m3uParser.js:45-52 | parsing fails exactly when no entry is valid, always with the 'Failed to parse M3U file: ' prefix, and otherwise returns the entries |
| VideoSchedule.TimeToSeconds | ymt/aatral-tv/js/VideoPlayer.js:40-44 | the empty time is 0 seconds; TimeWithoutColon and ClockSeconds state the other cases |
| VideoSchedule.TimeWithoutColon | ymt/aatral-tv/js/VideoPlayer.js:42-43 | a non-empty time without ':' has no minutes part, so the sum is NaN |
| VideoSchedule.NumbersSeconds | ymt/aatral-tv/js/VideoPlayer.js:42-43 | when the three parts parse to the numbers H, M and S, the result is 3600·H + 60·M + S |
| VideoSchedule.ParseParts | ymt/aatral-tv/js/VideoPlayer.js:42 | one number per part |
| VideoSchedule.ClockValue | ymt/aatral-tv/js/VideoPlayer.js:40-44 | the value of a `dd:dd:dd` text is at most 99·3600 + 99·60 + 99 |
| VideoSchedule.PairValue | ymt/aatral-tv/js/VideoPlayer.js:42 | two decimal digits are worth at most 99 |
| VideoSchedule.ClockSplit | ymt/aatral-tv/js/VideoPlayer.js:42 | splitting `HH:MM:SS` on ':' gives its three two-digit parts |
| VideoSchedule.TwoDigits | ymt/aatral-tv/js/VideoPlayer.js:42 | parseInt(…, 10) of two decimal digits is their value |
| VideoSchedule.ClockNumbers | ymt/aatral-tv/js/VideoPlayer.js:42 | the three parts of `HH:MM:SS` parse to the values of their digit pairs |
| VideoSchedule.ThreePairs | ymt/aatral-tv/js/VideoPlayer.js:42 | three two-digit parts parse to their values |
| VideoSchedule.ClockSeconds | ymt/aatral-tv/js/VideoPlayer.js:40-44 | timeToSeconds of `HH:MM:SS` is 3600·H + 60·M + S |
| VideoSchedule.PartsSeconds | ymt/aatral-tv/js/VideoPlayer.js:41-43 | a non-empty time whose three parts parse to given numbers is worth hours·3600 + minutes·60 + seconds |
| VideoSchedule.ParsedIsScheduled | ymt/aatral-tv/js/m3uParser.js:20-34 | a parsed playlist is non-empty and every slot in it is a `dd:dd:dd` text, so every slot converts to a number |
| VideoSchedule.StartOffset | ymt/aatral-tv/js/VideoPlayer.js:46-54 | the offset is a number exactly when the streaming slot reads as one, and then never past endTime |
| VideoSchedule.StartOffsetBounds | ymt/aatral-tv/js/VideoPlayer.js:46-54 | the start offset is a number, never past endTime and never before startTime unless the entry's range is empty; inside the range it is the time elapsed since the slot plus startTime, below it startTime, above it endTime |
| VideoSchedule.InsertIndex | ymt/aatral-tv/js/VideoPlayer.js:64-68 | inserting a position keeps the copy stably sorted and adds exactly that position |
| VideoSchedule.SortedIndices | ymt/aatral-tv/js/VideoPlayer.js:64-68 | the sorted copy is stably sorted by slot and holds every playlist position once |
| VideoSchedule.Keys | ymt/aatral-tv/js/VideoPlayer.js:65-66 | the slot of every entry in seconds |
| VideoSchedule.NearestUnique | ymt/aatral-tv/js/VideoPlayer.js:56-91 | at most one entry meets the selection rule, so the choice is determined |
| VideoSchedule.BeforeAsymmetric | ymt/aatral-tv/js/VideoPlayer.js:64-68 | two different entries are never each before the other in the stable order |
| VideoSchedule.FindNearestVideo | ymt/aatral-tv/js/VideoPlayer.js:56-91 | an empty playlist is the 'Empty playlist' error; otherwise the result is a valid position that holds the reached entry with the latest slot (the last in the playlist among equal slots), or, when no slot is reached, the entry with the earliest slot (the first among equal slots) |
| VideoSchedule.SelectReached | ymt/aatral-tv/js/VideoPlayer.js:70-82 | the loop over the sorted copy keeps the last reached entry and stops at the first unreached one; nothing is kept exactly when the earliest slot is still ahead |
| VideoSchedule.VideoEnded | ymt/aatral-tv/js/VideoPlayer.js:290-301 | the check stops and the playlist and error stay; the index moves one on unless the last entry ended, and the player stops exactly when it was stopped or the last entry ended |
| VideoSchedule.VideoEndedAdvances | ymt/aatral-tv/js/VideoPlayer.js:290-301 | at the end of a video the check stops; the player moves one entry on and loads it at its clock offset, except after the last entry, where it stops and stays; the index stays in range |
| VideoSchedule.EndedTimesIndex | ymt/aatral-tv/js/VideoPlayer.js:295-300 | after k ends the player is k entries further on, or on the last entry |
| VideoSchedule.LoadPlaylist | ymt/aatral-tv/js/VideoPlayer.js:93-108 | a failed fetch or a blank text loads nothing, and a loaded playlist is never empty |
| VideoSchedule.LoadPlaylistScheduled | ymt/aatral-tv/js/VideoPlayer.js:93-108 | a playlist loads exactly when the fetch succeeded, the text is not blank and it parses; a loaded playlist is non-empty and scheduled |
| VideoSchedule.ChosenPlaylist | ymt/aatral-tv/js/VideoPlayer.js:110-130 | today's playlist when it loaded, otherwise the backup when it loaded, otherwise none; when init fails the playlist is empty |
| VideoSchedule.FallbackOrder | ymt/aatral-tv/js/VideoPlayer.js:110-124 | today's playlist wins whenever it loads, whatever the backup holds; the backup is the fallback; init fails exactly when neither loads |
| VideoSchedule.ChosenScheduled | ymt/aatral-tv/js/VideoPlayer.js:126-130 | the playlist init settles on is never empty, so the empty-playlist check never fires |
| VideoSchedule.ScheduledPlayer.constructor | ymt/aatral-tv/js/VideoPlayer.js:4-11 | empty playlist at index 0, no check running |
| VideoSchedule.ScheduledPlayer.Init | ymt/aatral-tv/js/VideoPlayer.js:110-130 | on success the playlist is the chosen one and the index is the nearest entry; on failure the message is kept and playlist and index are untouched |
| VideoSchedule.ScheduledPlayer.LoadNextVideo | ymt/aatral-tv/js/VideoPlayer.js:327-337 | loads the current entry at its start offset when the index is in range |
| VideoSchedule.ScheduledPlayer.StartTimeCheck | ymt/aatral-tv/js/VideoPlayer.js:273-288 | the end-of-video check interval runs afterwards, and nothing else changes |
| VideoSchedule.ScheduledPlayer.HandleVideoEnd | ymt/aatral-tv/js/VideoPlayer.js:290-301 | the new state is VideoEnded of the old one |
| M3uParser.Classified | ymt/js/m3uParser.js:11-12 | one kind per line |
| M3uParser.ClassifiedAt | ymt/js/m3uParser.js:11-12 | the kind of line i is the classification of line i |
| M3uParser.ClassifiedIsClassified | ymt/js/m3uParser.js:11-12 | the kinds classify the lines one by one |
| M3uParser.Parse | ymt/js/m3uParser.js:6-39 | never more channels than lines; ParseCount and ParseLines state which lines they come from |
| M3uParser.Step | ymt/js/m3uParser.js:21-34 | one line appends at most one channel, and only a URL line with a channel pending does, which empties the slot; Player.StepEmitsAtMostOne adds that the earlier channels stay |
| M3uParser.TitledCountBound | ymt/js/m3uParser.js:11-36 | there are never more titled headers than lines |
| M3uParser.ParseM3U | ymt/js/m3uParser.js:6-39 | returns the value of Parse: the scan of the lines split on '\n' |
| M3uParser.ScanLines | ymt/js/m3uParser.js:8-38 | the loop over the lines, with the pending slot and the output as variables, produces the channels of the scan |
| M3uParser.ReadLineAt | ymt/js/m3uParser.js:11-36 | one iteration advances the scan by one line |
| M3uParser.ReadLine | ymt/js/m3uParser.js:12-35 | the loop body on one raw line is one Step of the scan |
| M3uParser.ReadHeader | ymt/js/m3uParser.js:14-30 | the matches of a `#EXTINF:` line fill the slot when the line has a title and leave it alone otherwise |
| M3uParser.ClassifyTitledKind | ymt/js/m3uParser.js:14-22 | a line fills the slot exactly when its trimmed form starts with `#EXTINF:` and has a `,(.+)$` title |
| M3uParser.ClassifyUntitledKind | ymt/js/m3uParser.js:14-21 | a `#EXTINF:` line without a title leaves the slot unchanged, and only such a line does |
| M3uParser.ClassifySkipped | ymt/js/m3uParser.js:31 | blank lines and '#' lines other than `#EXTINF:` lines change nothing; every other line is a URL line |
| M3uParser.ClassifyTitled | ymt/js/m3uParser.js:21-29 | the record a titled header creates has the trimmed, non-empty title of the match and an empty URL |
| M3uParser.ClassifyUrl | ymt/js/m3uParser.js:12-32 | a URL is the trimmed line, non-empty and not starting with '#' |
| M3uParser.HeaderTitle | ymt/js/m3uParser.js:16-23 | a channel is created exactly when a `,(.+)$` title exists, and its title is the trimmed text after the first comma so followed, never empty |
| M3uParser.HeaderNeedsComma | ymt/js/m3uParser.js:16-21 | a header with no comma creates no channel |
| M3uParser.HeaderDefaults | ymt/js/m3uParser.js:24-27 | absent attributes take the defaults: logo '', category 'Uncategorized', language 'Unknown', channel number null |
| M3uParser.HeaderAttributes | ymt/js/m3uParser.js:15-27 | attribute values are quote-free and occur quoted in the line; a `c-no` value is present exactly when the attribute is, and is its parseInt value |
| M3uParser.LogoRules | ymt/js/m3uParser.js:15 | `tvg-logo=""` gives '' under `[^"]+` as an absent attribute does; the two logo patterns agree unless the first value is empty and a later one is not, and never differ in any other field |
| M3uParser.ScanCount | ymt/js/m3uParser.js:21-34 | there are never more channels, counting a pending one, than titled `#EXTINF:` lines |
| M3uParser.ParseCount | ymt/js/m3uParser.js:11-38 | the output has at most as many channels as titled `#EXTINF:` lines |
| M3uParser.ScanTrace | ymt/js/m3uParser.js:11-36 | the scan keeps its trace invariant: each channel and the pending slot are tied to the lines they came from |
| M3uParser.TraceStepKeeps | ymt/js/m3uParser.js:12-35 | one line keeps the trace invariant |
| M3uParser.ParseLines | ymt/js/m3uParser.js:11-38 | the k-th channel is the record of a titled `#EXTINF:` line completed by the trimmed URL line after it, with nothing in between that replaced or completed it; channels come in the order of their URL lines, each header at most once |
| M3uParser.UnfinishedEntryDropped | ymt/js/m3uParser.js:21-30 | a titled header followed by another titled header before any URL line is dropped |
| M3uParser.ClassifyLogoRules | ymt/player.js:36 | the `[^"]+` and `[^"]*` logo patterns classify every line alike, with records that differ at most in the logo |
| M3uParser.ScanSameButLogo | ymt/js/m3uParser.js:11-36 | scans of lines classified alike but for logos differ at most in logos |
| M3uParser.ParseLogoRules | ymt/playerMobile.js:60 | the logo pattern a copy uses affects only the logo field: the same number of channels, and every other field equal |
| ChannelManager.ParseM3U | ymt/js/channelManager.js:21-54 | this copy is the shared scanner with the `[^"]+` logo pattern, so `tvg-logo=""` gives '' as an absent attribute does |
| MyChannels.ParseM3U | ymt/js/myChannels.js:13-46 | this copy is the shared scanner with the `[^"]+` logo pattern |
| M3uAttributes.SegmentMatch | ymt/js/m3uParser.js:17-19 | right after its space, a written ` key="value"` yields its value when the value class accepts it |
| M3uAttributes.AttrValueOfAttrs | ymt/js/m3uParser.js:15-19 | the search over written attributes finds the first attribute of that key the class accepts, and otherwise goes on in whatever follows them |
| M3uAttributes.SkipPrefix | ymt/js/m3uParser.js:15-19 | the search passes over `#EXTINF:<duration>` when the duration holds no '=' |
| M3uAttributes.HeaderLookup | ymt/js/m3uParser.js:15-19 | every looked-up attribute of a well-formed header line is found among its attributes, and otherwise in the title text |
| M3uAttributes.HeaderTitleText | ymt/js/m3uParser.js:16 | the title of a well-formed header line is found after the comma that ends the attributes |
| M3uAttributes.LookupDistinct | ymt/js/m3uParser.js:15-19 | with distinct keys a lookup finds exactly the one attribute of that key |
| M3uAttributes.LookupPermutation | ymt/js/m3uParser.js:15-19 | permuting attributes with distinct keys changes no lookup |
| M3uAttributes.AttributeOrderIrrelevant | ymt/js/m3uParser.js:15-29 | writing the same attributes in another order gives the same channel record, under both logo patterns, when keys are distinct and values free of '"', '=' and ',' |
| M3uAttributes.TitleOfLine | ymt/js/m3uParser.js:16-23 | a line whose first comma is followed by a terminator-free text gets that text, trimmed, as its title |
| M3uAttributes.CommaValueTitle | ymt/js/m3uParser.js:16 | when a value holds a comma, the title is everything after that comma |
| M3uAttributes.FirstAndLastTitles | ymt/js/m3uParser.js:16 | the titles of a line whose comma-holding attribute comes first and of one where it comes last |
| M3uAttributes.CommaInValueMovesTitle | ymt/js/m3uParser.js:16-23 | with a comma inside a value, writing that attribute first or last gives two different titles, so order matters there |
| Home.Languages | ymt/script.js:82 | the language of every channel, in order |
| Home.LanguageOptions | ymt/script.js:81-98 | the first entry is 'All Languages', value '' |
| Home.LanguageOptionsCover | ymt/script.js:81-98 | after 'All Languages' come the channels' languages, each exactly once, and nothing else |
| Home.FilterLanguage | ymt/script.js:100-105 | the empty selection keeps the whole list; otherwise exactly the channels of that language |
| Home.FilterLanguageAppend | ymt/script.js:104 | filtering keeps the original order: a split list filters part by part |
| Home.FilterLanguageIdempotent | ymt/script.js:100-105 | applying the same selection again changes nothing |
| Home.Next | ymt/script.js:142-271 | a key never changes the playlist, the dropdown entries or the nav labels; storage changes only when player.html is opened; the language changes only by Enter in the dropdown, to one of its entries |
| Home.NextValid | ymt/script.js:142-271 | every key keeps the dropdown index on an entry, the nav index on a nav item and the grid index on a card |
| Home.GridDown | ymt/script.js:238-243 | Down moves one row down exactly when a card exists there, since the row test is implied by the index test, and changes nothing else |
| Home.RowBelowExists | ymt/script.js:239 | a card four places on lies in a row above the last, so the row test passes |
| Home.GridUp | ymt/script.js:228-237 | Up from the top row returns to the nav bar with the card index kept; from any other row it moves one row up |
| Home.GridDownUp | ymt/script.js:228-243 | Down and then Up comes back to the same card |
| Home.GridLeftRight | ymt/script.js:244-255 | Left and Right stay in the row and on an existing card |
| Home.GridEnter | ymt/script.js:256-263 | Enter stores the channel number's text and URL and opens player.html exactly for an existing card with a truthy number, so 0, NaN and null are not selectable; otherwise nothing changes |
| Home.NavKeys | ymt/script.js:171-220 | Left and Right move within the nav items; Down or Enter on item 1 opens the dropdown at entry 0; Down elsewhere enters the grid at the card selected before |
| Home.DropdownKeys | ymt/script.js:143-170 | Up and Down move without wrapping; Enter applies the highlighted language, filters the grid, resets its index and closes; Escape closes without applying |
| Home.HomePage.constructor | ymt/script.js:273-289 | the globals' initial values, then the parsed playlist, its language list, and the key handler installed exactly when there are channels, otherwise 'No channels found' |
| Home.HomePage.KeyDown | ymt/script.js:288 | without the installed handler a key changes nothing; with it, the key's transition |
| Home.HomePage.HandleNavigation | ymt/script.js:142-271 | the new state and the effect are those of Next, and the indices stay valid |
| Home.HomePage.DropdownKey | ymt/script.js:143-170 | the dropdown branch, as DropdownNext |
| Home.HomePage.NavKey | ymt/script.js:171-220 | the nav-bar branch, as NavNext |
| Home.HomePage.GridKey | ymt/script.js:221-264 | the grid branch, as GridNext |
| Home.HomePage.FilterChannels | ymt/script.js:100-119 | the filtered list is the channels of the selected language and the grid index resets to 0 |
| Home.HomePage.ParseChannels | ymt/script.js:12-45 | this copy is the shared scanner with the `[^"]+` logo pattern |
| Player.Offered | ymt/player.js:56-57 | only non-empty values are offered; every non-empty value of a channel is offered; every offered value belongs to a channel |
| Player.OfferedSnoc | ymt/player.js:54-57 | one more emitted channel offers its value when that value is non-empty, and nothing else |
| Player.SetOfMembers | ymt/player.js:52-59 | the category and language sets hold exactly the non-empty values of the emitted channels |
| Player.ParseM3UWithSets | ymt/player.js:27-64 | the copy of parseM3U returns the shared scan with the `[^"]*` logo pattern, and leaves in the sets each non-empty category and language of the emitted channels once |
| Player.ScanLines | ymt/player.js:32-61 | the loop produces the scan's channels, and after every line the sets are those of the channels emitted so far |
| Player.ReadLine | ymt/player.js:33-60 | one loop iteration performs one scan step and keeps the sets equal to those of the emitted channels |
| Player.StepEmitsAtMostOne | ymt/player.js:52-59 | a line emits at most one channel, appended at the end |
| Player.SetOfSnoc | ymt/player.js:56-57 | `Set.add` of a value adds it at the end unless it is empty or already present |
| Player.AddToSets | ymt/player.js:56-57 | adding the new channel's category and language keeps the sets equal to those of the channels emitted so far |
| Player.Listed | ymt/player.js:168-175 | section 'category' keeps exactly the channels of the chosen category, 'language' those of the chosen language, any other section the whole playlist |
| Player.ResetAutoHide | ymt/player.js:66-76 | on the player page the auto-hide timer is armed; nothing else changes |
| Player.Toggle | ymt/player.js:78-108 | off the player page nothing changes; on it the lists are displayed and marked exactly as asked, showing arms the auto-hide timer and hiding cancels it |
| Player.ChannelLoaded | ymt/player.js:217-255 | an index outside the active list (the filtered list, or the playlist when it is empty) changes nothing; inside it the channel becomes current and plays, and lists marked hidden are hidden; consistency is kept |
| Player.ChannelListUpdated | ymt/player.js:160-185 | the filtered list becomes the channels the section keeps, the index goes to 0 and the first listed channel plays; consistency is kept |
| Player.NavSelectionUpdated | ymt/player.js:288-305 | a nav item captioned 'language' or 'category' becomes the section with both selections cleared; on the player page the list is refiltered to that section from its first channel, which plays, and the section's entries become the category list; any other item changes nothing; consistency is kept |
| Player.CategorySelectionUpdated | ymt/player.js:307-323 | the highlighted entry becomes currentCategory or currentLanguage by section, the other selection stays, and the list becomes exactly the playlist's channels of that entry, from its first channel, which plays; with no entry highlighted nothing changes; consistency is kept |
| Player.ActiveColumnUpdated | ymt/player.js:514-531 | entering the category column of the player page highlights entry 0 and applies it as the selection, refiltering the list from its first channel; any other column change leaves the page as it was |
| Player.ChannelChangedAsWritten | ymt/player.js:273-283 | as written, a move inside the active list selects the neighbour and marks the lists visible without displaying them; a move outside changes nothing |
| Player.ChannelChanged | ymt/player.js:273-283 | a move inside the active list selects and plays the neighbour; a move outside changes nothing; consistency is kept |
| Player.PlaySelected | ymt/player.js:257-271 | a stored number and URL are consumed (both keys removed) and only the current index and playback change; consistency is kept when the whole playlist is listed |
| Player.HiddenNext | ymt/player.js:404-418 | with the lists hidden, keys other than Right, Up and Down change nothing, and no key moves the focus; consistency is kept |
| Player.HiddenNextAsWritten | ymt/player.js:404-418 | the same branch with changeChannel as written: other keys change nothing and the focus stays |
| Player.ColumnNext | ymt/player.js:420-511 | a key handled by the column switch never changes the playlist, its sets or the page kind |
| Player.LeftKey | ymt/player.js:421-429 | Left moves one column left from columns 1 and 2, and in column 0 of the player page hides the lists |
| Player.RightKey | ymt/player.js:431-436 | Right moves one column right, only below column 2 and only on the player page |
| Player.UpKey | ymt/player.js:438-454 | Up moves the focused column's index one back unless it is 0: a nav item whose 'language' or 'category' caption becomes the section, a category entry that becomes the selection, or on the player page a channel that plays with the lists marked visible; the column and the other indices stay; consistency is kept while the lists show |
| Player.DownKey | ymt/player.js:456-477 | Down moves the focused column's index one on unless it is at the column's last nav item, entry or channel, with the same effects as Up; the column and the other indices stay; consistency is kept while the lists show |
| Player.Leave | ymt/player.js:325-334 | leaving stops the video and navigates to the page; nothing else changes |
| Player.EnterKey | ymt/player.js:479-500 | Enter leaves the page exactly for a focused 'home', 'about' or 'settings' item (stopping the video) or a 'language' or 'category' item off the player page (to player.html); in the channel column of the player page it hides the lists and replays the current channel; otherwise nothing changes; the focus stays and a non-empty playlist stays consistent |
| Player.BackKey | ymt/player.js:502-510 | Back and Escape hide the lists on the player page and go to index.html elsewhere |
| Player.AutoHideFired | ymt/player.js:70-75 | the expired timer is disarmed and lists marked visible are hidden |
| Player.Tuned | ymt/player.js:363-389 | the tuner callback keeps the page consistent |
| Player.PageCommitFired | ymt/channelInput.js:42-48 | the commit clears the buffer and the pending commit and keeps the page consistent |
| Player.NumberHidden | ymt/channelInput.js:16-26 | the display timer changes the tuner only |
| Player.Next | ymt/player.js:340-512 | a key never changes the playlist, its category and language sets or the page kind, and a digit leads to no page; the lemmas below state each key |
| Player.NextAsWritten | ymt/player.js:340-512 | handleNavigation with changeChannel as written keeps the same playlist and page kind, and a digit leads to no page; NextAsWrittenAgrees compares it with Next |
| Player.NumberKeysOnlyTune | ymt/player.js:344-391 | a digit key only restarts the auto-hide timer and feeds the tuner; no page is left and no list, column or channel changes |
| Player.NumberKeyCodes | ymt/player.js:350-360 | key codes 48-57 and 96-105 feed the tuner the digit they stand for; any other digit key feeds its `key` |
| Player.ActiveColumnInRange | ymt/player.js:420-436 | the focused column stays among the three, and only Left and Right with the lists showing can move it |
| Player.ColumnKeys | ymt/player.js:421-436 | Right moves one column right below the last column of the player page; Left moves one column left, or hides the lists from column 0 |
| Player.HiddenModeIgnores | ymt/player.js:404-418 | with the lists hidden on the player page, every key but a digit, Right, Up and Down leaves the page as it was |
| Player.HiddenChannelChange | ymt/player.js:404-418 | in the hidden mode Down plays the next channel with the lists still hidden, and Right then shows them with the focus unchanged |
| Player.HiddenChannelChangeAsWritten | ymt/player.js:273-283 | as written, Down in the hidden mode marks the lists visible while they stay hidden, so the next Right moves the invisible focus instead of showing the lists |
| Player.RightWithListsMarked | ymt/player.js:421-436 | with the lists marked visible but not shown, Right moves the focus from the first column to the second and the lists stay unshown |
| Player.NextKeepsConsistent | ymt/player.js:340-512 | with the corrected changeChannel, every key keeps the page consistent while the playlist is not empty |
| Player.NextAsWrittenAgrees | ymt/player.js:404-418 | the code as written and the corrected changeChannel give the same outcome except for Up and Down while the lists are hidden, where the same channel plays and only the screen flags differ: the written code marks the hidden lists visible |
| Player.NextKeepsCommitInRange | ymt/player.js:340-512 | every key keeps the armed commit inside the playlist |
| Player.TunedSelection | ymt/player.js:363-389 | a tuned number plays the channel of that number in the filtered list when it has one, otherwise the channel itself, dropping the filter when needed |
| Player.LoadConsistent | ymt/player.js:634-649 | the loaded page is consistent with nothing armed and the focus at the origin; on the player page the whole playlist is listed and a channel plays when there is one |
| Player.ShowPlaylist | ymt/player.js:639-644 | updateChannelList, updateActiveColumn and playSelectedChannel leave a consistent page listing the whole playlist and playing a channel when there is one |
| Player.TimersKeepConsistent | ymt/player.js:70-75 | the auto-hide, commit and display timers keep the page consistent and the commit in range |
| Player.ButtonKey | ymt/player.js:592-616 | buttons 0, 1, 12, 13, 14 and 15 stand for Enter, Back, Up, Down, Left and Right, other buttons for nothing |
| Player.ButtonKeyNotDigit | ymt/player.js:592-616 | no button stands for a key that the digit test accepts |
| Player.JustPressed | ymt/player.js:562-569 | the fired buttons are below the bound and in increasing order |
| Player.Falses | ymt/player.js:556 | the fresh state has all n buttons up |
| Player.JustPressedMembers | ymt/player.js:562-569 | a button fires exactly when it is down now and was not down at the last poll |
| Player.HeldButtonsFireOnce | ymt/player.js:565-571 | polling the same flags again fires nothing: a held button fires once |
| Player.FirstPollFiresPressed | ymt/player.js:554-568 | a gamepad seen for the first time fires every button it has down |
| Player.GamepadPoller.constructor | ymt/player.js:544 | the state starts empty |
| Player.GamepadPoller.CheckGamepads | ymt/player.js:546-590 | one poll updates the state and fires the buttons that PollAll defines, skipping absent gamepads |
| Player.GamepadPoller.CheckButtons | ymt/player.js:554-572 | one gamepad's flags are remembered and the just-pressed buttons fire in order |
| Player.ButtonLoop | ymt/player.js:562-572 | the button loop remembers the new flags and fires exactly the just-pressed buttons |
| Player.Store | ymt/player.js:571 | storing a flag at the length grows the array by one; any other index keeps the length; only that flag changes |
| Player.JustPressedStep | ymt/player.js:566-568 | button j fires when it is down and the flags remembered so far do not have it down |
| Player.RememberStep | ymt/player.js:571 | storing button j's flag extends the remembered prefix by one, and before the store the slot holds the earlier poll's flag |
| Player.PlayerPage.constructor | ymt/player.js:634-649 | the page is in the state Load defines for the fetched text |
| Player.PlayerPage.StartPlayer | ymt/player.js:639-647 | on the player page the load lists the channels, applies the focused column and plays the selection, in that order |
| Player.PlayerPage.ResetAutoHideTimer | ymt/player.js:66-76 | the new state is ResetAutoHide of the old |
| Player.PlayerPage.ToggleListsVisibility | ymt/player.js:78-108 | the new state is Toggle of the old |
| Player.PlayerPage.LoadChannel | ymt/player.js:217-255 | the new state is ChannelLoaded of the old |
| Player.PlayerPage.UpdateChannelList | ymt/player.js:160-185 | the new state is ChannelListUpdated of the old |
| Player.PlayerPage.ChangeChannel | ymt/player.js:273-283 | the new state is ChannelChanged of the old: the corrected changeChannel, which leaves the lists' flag alone |
| Player.PlayerPage.PlaySelectedChannel | ymt/player.js:257-271 | the new state is PlaySelected of the old |
| Player.PlayerPage.UpdateNavSelection | ymt/player.js:288-305 | the new state is NavSelectionUpdated of the old |
| Player.PlayerPage.UpdateCategorySelection | ymt/player.js:307-323 | the new state is CategorySelectionUpdated of the old |
| Player.PlayerPage.UpdateActiveColumn | ymt/player.js:514-531 | the new state is ActiveColumnUpdated of the old |
| Player.PlayerPage.HandleNavigation | ymt/player.js:340-512 | the new state and the page left for are those of Next, which uses the corrected changeChannel |
| Player.PlayerPage.ArrowLeft | ymt/player.js:421-429 | the new state is LeftKey of the old |
| Player.PlayerPage.ArrowRight | ymt/player.js:431-436 | the new state is RightKey of the old |
| Player.PlayerPage.ArrowUp | ymt/player.js:438-454 | the new state is UpKey of the old |
| Player.PlayerPage.ArrowDown | ymt/player.js:456-477 | the new state is DownKey of the old |
| Player.PlayerPage.NextNavItem | ymt/player.js:462-464 | Down in the nav column below its last item is DownKey |
| Player.PlayerPage.NextCategory | ymt/player.js:465-467 | Down in the category column below its last entry is DownKey |
| Player.PlayerPage.MoveToNavItem | ymt/player.js:439-441 | the nav index moves and updateNavSelection runs |
| Player.PlayerPage.MoveToCategory | ymt/player.js:442-444 | the category index moves and updateCategorySelection runs |
| Player.PlayerPage.MoveToChannel | ymt/player.js:445-453 | the channel index moves, the lists are marked visible and loadChannel runs |
| Player.PlayerPage.EnterPressed | ymt/player.js:479-500 | the new state and the page left for are those of EnterKey |
| Player.PlayerPage.BackPressed | ymt/player.js:502-510 | the new state and the page left for are those of BackKey |
| Player.PlayerPage.NavigateToPage | ymt/player.js:325-334 | the new state and the page left for are those of Leave |
| Player.PlayerPage.AutoHideFires | ymt/player.js:70-75 | the new state is AutoHideFired of the old |
| Player.PlayerPage.ChannelFound | ymt/player.js:363-389 | the new state is Tuned of the old |
| Player.PlayerPage.CommitFires | ymt/channelInput.js:42-48 | the new state is PageCommitFired of the old |
| Player.PlayerPage.NumberDisplayHides | ymt/channelInput.js:16-26 | the new state is NumberHidden of the old |
| Player.PlayerPage.GamepadButton | ymt/player.js:592-616 | a mapped button acts as its key through handleNavigation (with the corrected changeChannel); any other button changes nothing |
| PlayerMobile.FilterMatches | ymt/playerMobile.js:180-193 | a channel is listed exactly when it matches the chosen category and the chosen language, an empty choice imposing nothing; no choice lists the whole playlist |
| PlayerMobile.ChannelLoaded | ymt/playerMobile.js:239-243 | an index outside the filtered list changes nothing; inside it the channel becomes current and plays |
| PlayerMobile.Refiltered | ymt/playerMobile.js:180-202 | the filtered list is the matching channels; when some match, the first becomes current and plays, otherwise nothing else changes |
| PlayerMobile.FilterChosen | ymt/playerMobile.js:153-171 | a click on an option sets that filter ('' for All), keeps the other, and leaves the list refiltered |
| PlayerMobile.ChannelChanged | ymt/playerMobile.js:411-417 | a neighbour inside the filtered list becomes current and plays; a move outside changes nothing |
| PlayerMobile.NumberCleared | ymt/playerMobile.js:333-342 | a clearing timer empties the buffer and hides the display |
| PlayerMobile.Started | ymt/playerMobile.js:14-36 | after init every channel is listed, nothing is armed, and the first channel plays when there is one |
| PlayerMobile.StartedValid | ymt/playerMobile.js:14-36 | the page init leaves satisfies the invariant |
| PlayerMobile.NumberPressed | ymt/playerMobile.js:286-345 | the buffer grows by the digit only below four characters; the display shows and the lists and the playing channel stay; an armed commit names a playlist channel whose number is the buffer's parseInt value |
| PlayerMobile.NumberPressedCancels | ymt/playerMobile.js:286-296 | a digit cancels the armed timer and arms a new one, grows the buffer only below four digits, shows the display and leaves the list and the playback alone |
| PlayerMobile.FullBufferRearms | ymt/playerMobile.js:290-293 | with four digits buffered a digit is dropped but the buffer is still looked up and its timer re-armed |
| PlayerMobile.ExactMatchArmsCommit | ymt/playerMobile.js:299-304 | an exact match arms the commit for the first channel whose number is the buffer's parseInt, with the buffer shown plainly |
| PlayerMobile.NoMatchShowsError | ymt/playerMobile.js:325-336 | when no number equals or starts with the buffer, '<digits> - Not Available' is shown in error style and the digits are cleared after 2000 ms, not at once |
| PlayerMobile.PrefixWaits | ymt/playerMobile.js:337-342 | a buffer that starts some channel number is shown plainly and cleared after 3000 ms |
| PlayerMobile.CommitPlaysNumber | ymt/playerMobile.js:304-323 | the commit plays a channel with the committed number: from the filtered list with the filters kept when it is there, otherwise from the whole playlist with both filters dropped; the digits are forgotten and the display hidden |
| PlayerMobile.KeyDownKeepsValid | ymt/playerMobile.js:380-384 | a one-character key keeps the invariant |
| PlayerMobile.NumberPressedKeepsValid | ymt/playerMobile.js:286-345 | a digit keeps the buffer within four characters and any armed commit on a numbered channel of the playlist |
| PlayerMobile.ListEventsKeepValid | ymt/playerMobile.js:153-202 | changing channel, choosing a filter and the clearing timer keep the invariant |
| PlayerMobile.CommitKeepsValid | ymt/playerMobile.js:304-323 | the commit keeps the invariant |
| PlayerMobile.MobilePlayer.constructor | ymt/playerMobile.js:14-36 | the page is in the state Started gives for the parsed playlist |
| PlayerMobile.MobilePlayer.LoadChannel | ymt/playerMobile.js:239-284 | the new state is ChannelLoaded of the old |
| PlayerMobile.MobilePlayer.FilterChannels | ymt/playerMobile.js:180-202 | the new state is Refiltered of the old |
| PlayerMobile.MobilePlayer.ChooseFilter | ymt/playerMobile.js:153-171 | the new state is FilterChosen of the old |
| PlayerMobile.MobilePlayer.ChangeChannel | ymt/playerMobile.js:411-417 | the new state is ChannelChanged of the old |
| PlayerMobile.NumberCommitted | ymt/playerMobile.js:304-323 | the digits are forgotten, no timer stays armed, the display hides and the playlist stays; the filtered list stays, or both filters are dropped and it becomes the whole playlist |
| PlayerMobile.MobilePlayer.HandleNumberInput | ymt/playerMobile.js:286-345 | the new state is NumberPressed of the old, whose cases the lemmas above state |
| PlayerMobile.MobilePlayer.KeyPressed | ymt/playerMobile.js:380-384 | the new state is KeyDown of the old: only a key from '0' to '9' by string comparison reaches the tuner |
| PlayerMobile.MobilePlayer.CommitFires | ymt/playerMobile.js:304-323 | the new state is NumberCommitted of the old |
| PlayerMobile.MobilePlayer.ClearFires | ymt/playerMobile.js:333-342 | the new state is NumberCleared of the old |
| PlayerMobile.ParseM3UCopy | ymt/playerMobile.js:51-85 | this copy of parseM3U returns the shared scan with the `[^"]*` logo pattern |
| PlayerMobile.CollectSets | ymt/playerMobile.js:19-22 | the sets hold each non-empty category and language of the playlist once, in order of first appearance |
| Portal.AfterPTFound | main.js:22-23 | the duration pattern matches exactly the texts that contain "PT" |
| Portal.FormatDuration | main.js:19-33 | no value or a text without "PT" shows '0:00', and every shown duration has a ':'; FormatIso states the pattern's texts |
| Portal.ClockHasColon | main.js:29-32 | the shown text always holds a ':' |
| Portal.FormatDurationDefaults | main.js:20-23 | no value, the empty text and a text without "PT" all show '0:00' |
| Portal.PartValueIsParseInt | main.js:25-27 | a captured digit group reads as the number parseInt gives it |
| Portal.DesignatorSkips | main.js:22 | an optional `(\d+)X` group before a part with another designator, or before nothing, stays unmatched and consumes nothing |
| Portal.DesignatorTakes | main.js:22 | an optional `(\d+)X` group before a part designated by X captures its digits and consumes the part |
| Portal.PartReadsBack | main.js:25-27 | a written part reads back as its value |
| Portal.GroupOf | main.js:22-27 | each group of the pattern reads its own part of an ISO text, an absent part counting as 0 |
| Portal.AfterPTOf | main.js:22 | the pattern starts matching right after the leading "PT" |
| Portal.ComponentsOfIso | main.js:22-27 | the groups of the text PT[nH][nM][nS] read back exactly its parts, an absent part counting as 0 |
| Portal.FormatIso | main.js:19-33 | formatting any ISO text of the pattern shows exactly its hours, minutes and seconds |
| Portal.PaddedValue | main.js:30-32 | a padded component keeps its value, is at least two digits long and exactly two below 100 |
| Portal.ClockReadsBack | main.js:29-32 | the shown text splits at ':' into hours, minutes and seconds when there are hours and into minutes and seconds otherwise, each reading back as its value, with padded components at least two digits long |
| Portal.GetVideoId | main.js:69-72 | the id is the `v=` parameter of the URL, so the cut at '&' never changes the capture; GetVideoIdSpec and GetVideoIdFirst state what it is and when it is null |
| Portal.GetVideoIdSpec | main.js:69-72 | the cut at '&' never changes the capture: the id is non-empty, free of '&' and found after '?v=' or '&v=' in the URL |
| Portal.GetVideoIdFirst | main.js:69-72 | null exactly when no '?' or '&' is followed by `v=` and a character other than '&'; otherwise the id is taken from the leftmost such place |
| Portal.VideoParamKeptByQuery | main.js:69-72 | appending another query parameter, as the clone suffix does, never changes a URL's video id |
| Portal.Extended | main.js:43-55 | the extended list has exactly `count` entries |
| Portal.GenerateExtendedData | main.js:43-55 | the loop pushes one clone per index and returns Extended |
| Portal.Clone | main.js:45-52 | a clone keeps its catalogue entry's duration and channel and differs only in URL and title, each of which extends the original (the view count is not modelled) |
| Portal.ExtendedEntries | main.js:45-52 | entry i is catalogue entry i mod n with '&clone=i' added to its URL and its round number floor(i / n) + 1 added to its title; duration and channel are copied and the video id is the original's |
| Portal.ExtendedFirstRound | main.js:45-52 | the first round reproduces the catalogue in order, every title numbered 1 |
| Portal.ExtendedPeriodic | main.js:45-52 | entries one catalogue length apart come from the same original video |
| Portal.Suggestions | main.js:186-189 | at most five suggestions, each an entry of the extended list whose id differs from the shown one |
| Portal.ShowVideo | main.js:182-189 | a video is shown exactly when its URL has an id, and then with at most five suggestions, each an extended entry with another id |
| Portal.SuggestionsSpec | main.js:186-189 | at most five suggestions, in list order, all with an id other than the shown one; fewer than five only when no other entry is left |
| Portal.SuggestionsSkipClones | main.js:182-189 | no clone of the shown catalogue entry is ever suggested beside it |
| Patterns.RunBefore | ymt/js/m3uParser.js:17 | a `[^c]*` class runs exactly to the first `c` (the double quote of the attribute patterns, the '&' of the video id pattern), or to the end |
| Patterns.AttrValue | ymt/js/m3uParser.js:15-19 | a found value is quote-free, of its class, and shorter than the line past `key="` |
| Patterns.AttrValueSpec | ymt/js/m3uParser.js:15-19 | a found attribute value is quote-free, of its class, and stands quoted after `key=` in the line; no value means the pattern matches nowhere |
| Patterns.AttrAbsent | ymt/js/m3uParser.js:15-19 | without the text `key="` in the line no value is found |
| Patterns.AttrFoundAfterOpen | ymt/js/m3uParser.js:15-19 | a found value stands after the text `key="` |
| Patterns.NonEmptyVersusAny | ymt/js/m3uParser.js:15 | the `[^"]+` and `[^"]*` logo searches agree on a non-empty first value, and `+` finds nothing where `*` finds nothing |
| Patterns.LeadingSpace | ymt/aatral-tv/js/m3uParser.js:21 | `\s*` takes the longest run of white space at the start |
| Patterns.TitleAfterComma | ymt/js/m3uParser.js:16 | a found title is non-empty, free of line terminators and shorter than the line; a line without a comma has none |
| Patterns.TitleIsSuffix | ymt/js/m3uParser.js:16 | the `,(.+)$` capture is a non-empty, terminator-free suffix of the line right after a comma |
| Patterns.SpacedTitleIsSuffix | ymt/aatral-tv/js/m3uParser.js:21 | the `,\s*(.+)$` capture is a non-empty, terminator-free suffix of the line, starting with white space only when it is one character long |
| Patterns.TitleExists | ymt/js/m3uParser.js:16 | a comma followed by a non-empty, terminator-free rest always yields a title |
| Patterns.NoCommaNoTitle | ymt/js/m3uParser.js:16 | a line without a comma has no title |
| Patterns.CarriageReturnNoTitle | ymt/aatral-tv/js/m3uParser.js:21 | an untrimmed line ending in a carriage return never yields a title |
| Patterns.VideoParam | ymt/aatral-tv/js/m3uParser.js:24 | a found id is non-empty, has no '&', and leaves room for the `?v=` before it |
| Patterns.VideoParamSpec | ymt/aatral-tv/js/m3uParser.js:24 | a found id is non-empty, has no '&', and stands after '?v=' or '&v=' in the URL |
| Patterns.VideoParamHere | ymt/aatral-tv/js/m3uParser.js:24 | the pattern matches at a position exactly when '?v=' or '&v=' stands there followed by a character other than '&' |
| Patterns.VideoParamFirst | ymt/aatral-tv/js/m3uParser.js:24 | the capture is the one at the leftmost matching position |
| Patterns.VideoParamFound | ymt/aatral-tv/js/m3uParser.js:24 | '?v=' or '&v=' followed by a character other than '&' anywhere in the URL always gives an id |
| Patterns.VideoParamFoundFirst | ymt/aatral-tv/js/m3uParser.js:24 | a found id comes from a leftmost matching position |
| Patterns.VideoParamOfQuery | ymt/aatral-tv/js/m3uParser.js:24 | the id of '?v=<id>' or '&v=<id>' at the start of the query is found, up to the next '&' |
| JsBuiltins.Trim | ymt/js/m3uParser.js:12 | the result has no surrounding white space and is no longer than its argument; TrimEmpty states when it is empty |
| JsBuiltins.TrimProperties | ymt/js/m3uParser.js:12 | trim leaves no surrounding white space, and trimming again changes nothing |
| JsBuiltins.TrimEmpty | ymt/js/m3uParser.js:12 | trim gives the empty string exactly for a text of white space only |
| JsBuiltins.TrimInside | ymt/js/m3uParser.js:12 | trim returns a contiguous piece of its argument: a prefix of what follows the leading white space |
| JsBuiltins.AsciiLower | ymt/js/tvDetection.js:8 | the result has the same length, each ASCII letter lowered and everything else kept |
| JsBuiltins.Split | ymt/js/m3uParser.js:7 | at least one piece, none holding the separator; JoinSplit and SplitJoin state the round trips |
| JsBuiltins.JoinSplit | ymt/js/m3uParser.js:7 | joining the pieces of split with the separator gives the text back |
| JsBuiltins.SplitJoin | ymt/aatral-tv/js/VideoPlayer.js:42 | splitting a join of separator-free pieces gives the pieces back |
| JsBuiltins.DecimalValueOfNatToString | main.js:30 | a number's decimal text reads back as the number |
| JsBuiltins.NatToStringOfDecimalValue | main.js:30 | a digit string without a leading zero is the decimal text of its value |
| JsBuiltins.PadStart2 | main.js:30 | padStart(2, '0') keeps texts of two or more characters and fills shorter ones with leading zeros to two |
| JsBuiltins.DigitsThenRest | ymt/js/m3uParser.js:27 | parseInt reads a leading run of decimal digits and ignores what follows it |
| JsBuiltins.ParseInt | ymt/channelInput.js:36 | a blank text is NaN, and a negative value needs a leading '-' after the white space |
| JsBuiltins.ParseIntOfNatToString | ymt/channelInput.js:36 | parseInt reads back the decimal text of every natural number |
| JsArrays.Filter | ymt/playerMobile.js:181-193 | filter keeps exactly the elements that pass, never more than there were |
| JsArrays.FilterAppend | ymt/playerMobile.js:181-193 | filtering a concatenation filters each part in order |
| JsArrays.FilterIdempotent | ymt/js/languageFilter.js:120 | filtering twice by the same test is filtering once |
| JsArrays.FilterThenFilter | ymt/playerMobile.js:181-193 | filtering by one test and then another keeps what passes both |
| JsArrays.Unique | ymt/js/languageFilter.js:35 | the Set order holds each value once, exactly the values of the list |
| JsArrays.UniqueOfDistinct | ymt/js/languageFilter.js:35 | a list without repeats is its own Set order |
| JsArrays.UniqueSnoc | ymt/player.js:56-57 | adding a value already present leaves the Set unchanged; a new one goes last |
| JsArrays.IndexOf | ymt/channelInput.js:43 | indexOf gives the first position of the value, and -1 exactly when it is absent |
| JsArrays.FindIndex | ymt/playerMobile.js:300 | findIndex gives the first position that passes, and -1 exactly when none does |
| JsArrays.Take | main.js:189 | slice(0, n) keeps the first n elements, or all when there are fewer |
| JsArrays.CodeUnits | ymt/js/languageFilter.js:39 | a character below U+10000 is one code unit, any other a surrogate pair whose first unit is a high surrogate |
| JsArrays.CodeUnitsInjective | ymt/js/languageFilter.js:39 | distinct characters have distinct code units |
| JsArrays.UnitsInjective | ymt/js/languageFilter.js:39 | distinct strings have distinct code-unit sequences |
| JsArrays.StrLessFirstChar | ymt/js/languageFilter.js:39 | between characters below U+10000 the default order is the characters' order; a character above U+FFFF sorts by its high surrogate, before U+E000..U+FFFF and after the rest of the BMP |
| JsArrays.Units | ymt/js/languageFilter.js:39 | a string's UTF-16 code units: at least one and at most two per character |
| JsArrays.StrLessIrreflexive | ymt/js/languageFilter.js:39 | no string sorts before itself |
| JsArrays.StrLessAsymmetric | ymt/js/languageFilter.js:39 | two strings never sort before each other |
| JsArrays.StrLessTransitive | ymt/js/languageFilter.js:39 | the default sort order is transitive |
| JsArrays.StrLessTotal | ymt/js/languageFilter.js:39 | any two different strings are ordered one way |
| JsArrays.SortStrings | ymt/js/languageFilter.js:39 | the sorted list is strictly increasing in JavaScript's code-unit order and holds exactly the values given |
| JsArrays.SortedUnique | ymt/js/languageFilter.js:39 | any two strictly sorted lists of the same values are equal, so the sort's result is determined by its values |

## Left out

- Fetching playlists (`loadChannels`, `fetchPlaylist`, `loadPlaylist`) and `response.ok`: these are I/O. The parsers take the fetched text, and ScheduledPlayer.Init takes what each `loadPlaylist` call resolved to.
- Rendering: building and updating the DOM (innerHTML, cards, class toggling, focus and scrolling) is not modelled, including the grid of ymt/js/channelGrid.js. The state keeps the selection indices and the URL handed to the video element instead.
- Playback backends (HLS.js, the video element, the YouTube IFrame API) are left out. The model records only which URL is played. The end-of-video check in `startTimeCheck` compares floating-point times and is left out too; the end of a video is an event.
- Real timers, `setInterval` and `requestAnimationFrame` are left out. An expiry is an explicit method call, and every handler runs to completion before the next event.
- Floating point and analog input are left out: gamepad axes (the 0.5 and 0.7 thresholds), touch swipes, `formatViews` and the ad cycle of ymt/aatral-tv/js/adManager.js.
- Portal.Clone / Portal.ExtendedEntries / Portal.ExtendedPeriodic: `Video` has no view count, so nothing is stated about it. main.js:51 scales each clone's count by `Math.random() * 0.5 + 0.75` and floors it, which is randomness and floating point.
- Portal.Extended: an empty catalogue with a positive count is excluded by its precondition. The source fails there with a TypeError when it reads a field of `undefined`.
- `formatDate`, `getCurrentIndianTime` and `getCurrentIndianDate` read the wall clock and are left out. The current time is a parameter, and the date-named playlist is one of the two loaded results.
- `window.location` changes are returned as effects. `localStorage` is a map of strings.
- A nav item index past the captions is modelled as a key with no effect. In the source, reading the caption of a missing item throws a TypeError, and the handler stops. Only in a gamepad frame of the Aatral TV menu does the throw matter later, and there NavBar.Test models it.
- JsBuiltins.AsciiLower: lowers ASCII letters only; JavaScript's toLowerCase also maps other letters ('Ä' to 'ä', and 'İ' to two characters). The labels, captions and user-agent markers it is applied to are compared with ASCII words.
- String lengths and indices count characters (Unicode scalar values), where JavaScript counts UTF-16 code units. The two differ only for characters above U+FFFF. The lengths the pages test (the channel-number buffer, `padStart` of durations) are of keys that passed the digit test and of number strings. The default sort order and the digit test do compare code units.
- PageNav.Down / PageNav.Up: for an empty list the source computes a remainder by 0, which gives NaN; the model keeps the index instead. With no items, updating the marks touches nothing and Enter fails on the missing item at either index, so nothing tells the two apart.
- NavBar.PadFrame / NavBar.NavMenu.HandleGamepadInput: a pad with at most 15 buttons is modelled, not excluded. Reading its missing button 12, 13, 14 or 15 throws a TypeError that ends the frame after the presses already handled, and skips `requestAnimationFrame`, so that polling chain stops for good.
- parseInt: JsNum covers integers and NaN only. Values beyond 2^53 keep full precision here, and -0 is folded into 0, which `===` and `toString` do not tell apart.
- Player.PlayerPage / Player.Next: the page class and the Next lemmas use the corrected changeChannel of the Findings row. As written, Up or Down in the hidden-list mode marks the lists visible while they stay hidden, so the page leaves `Consistent`; Player.NextAsWrittenAgrees states that this is the only difference.
- Player.ButtonLoop: the source writes each pressed flag into the remembered array inside the loop. The model stores the array back once, after the loop, because nothing reads it in between.
- VideoSchedule.ScheduledPlayer.Init: the 'No valid entries in playlist' error of ymt/aatral-tv/js/VideoPlayer.js:128-130 is not one of its outcomes. A loaded playlist is never empty (VideoSchedule.ChosenScheduled), so that check never fires.
- ScheduleParser: lines are not trimmed, so a CRLF playlist yields no titles. CarriageReturnSkipsEntry states this as the behaviour of the code, not as a defect.
- The bootstrap files ymt/aatral-tv/player.js and ymt/aatral-tv/js/main.js only create the player and are not part of this model.
- `renderVideos` with its `visibleVideos` counter and the "show more suggestions" button of main.js are DOM pagination and are not part of this model.
- The pages under `project 8/`, an earlier variant with their own playlist URL and a further copy of `parseM3U`, are not part of this model.

## Findings

| source | as written | input that shows it | evidently intended | confidence | as-written member | corrected member |
|---|---|---|---|---|---|---|
| ymt/player.js:276-282 | `changeChannel` sets `listsVisible = true` before `loadChannel`, also when it is called from the hidden-list mode, while the lists stay hidden | lists hidden on the player page, focus in column 0, a channel below the current one: press Down, then Right. After Down the flag says visible but nothing is shown, so Right moves the invisible focus to column 1 instead of showing the lists | Up and Down in the hidden mode change the channel and leave the lists hidden and marked hidden, so the next Right shows them | not executed | Player.HiddenChannelChangeAsWritten | Player.ChannelChanged |
