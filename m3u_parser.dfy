/**
 * The channel-playlist parser `parseM3U` (ymt/js/m3uParser.js), of which five pages keep
 * copies. It splits the text on '\n', trims every line and scans with one pending-channel
 * slot: a `#EXTINF:` line with a title fills the slot, the next line that is neither blank
 * nor a '#' line completes the pending channel with its URL and emits it.
 *
 * `Run` is the scan as a function over the lines, `ParseM3U` the loop that computes it, and
 * `Trace` records which header line and which URL line each emitted channel came from.
 */
module M3uParser {
  import opened JsBuiltins
  import opened Patterns

  /** A playlist entry; `channelNo` is None for a missing `c-no` attribute (null). */
  datatype Channel = Channel(
    title: string,
    logo: string,
    category: string,
    language: string,
    channelNo: Option<JsNum>,
    url: string)

  /** The two spellings of the logo pattern among the copies: `tvg-logo="([^"]+)"` and
      `tvg-logo="([^"]*)"`. */
  datatype LogoRule = NonEmptyLogo | AnyLogo

  /** `channel.channelNo` is truthy: present, not NaN and not 0. */
  predicate HasChannelNo(c: Channel)
  {
    c.channelNo.Some? && c.channelNo.value.Num? && c.channelNo.value.n != 0
  }

  const ExtinfTag: string := "#EXTINF:"
  const DefaultCategory: string := "Uncategorized"
  const DefaultLanguage: string := "Unknown"

  function LogoClass(rule: LogoRule): ValueClass
  {
    match rule
    case NonEmptyLogo => NonEmptyText
    case AnyLogo => AnyText
  }

  function OrElse(o: Option<string>, default: string): string
  {
    match o
    case Some(v) => v
    case None => default
  }

  /** The pending channel a trimmed `#EXTINF:` line creates, with an empty URL; None when
      the line has no `,(.+)$` title. */
  function Header(line: string, rule: LogoRule): Option<Channel>
  {
    match TitleAfterComma(line, false)
    case None => None
    case Some(t) =>
      var no := AttrValue(line, "c-no", AnyText);
      Some(Channel(
        Trim(t),
        OrElse(AttrValue(line, "tvg-logo", LogoClass(rule)), ""),
        OrElse(AttrValue(line, "Category", AnyText), DefaultCategory),
        OrElse(AttrValue(line, "Language", AnyText), DefaultLanguage),
        if no.Some? then Some(ParseInt(no.value)) else None,
        ""))
  }

  /** A trimmed line that supplies a URL: not blank and not a '#' line. */
  predicate IsUrlLine(line: string)
  {
    line != [] && line[0] != '#'
  }

  /** What a raw line is to the scanner. */
  datatype LineKind =
    | TitledHeader(channel: Channel)  // a `#EXTINF:` line with a title
    | UntitledHeader                  // a `#EXTINF:` line without one
    | UrlLine(url: string)            // the trimmed line is neither blank nor a '#' line
    | Skipped                         // blank, or another '#' line

  /** The branch of the loop body a raw line takes. */
  function Classify(raw: string, rule: LogoRule): LineKind
  {
    var line := Trim(raw);
    if StartsWith(line, ExtinfTag) then
      match Header(line, rule)
      case Some(c) => TitledHeader(c)
      case None => UntitledHeader
    else if IsUrlLine(line) then UrlLine(line)
    else Skipped
  }

  /** The kind of every line, in order. */
  function Classified(lines: seq<string>, rule: LogoRule): (kinds: seq<LineKind>)
    ensures |kinds| == |lines|
  {
    if lines == [] then [] else [Classify(lines[0], rule)] + Classified(lines[1..], rule)
  }

  lemma {:induction false} ClassifiedAt(lines: seq<string>, rule: LogoRule, i: nat)
    requires i < |lines|
    ensures Classified(lines, rule)[i] == Classify(lines[i], rule)
    decreases i
  {
    if i > 0 {
      ClassifiedAt(lines[1..], rule, i - 1);
    }
  }

  /** `kinds` classifies `lines`, stated line by line. */
  predicate ClassifiedAs(lines: seq<string>, rule: LogoRule, kinds: seq<LineKind>)
  {
    |kinds| == |lines| &&
    forall k {:trigger Classify(lines[k], rule)} :: 0 <= k < |lines| ==> kinds[k] == Classify(lines[k], rule)
  }

  lemma ClassifiedIsClassified(lines: seq<string>, rule: LogoRule)
    ensures ClassifiedAs(lines, rule, Classified(lines, rule))
  {
    forall k | 0 <= k < |lines| ensures Classified(lines, rule)[k] == Classify(lines[k], rule) {
      ClassifiedAt(lines, rule, k);
    }
  }

  datatype ScanState = ScanState(pending: Option<Channel>, channels: seq<Channel>)

  /** One iteration of the loop: a titled header replaces the pending slot, a URL line
      completes and emits the pending channel; everything else changes nothing. */
  function Step(st: ScanState, kind: LineKind): (r: ScanState)
    ensures |st.channels| <= |r.channels| <= |st.channels| + 1
    ensures |r.channels| > |st.channels| ==> kind.UrlLine? && st.pending.Some? && r.pending.None?
  {
    match kind
    case TitledHeader(c) => st.(pending := Some(c))
    case UrlLine(u) =>
      if st.pending.Some? then ScanState(None, st.channels + [st.pending.value.(url := u)]) else st
    case _ => st
  }

  /** The state after the first `n` lines, from an empty slot and an empty output. */
  function Scan(kinds: seq<LineKind>, n: nat): ScanState
    requires n <= |kinds|
    decreases n
  {
    if n == 0 then ScanState(None, [])
    else Step(Scan(kinds, n - 1), kinds[n - 1])
  }

  /** parseM3U(content) */
  function Parse(content: string, rule: LogoRule): (r: seq<Channel>)
    ensures |r| <= |Split(content, '\n')|
  {
    var kinds := Classified(Split(content, '\n'), rule);
    ScanCount(kinds, |kinds|);
    TitledCountBound(kinds, |kinds|);
    Scan(kinds, |kinds|).channels
  }

  /** parseM3U: split the text on '\n' and scan the lines. */
  method ParseM3U(content: string, rule: LogoRule) returns (channels: seq<Channel>)
    ensures channels == Parse(content, rule)
  {
    var lines := Split(content, '\n');
    ClassifiedIsClassified(lines, rule);
    channels := ScanLines(lines, rule, Classified(lines, rule));
  }

  /** The loop of parseM3U, with the pending slot and the output array as variables;
      `kinds` names the classification of the lines for the invariant. */
  method ScanLines(lines: seq<string>, rule: LogoRule, ghost kinds: seq<LineKind>) returns (channels: seq<Channel>)
    requires ClassifiedAs(lines, rule, kinds)
    ensures channels == Scan(kinds, |kinds|).channels
  {
    channels := [];
    var current: Option<Channel> := None;
    for i := 0 to |lines|
      invariant Scan(kinds, i) == ScanState(current, channels)
    {
      current, channels := ReadLineAt(lines, i, rule, kinds, current, channels);
    }
  }

  /** The loop body for line `i`: one more step of the scan over the classified lines. */
  method ReadLineAt(lines: seq<string>, i: nat, rule: LogoRule, ghost kinds: seq<LineKind>,
                    current: Option<Channel>, channels: seq<Channel>)
    returns (current': Option<Channel>, channels': seq<Channel>)
    requires ClassifiedAs(lines, rule, kinds) && i < |lines|
    requires Scan(kinds, i) == ScanState(current, channels)
    ensures Scan(kinds, i + 1) == ScanState(current', channels')
  {
    current', channels' := ReadLine(lines[i], rule, current, channels);
  }

  /** The body of the loop of parseM3U for one raw line. */
  method ReadLine(raw: string, rule: LogoRule, current: Option<Channel>, channels: seq<Channel>)
    returns (current': Option<Channel>, channels': seq<Channel>)
    ensures ScanState(current', channels') == Step(ScanState(current, channels), Classify(raw, rule))
  {
    current', channels' := current, channels;
    var line := Trim(raw);
    if StartsWith(line, ExtinfTag) {
      current' := ReadHeader(raw, rule, current, channels);
    } else {
      ClassifyOther(raw, rule);
      if line != [] && line[0] != '#' && current.Some? {
        channels' := channels + [current.value.(url := line)];
        current' := None;
      }
    }
  }

  /** A line that is not a `#EXTINF:` line is a URL line or skipped. */
  lemma ClassifyOther(raw: string, rule: LogoRule)
    requires !StartsWith(Trim(raw), ExtinfTag)
    ensures Classify(raw, rule) == if IsUrlLine(Trim(raw)) then UrlLine(Trim(raw)) else Skipped
  {
  }

  /** The matches of a `#EXTINF:` line, made into the pending channel when the line has a
      title; otherwise the pending slot stays as it was. */
  method ReadHeader(raw: string, rule: LogoRule, current: Option<Channel>, channels: seq<Channel>)
    returns (current': Option<Channel>)
    requires StartsWith(Trim(raw), ExtinfTag)
    ensures ScanState(current', channels) == Step(ScanState(current, channels), Classify(raw, rule))
  {
    var line := Trim(raw);
    var logoMatch := AttrValue(line, "tvg-logo", LogoClass(rule));
    var titleMatch := TitleAfterComma(line, false);
    var categoryMatch := AttrValue(line, "Category", AnyText);
    var languageMatch := AttrValue(line, "Language", AnyText);
    var channelNoMatch := AttrValue(line, "c-no", AnyText);
    current' := current;
    if titleMatch.Some? {
      current' := Some(Channel(
        Trim(titleMatch.value),
        if logoMatch.Some? then logoMatch.value else "",
        if categoryMatch.Some? then categoryMatch.value else DefaultCategory,
        if languageMatch.Some? then languageMatch.value else DefaultLanguage,
        if channelNoMatch.Some? then Some(ParseInt(channelNoMatch.value)) else None,
        ""));
    }
  }

  // ---------------------------------------------------------------------------
  // One line at a time
  // ---------------------------------------------------------------------------

  /** How a raw line is read: a `#EXTINF:` line fills the slot exactly when it has a
      `,(.+)$` title... */
  lemma ClassifyTitledKind(raw: string, rule: LogoRule)
    ensures var line := Trim(raw);
      Classify(raw, rule).TitledHeader? <==> StartsWith(line, ExtinfTag) && TitleAfterComma(line, false).Some?
  {
    TrimProperties(raw);
    HeaderTitle(Trim(raw), rule);
  }

  /** ...and leaves it alone exactly when it has none. */
  lemma ClassifyUntitledKind(raw: string, rule: LogoRule)
    ensures var line := Trim(raw);
      Classify(raw, rule).UntitledHeader? <==> StartsWith(line, ExtinfTag) && TitleAfterComma(line, false).None?
  {
    TrimProperties(raw);
    HeaderTitle(Trim(raw), rule);
  }

  /** Blank lines and '#' lines other than `#EXTINF:` lines are skipped; every other line
      is a URL. */
  lemma ClassifySkipped(raw: string, rule: LogoRule)
    ensures var line := Trim(raw);
      (Classify(raw, rule).Skipped? <==> line == [] || (line[0] == '#' && !StartsWith(line, ExtinfTag))) &&
      (Classify(raw, rule).UrlLine? <==> line != [] && line[0] != '#')
  {
    var line := Trim(raw);
    if StartsWith(line, ExtinfTag) {
      assert line[0] == line[..|ExtinfTag|][0] == '#';
    }
  }

  /** A line that fills the slot is a `#EXTINF:` line, and the record it fills it with has
      a non-empty title, the trimmed text of the `,(.+)$` match, and a still empty URL. */
  lemma ClassifyTitled(raw: string, rule: LogoRule)
    requires Classify(raw, rule).TitledHeader?
    ensures var line := Trim(raw);
      var c := Classify(raw, rule).channel;
      StartsWith(line, ExtinfTag) && Header(line, rule) == Some(c) &&
      c.url == [] && c.title != [] && c.title == Trim(TitleAfterComma(line, false).value)
  {
    TrimProperties(raw);
    HeaderTitle(Trim(raw), rule);
  }

  /** A URL is the trimmed line, non-empty and not starting with '#'. */
  lemma ClassifyUrl(raw: string, rule: LogoRule)
    requires Classify(raw, rule).UrlLine?
    ensures var u := Classify(raw, rule).url;
      u == Trim(raw) && IsUrlLine(u) && IsTrimmed(u)
  {
    var line := Trim(raw);
    assert !StartsWith(line, ExtinfTag) && Classify(raw, rule) == UrlLine(line);
    TrimProperties(raw);
  }

  /** A created channel's title is the trimmed text after the first comma that is followed
      by a match of `(.+)$`; on a trimmed line it is never empty. The URL starts out empty. */
  lemma HeaderTitle(line: string, rule: LogoRule)
    requires IsTrimmed(line)
    ensures Header(line, rule).Some? <==> TitleAfterComma(line, false).Some?
    ensures Header(line, rule).Some? ==>
      var c := Header(line, rule).value;
      c.title == Trim(TitleAfterComma(line, false).value) && c.title != [] && c.url == []
  {
    TitleIsSuffix(line);
    var t := TitleAfterComma(line, false);
    if t.Some? {
      assert t.value[|t.value| - 1] == line[|line| - 1];
      TrimNonEmpty(t.value);
    }
  }

  /** A header without a comma creates no channel. */
  lemma HeaderNeedsComma(line: string, rule: LogoRule)
    requires ',' !in line
    ensures Header(line, rule).None?
  {
    NoCommaNoTitle(line, false);
  }

  /** Missing attributes take their defaults: logo '', category 'Uncategorized', language
      'Unknown', channel number null. */
  lemma HeaderDefaults(line: string, rule: LogoRule)
    requires Header(line, rule).Some?
    ensures !Includes(line, AttrOpen("tvg-logo")) ==> Header(line, rule).value.logo == ""
    ensures !Includes(line, AttrOpen("Category")) ==> Header(line, rule).value.category == DefaultCategory
    ensures !Includes(line, AttrOpen("Language")) ==> Header(line, rule).value.language == DefaultLanguage
    ensures !Includes(line, AttrOpen("c-no")) ==> Header(line, rule).value.channelNo.None?
  {
    if !Includes(line, AttrOpen("tvg-logo")) { AttrAbsent(line, "tvg-logo", LogoClass(rule)); }
    if !Includes(line, AttrOpen("Category")) { AttrAbsent(line, "Category", AnyText); }
    if !Includes(line, AttrOpen("Language")) { AttrAbsent(line, "Language", AnyText); }
    if !Includes(line, AttrOpen("c-no")) { AttrAbsent(line, "c-no", AnyText); }
  }

  /** Attribute values found in a header are quote-free and appear quoted in the line; a
      `c-no` value becomes its parseInt number. */
  lemma HeaderAttributes(line: string, rule: LogoRule)
    requires Header(line, rule).Some?
    ensures var c := Header(line, rule).value;
      (AttrValue(line, "Category", AnyText).Some? ==>
         '"' !in c.category && Includes(line, AttrOpen("Category") + c.category + "\"")) &&
      (AttrValue(line, "Language", AnyText).Some? ==>
         '"' !in c.language && Includes(line, AttrOpen("Language") + c.language + "\"")) &&
      (c.logo != "" ==> '"' !in c.logo && Includes(line, AttrOpen("tvg-logo") + c.logo + "\"")) &&
      (c.channelNo.Some? <==> AttrValue(line, "c-no", AnyText).Some?) &&
      (c.channelNo.Some? ==> c.channelNo.value == ParseInt(AttrValue(line, "c-no", AnyText).value))
  {
    AttrValueSpec(line, "Category", AnyText);
    AttrValueSpec(line, "Language", AnyText);
    AttrValueSpec(line, "tvg-logo", LogoClass(rule));
  }

  /** `tvg-logo=""` and a missing `tvg-logo` give the same logo '' under `[^"]+`, and the
      two logo patterns agree unless the first `tvg-logo` value is empty and a later one is not. */
  lemma LogoRules(line: string)
    requires Header(line, NonEmptyLogo).Some?
    ensures Header(line, NonEmptyLogo).value.logo != "" ==>
      '"' !in Header(line, NonEmptyLogo).value.logo
    ensures Header(line, AnyLogo).value.logo != "" ==>
      Header(line, NonEmptyLogo).value.logo == Header(line, AnyLogo).value.logo
    ensures Header(line, NonEmptyLogo).value.logo != Header(line, AnyLogo).value.logo ==>
      Header(line, AnyLogo).value.logo == "" &&
      AttrValue(line, "tvg-logo", AnyText) == Some("") &&
      AttrValue(line, "tvg-logo", NonEmptyText).Some?
    ensures Header(line, NonEmptyLogo).value.(logo := "") == Header(line, AnyLogo).value.(logo := "")
  {
    NonEmptyVersusAny(line, "tvg-logo");
    AttrValueSpec(line, "tvg-logo", NonEmptyText);
  }

  // ---------------------------------------------------------------------------
  // The whole scan
  // ---------------------------------------------------------------------------

  function TitledCount(kinds: seq<LineKind>, n: nat): nat
    requires n <= |kinds|
    decreases n
  {
    if n == 0 then 0
    else TitledCount(kinds, n - 1) + (if kinds[n - 1].TitledHeader? then 1 else 0)
  }

  /** At most one titled header per line. */
  lemma {:induction false} TitledCountBound(kinds: seq<LineKind>, n: nat)
    requires n <= |kinds|
    ensures TitledCount(kinds, n) <= n
    decreases n
  {
    if n > 0 {
      TitledCountBound(kinds, n - 1);
    }
  }

  /** Every emitted channel used up its own titled header, so there are never more channels
      than titled `#EXTINF:` lines (one fewer while a channel is still pending). */
  lemma {:induction false} ScanCount(kinds: seq<LineKind>, n: nat)
    requires n <= |kinds|
    ensures |Scan(kinds, n).channels| + (if Scan(kinds, n).pending.Some? then 1 else 0)
      <= TitledCount(kinds, n)
    decreases n
  {
    if n > 0 {
      ScanCount(kinds, n - 1);
    }
  }

  lemma ParseCount(content: string, rule: LogoRule)
    ensures var kinds := Classified(Split(content, '\n'), rule);
      |Parse(content, rule)| <= TitledCount(kinds, |kinds|)
  {
    var kinds := Classified(Split(content, '\n'), rule);
    ScanCount(kinds, |kinds|);
  }

  /** A header line index and a URL line index. */
  datatype Link = Link(header: nat, url: nat)

  /** Line positions behind the scan: the header line the pending channel came from, and
      for every emitted channel its header line and its URL line. */
  datatype Positions = Positions(pendingFrom: Option<nat>, links: seq<Link>)

  ghost function Trace(kinds: seq<LineKind>, n: nat): Positions
    requires n <= |kinds|
    decreases n
  {
    if n == 0 then Positions(None, []) else TraceStep(Trace(kinds, n - 1), kinds[n - 1], n - 1)
  }

  /** The positions after line `i` of kind `kind`. */
  ghost function TraceStep(tr: Positions, kind: LineKind, i: nat): Positions
  {
    match kind
    case TitledHeader(_) => tr.(pendingFrom := Some(i))
    case UrlLine(_) =>
      if tr.pendingFrom.Some? then Positions(None, tr.links + [Link(tr.pendingFrom.value, i)]) else tr
    case _ => tr
  }

  /** Nothing between lines `from` and `to` (both exclusive) touches the slot. */
  ghost predicate Quiet(kinds: seq<LineKind>, from: nat, to: nat)
    requires to <= |kinds|
  {
    forall j :: from < j < to ==> !kinds[j].TitledHeader? && !kinds[j].UrlLine?
  }

  /** Channel `c` is the record of titled header `l.header` completed by the URL of line
      `l.url` after it, with nothing in between that could replace or complete it. */
  ghost predicate LinkOk(kinds: seq<LineKind>, c: Channel, l: Link)
  {
    l.header < l.url < |kinds| &&
    kinds[l.header].TitledHeader? && kinds[l.url].UrlLine? && Quiet(kinds, l.header, l.url) &&
    c == kinds[l.header].channel.(url := kinds[l.url].url)
  }

  /** The pending channel is the record of titled header `h`, which nothing before line
      `n` has replaced or completed, and which comes after every link. */
  ghost predicate PendingOk(kinds: seq<LineKind>, n: nat, pending: Option<Channel>, h: nat, links: seq<Link>)
    requires n <= |kinds|
  {
    h < n && kinds[h].TitledHeader? && Quiet(kinds, h, n) &&
    pending == Some(kinds[h].channel) &&
    (|links| > 0 ==> links[|links| - 1].url < h)
  }

  /** Links come in line order and never overlap, so each header is emitted at most once. */
  ghost predicate Ordered(links: seq<Link>)
  {
    forall k :: 0 < k < |links| ==> links[k - 1].url < links[k].header
  }

  ghost predicate TraceInvariant(kinds: seq<LineKind>, n: nat, st: ScanState, tr: Positions)
    requires n <= |kinds|
  {
    |st.channels| == |tr.links| &&
    (forall k :: 0 <= k < |tr.links| ==> LinkOk(kinds, st.channels[k], tr.links[k]) && tr.links[k].url < n) &&
    Ordered(tr.links) &&
    (match tr.pendingFrom
     case None => st.pending.None?
     case Some(h) => PendingOk(kinds, n, st.pending, h, tr.links))
  }

  lemma {:induction false} ScanTrace(kinds: seq<LineKind>, n: nat)
    requires n <= |kinds|
    ensures TraceInvariant(kinds, n, Scan(kinds, n), Trace(kinds, n))
    decreases n
  {
    if n == 0 {
      TraceStart(kinds);
    } else {
      ScanTrace(kinds, n - 1);
      ScanTraceStep(kinds, n);
    }
  }

  lemma ScanTraceStep(kinds: seq<LineKind>, n: nat)
    requires 0 < n <= |kinds|
    requires TraceInvariant(kinds, n - 1, Scan(kinds, n - 1), Trace(kinds, n - 1))
    ensures TraceInvariant(kinds, n, Scan(kinds, n), Trace(kinds, n))
  {
    var st, tr := Scan(kinds, n - 1), Trace(kinds, n - 1);
    TraceStepKeeps(kinds, n - 1, st, tr, Scan(kinds, n), Trace(kinds, n));
  }

  lemma TraceStart(kinds: seq<LineKind>)
    ensures TraceInvariant(kinds, 0, Scan(kinds, 0), Trace(kinds, 0))
  {
    assert Scan(kinds, 0) == ScanState(None, []) && Trace(kinds, 0) == Positions(None, []);
  }

  lemma TraceStepKeeps(kinds: seq<LineKind>, i: nat, st: ScanState, tr: Positions, st2: ScanState, tr2: Positions)
    requires i < |kinds| && TraceInvariant(kinds, i, st, tr)
    requires st2 == Step(st, kinds[i]) && tr2 == TraceStep(tr, kinds[i], i)
    ensures TraceInvariant(kinds, i + 1, st2, tr2)
  {
    if kinds[i].TitledHeader? {
      TitledKeeps(kinds, i, st, tr, st2, tr2);
    } else if kinds[i].UrlLine? && tr.pendingFrom.Some? {
      UrlKeeps(kinds, i, st, tr, st2, tr2);
    } else {
      assert st2 == st && tr2 == tr;
      QuietKeeps(kinds, i, st, tr);
    }
  }

  /** A titled header fills the slot and becomes the pending header. */
  lemma TitledKeeps(kinds: seq<LineKind>, i: nat, st: ScanState, tr: Positions, st2: ScanState, tr2: Positions)
    requires i < |kinds| && kinds[i].TitledHeader? && TraceInvariant(kinds, i, st, tr)
    requires st2 == st.(pending := Some(kinds[i].channel)) && tr2 == tr.(pendingFrom := Some(i))
    ensures TraceInvariant(kinds, i + 1, st2, tr2)
  {
    assert PendingOk(kinds, i + 1, st2.pending, i, tr2.links);
  }

  /** A URL line completes the pending channel and adds its link. */
  lemma UrlKeeps(kinds: seq<LineKind>, i: nat, st: ScanState, tr: Positions, st2: ScanState, tr2: Positions)
    requires i < |kinds| && kinds[i].UrlLine? && tr.pendingFrom.Some? && TraceInvariant(kinds, i, st, tr)
    requires st2 == Step(st, kinds[i]) && tr2 == TraceStep(tr, kinds[i], i)
    ensures TraceInvariant(kinds, i + 1, st2, tr2)
  {
    var u := kinds[i].url;
    var h := tr.pendingFrom.value;
    var c := st.pending.value;
    assert LinkOk(kinds, c.(url := u), Link(h, i));
    assert st2.channels == st.channels + [c.(url := u)];
    assert tr2.links == tr.links + [Link(h, i)];
    forall k | 0 <= k < |tr2.links|
      ensures LinkOk(kinds, st2.channels[k], tr2.links[k]) && tr2.links[k].url < i + 1
    {
      if k < |tr.links| {
        assert st2.channels[k] == st.channels[k] && tr2.links[k] == tr.links[k];
      }
    }
  }

  /** Any other line leaves the scan and the trace as they were. */
  lemma QuietKeeps(kinds: seq<LineKind>, i: nat, st: ScanState, tr: Positions)
    requires i < |kinds| && !kinds[i].TitledHeader? && (kinds[i].UrlLine? ==> tr.pendingFrom.None?)
    requires TraceInvariant(kinds, i, st, tr)
    ensures TraceInvariant(kinds, i + 1, st, tr)
  {
    if tr.pendingFrom.Some? {
      assert Quiet(kinds, tr.pendingFrom.value, i + 1);
    }
  }

  /** The emitted channels in terms of the source lines: the k-th channel is the record of
      a titled `#EXTINF:` line completed by the trimmed URL line after it, nothing in between
      replaced or completed it, and the channels appear in the order of their URL lines. */
  lemma ParseLines(content: string, rule: LogoRule)
    ensures var lines := Split(content, '\n');
      var kinds := Classified(lines, rule);
      var links := Trace(kinds, |kinds|).links;
      var out := Parse(content, rule);
      |out| == |links| &&
      (forall k :: 0 <= k < |out| ==>
        links[k].header < links[k].url < |lines| &&
        Quiet(kinds, links[k].header, links[k].url) &&
        IsUrlLine(out[k].url) && IsTrimmed(out[k].url) &&
        out[k].url == Trim(lines[links[k].url]) &&
        StartsWith(Trim(lines[links[k].header]), ExtinfTag) &&
        Header(Trim(lines[links[k].header]), rule) == Some(out[k].(url := [])) &&
        out[k].title != [] &&
        out[k].title == Trim(TitleAfterComma(Trim(lines[links[k].header]), false).value)) &&
      Ordered(links)
  {
    var lines := Split(content, '\n');
    var kinds := Classified(lines, rule);
    ScanTrace(kinds, |kinds|);
    var links := Trace(kinds, |kinds|).links;
    var out := Parse(content, rule);
    forall k | 0 <= k < |out|
      ensures IsUrlLine(out[k].url) && IsTrimmed(out[k].url) &&
        out[k].url == Trim(lines[links[k].url]) &&
        StartsWith(Trim(lines[links[k].header]), ExtinfTag) &&
        Header(Trim(lines[links[k].header]), rule) == Some(out[k].(url := [])) &&
        out[k].title != [] &&
        out[k].title == Trim(TitleAfterComma(Trim(lines[links[k].header]), false).value)
    {
      assert LinkOk(kinds, out[k], links[k]);
      ClassifiedAt(lines, rule, links[k].url);
      ClassifiedAt(lines, rule, links[k].header);
      ClassifyUrl(lines[links[k].url], rule);
      ClassifyTitled(lines[links[k].header], rule);
    }
  }

  /** A titled header whose entry meets another titled header before any URL line is
      dropped: no emitted channel comes from it. */
  lemma UnfinishedEntryDropped(kinds: seq<LineKind>, h: nat, h2: nat)
    requires h < h2 < |kinds|
    requires kinds[h].TitledHeader? && kinds[h2].TitledHeader? && Quiet(kinds, h, h2)
    ensures forall k :: 0 <= k < |Trace(kinds, |kinds|).links| ==> Trace(kinds, |kinds|).links[k].header != h
  {
    ScanTrace(kinds, |kinds|);
    var links := Trace(kinds, |kinds|).links;
    forall k | 0 <= k < |links| ensures links[k].header != h {
      assert LinkOk(kinds, Scan(kinds, |kinds|).channels[k], links[k]);
    }
  }

  /** Two kinds of a line that differ at most in the logo of the record. */
  predicate SameButLogo(a: LineKind, b: LineKind)
  {
    match a
    case TitledHeader(c) => b.TitledHeader? && c.(logo := "") == b.channel.(logo := "")
    case _ => a == b
  }

  /** The copies' logo patterns classify every line alike and build records that differ
      at most in the logo. */
  lemma ClassifyLogoRules(raw: string)
    ensures SameButLogo(Classify(raw, NonEmptyLogo), Classify(raw, AnyLogo))
  {
    if StartsWith(Trim(raw), ExtinfTag) && Header(Trim(raw), NonEmptyLogo).Some? {
      LogoRules(Trim(raw));
    }
  }

  /** Scans of line kinds that differ at most in logos differ at most in logos. */
  lemma {:induction false} ScanSameButLogo(ka: seq<LineKind>, kb: seq<LineKind>, n: nat)
    requires n <= |ka| == |kb|
    requires forall i :: 0 <= i < n ==> SameButLogo(ka[i], kb[i])
    ensures var a := Scan(ka, n);
      var b := Scan(kb, n);
      |a.channels| == |b.channels| &&
      (a.pending.Some? <==> b.pending.Some?) &&
      (a.pending.Some? ==> a.pending.value.(logo := "") == b.pending.value.(logo := "")) &&
      (forall k :: 0 <= k < |b.channels| ==> a.channels[k].(logo := "") == b.channels[k].(logo := ""))
    decreases n
  {
    if n > 0 {
      ScanSameButLogo(ka, kb, n - 1);
      var a := Scan(ka, n - 1);
      var b := Scan(kb, n - 1);
      if ka[n - 1].UrlLine? && a.pending.Some? {
        var a2 := Scan(ka, n);
        var b2 := Scan(kb, n);
        assert a2.channels == a.channels + [a.pending.value.(url := ka[n - 1].url)];
        assert b2.channels == b.channels + [b.pending.value.(url := kb[n - 1].url)];
        forall k | 0 <= k < |b2.channels| ensures a2.channels[k].(logo := "") == b2.channels[k].(logo := "") {
          if k < |b.channels| {
            assert a2.channels[k] == a.channels[k] && b2.channels[k] == b.channels[k];
          }
        }
      }
    }
  }

  /** Which logo pattern a copy uses affects only the logo field: the number of channels
      and every other field of every channel are the same. */
  lemma ParseLogoRules(content: string)
    ensures var a := Parse(content, NonEmptyLogo);
      var b := Parse(content, AnyLogo);
      |a| == |b| && forall k :: 0 <= k < |a| ==> a[k].(logo := "") == b[k].(logo := "")
  {
    var lines := Split(content, '\n');
    forall i | 0 <= i < |lines|
      ensures SameButLogo(Classified(lines, NonEmptyLogo)[i], Classified(lines, AnyLogo)[i])
    {
      ClassifiedAt(lines, NonEmptyLogo, i);
      ClassifiedAt(lines, AnyLogo, i);
      ClassifyLogoRules(lines[i]);
    }
    ScanSameButLogo(Classified(lines, NonEmptyLogo), Classified(lines, AnyLogo), |lines|);
  }
}
