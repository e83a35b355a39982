/**
 * main.js: the video portal page. `formatDuration` renders an ISO 8601 duration
 * (`PT#H#M#S`) as a clock text, `getVideoId` reads the `v=` parameter of a YouTube URL,
 * `generateExtendedData` repeats the catalogue to a given length, and `showVideo`
 * picks up to five suggestions that are not the video being shown. Rendering the
 * cards and the view-count formatting are not part of this model.
 */
module Portal {
  import opened JsBuiltins
  import opened JsArrays
  import opened Patterns

  // ---------------------------------------------------------------------------
  // formatDuration
  // ---------------------------------------------------------------------------

  /** The hours, minutes and seconds a duration text designates. */
  datatype Duration = Duration(hours: nat, minutes: nat, seconds: nat)

  /** One optional `(\d+)X` group of the pattern: the digits it captured, and what is
      left after it. */
  datatype Taken = Taken(digits: Option<string>, rest: string)

  /** The text after the first "PT", where the unanchored pattern starts to match. */
  function AfterPT(s: string): Option<string>
    decreases |s|
  {
    if |s| < 2 then None
    else if s[0] == 'P' && s[1] == 'T' then Some(s[2..])
    else AfterPT(s[1..])
  }

  /** `(?:(\d+)X)?` at the start of `r`: the digit run is taken only when the designator
      `x` follows it. */
  function Designator(r: string, x: char): (t: Taken)
    ensures t.digits.Some? ==> t.digits.value != [] && AllDecimalDigits(t.digits.value)
  {
    var k := DigitRun(r, false);
    if 0 < k < |r| && r[k] == x then Taken(Some(r[..k]), r[k + 1..]) else Taken(None, r)
  }

  /** `parseInt(match[i] || '0')` for a captured digit run. */
  function PartValue(digits: Option<string>): nat
    requires digits.Some? ==> AllDecimalDigits(digits.value)
  {
    if digits.Some? then DecimalValue(digits.value) else 0
  }

  /** The groups of `PT(?:(\d+)H)?(?:(\d+)M)?(?:(\d+)S)?`, or None when the text has no
      "PT" and the pattern does not match. */
  function Components(s: string): Option<Duration>
  {
    match AfterPT(s)
    case None => None
    case Some(r) =>
      var h := Designator(r, 'H');
      var m := Designator(h.rest, 'M');
      var sec := Designator(m.rest, 'S');
      Some(Duration(PartValue(h.digits), PartValue(m.digits), PartValue(sec.digits)))
  }

  /** 'h:mm:ss' when there are hours, otherwise 'm:ss'. */
  function Clock(d: Duration): string
  {
    if d.hours > 0 then
      NatToString(d.hours) + ":" + PadStart2(NatToString(d.minutes)) + ":" + PadStart2(NatToString(d.seconds))
    else NatToString(d.minutes) + ":" + PadStart2(NatToString(d.seconds))
  }

  /** `formatDuration(duration)`; an absent value is None. */
  function FormatDuration(duration: Option<string>): (r: string)
    ensures duration.None? || !Includes(duration.value, "PT") ==> r == "0:00"
    ensures ':' in r
  {
    if duration.None? || duration.value == "" then "0:00"
    else
      AfterPTFound(duration.value);
      match Components(duration.value)
      case None => "0:00"
      case Some(d) => ClockHasColon(d); Clock(d)
  }

  /** Both clock forms separate their fields with ':'. */
  lemma ClockHasColon(d: Duration)
    ensures ':' in Clock(d)
  {
    var tail := PadStart2(NatToString(d.seconds));
    if d.hours > 0 {
      var head := NatToString(d.hours) + ":" + PadStart2(NatToString(d.minutes));
      assert Clock(d) == head + ":" + tail && (head + ":" + tail)[|head|] == ':';
    } else {
      var head := NatToString(d.minutes);
      assert Clock(d) == head + ":" + tail && (head + ":" + tail)[|head|] == ':';
    }
  }

  /** The pattern matches exactly the texts that contain "PT". */
  lemma {:induction false} AfterPTFound(s: string)
    ensures AfterPT(s).Some? <==> Includes(s, "PT")
    decreases |s|
  {
    if |s| < 2 {
      assert !StartsWith(s, "PT");
      if s != [] {
        assert s[1..] == [] && !StartsWith(s[1..], "PT");
      }
    } else if s[0] == 'P' && s[1] == 'T' {
      assert s[..2] == "PT";
    } else {
      assert !StartsWith(s, "PT");
      AfterPTFound(s[1..]);
    }
  }

  /** No value, the empty text and a text without "PT" all show '0:00'. */
  lemma FormatDurationDefaults(s: string)
    ensures FormatDuration(None) == "0:00" && FormatDuration(Some("")) == "0:00"
    ensures !Includes(s, "PT") ==> FormatDuration(Some(s)) == "0:00"
  {
    AfterPTFound(s);
  }

  /** A captured group reads the same number parseInt reads from it. */
  lemma PartValueIsParseInt(digits: string)
    requires digits != [] && AllDecimalDigits(digits)
    ensures ParseInt(digits) == Num(PartValue(Some(digits)))
  {
    assert digits + [] == digits;
    DigitsThenRest(digits, [], true);
  }

  // The text of a duration, `PT` followed by the designated parts, for the round trip.

  /** `<n>X`, or nothing. */
  function Part(n: Option<nat>, x: char): string
  {
    if n.Some? then NatToString(n.value) + [x] else ""
  }

  /** The ISO 8601 text `PT[nH][nM][nS]`. */
  function IsoDuration(h: Option<nat>, m: Option<nat>, s: Option<nat>): string
  {
    "PT" + Part(h, 'H') + Part(m, 'M') + Part(s, 'S')
  }

  function OrZero(n: Option<nat>): nat
  {
    if n.Some? then n.value else 0
  }

  /** A text starting with a part designated by something other than `x`, or empty,
      leaves the `x` group unmatched. */
  lemma DesignatorSkips(n: Option<nat>, y: char, rest: string, x: char)
    requires y != x && !IsDecimalDigit(y)
    requires n.None? ==> rest == []
    ensures Designator(Part(n, y) + rest, x) == Taken(None, Part(n, y) + rest)
  {
    if n.Some? {
      var d := NatToString(n.value);
      assert Part(n, y) + rest == d + ([y] + rest);
      DigitRunOfDigits(d, [y] + rest);
      assert (d + ([y] + rest))[|d|] == y;
    } else {
      assert Part(n, y) + rest == [];
    }
  }

  /** A part designated by `x` is taken by the `x` group, whatever follows it. */
  lemma DesignatorTakes(n: Option<nat>, x: char, rest: string)
    requires !IsDecimalDigit(x)
    ensures n.Some? ==> Designator(Part(n, x) + rest, x) == Taken(Some(NatToString(n.value)), rest)
  {
    if n.Some? {
      var d := NatToString(n.value);
      assert Part(n, x) + rest == d + ([x] + rest);
      DigitRunOfDigits(d, [x] + rest);
      var s := d + ([x] + rest);
      assert s[|d|] == x && s[..|d|] == d && s[|d| + 1..] == rest;
    }
  }

  /** The value a designated part reads back as. */
  lemma PartReadsBack(n: Option<nat>)
    ensures n.Some? ==> PartValue(Some(NatToString(n.value))) == n.value
  {
    if n.Some? {
      DecimalValueOfNatToString(n.value);
    }
  }

  /** The `x` group of a text that starts with `Part(n, x)` and then parts designated by
      letters other than `x`. */
  lemma GroupOf(n: Option<nat>, x: char, next: Option<nat>, y: char, rest: string)
    requires !IsDecimalDigit(x) && !IsDecimalDigit(y) && y != x
    requires next.None? ==> rest == []
    ensures var t := Designator(Part(n, x) + Part(next, y) + rest, x);
      t.rest == Part(next, y) + rest && PartValue(t.digits) == OrZero(n) &&
      (t.digits.Some? ==> AllDecimalDigits(t.digits.value))
  {
    var after := Part(next, y) + rest;
    assert Part(n, x) + Part(next, y) + rest == Part(n, x) + after;
    if n.Some? {
      DesignatorTakes(n, x, after);
      PartReadsBack(n);
    } else {
      assert Part(n, x) + after == after;
      DesignatorSkips(next, y, rest, x);
    }
  }

  lemma AfterPTOf(r: string)
    ensures AfterPT("PT" + r) == Some(r)
  {
    var t := "PT" + r;
    assert t[0] == 'P' && t[1] == 'T' && t[2..] == r;
  }

  /** Components reads the three groups off the text after `PT`. */
  lemma ComponentsAfterPT(r: string)
    ensures var th := Designator(r, 'H');
      var tm := Designator(th.rest, 'M');
      var ts := Designator(tm.rest, 'S');
      Components("PT" + r) == Some(Duration(PartValue(th.digits), PartValue(tm.digits), PartValue(ts.digits)))
  {
    AfterPTOf(r);
  }

  /** The hours group of the ISO text leaves the minutes and seconds parts. */
  lemma HoursGroup(h: Option<nat>, m: Option<nat>, s: Option<nat>)
    ensures var th := Designator(Part(h, 'H') + Part(m, 'M') + Part(s, 'S'), 'H');
      th.rest == Part(m, 'M') + Part(s, 'S') && PartValue(th.digits) == OrZero(h)
  {
    var r := Part(h, 'H') + Part(m, 'M') + Part(s, 'S');
    if m.Some? {
      GroupOf(h, 'H', m, 'M', Part(s, 'S'));
    } else {
      assert r == Part(h, 'H') + Part(s, 'S') + [];
      assert Part(m, 'M') + Part(s, 'S') == Part(s, 'S') + [];
      GroupOf(h, 'H', s, 'S', []);
    }
  }

  /** The groups read back the parts of the ISO text; an absent part counts as 0. */
  lemma ComponentsOfIso(h: Option<nat>, m: Option<nat>, s: Option<nat>)
    ensures Components(IsoDuration(h, m, s)) == Some(Duration(OrZero(h), OrZero(m), OrZero(s)))
  {
    var r := Part(h, 'H') + Part(m, 'M') + Part(s, 'S');
    assert IsoDuration(h, m, s) == "PT" + r;
    HoursGroup(h, m, s);
    var th := Designator(r, 'H');
    // The minutes group, then the seconds group.
    assert th.rest == Part(m, 'M') + Part(s, 'S') + [];
    GroupOf(m, 'M', s, 'S', []);
    var tm := Designator(th.rest, 'M');
    assert tm.rest == Part(s, 'S') + Part(None, 'T') + [];
    GroupOf(s, 'S', None, 'T', []);
    ComponentsAfterPT(r);
  }

  /** Formatting reads back: any ISO text of the pattern shows its parts, an absent part
      counting as 0. */
  lemma FormatIso(h: Option<nat>, m: Option<nat>, s: Option<nat>)
    ensures FormatDuration(Some(IsoDuration(h, m, s))) == Clock(Duration(OrZero(h), OrZero(m), OrZero(s)))
  {
    ComponentsOfIso(h, m, s);
  }

  /** A padded component keeps its value and is at least two digits long. */
  lemma PaddedValue(n: nat)
    ensures var p := PadStart2(NatToString(n));
      AllDecimalDigits(p) && DecimalValue(p) == n && |p| >= 2 && (n < 100 ==> |p| == 2) && ':' !in p
  {
    var d := NatToString(n);
    DecimalValueOfNatToString(n);
    if |d| < 2 {
      var p := ['0'] + d;
      assert PadStart2(d) == p;
      assert p[..|p| - 1] == ['0'] && ['0'][..0] == [] && d[..0] == [];
      assert DecimalValue(p) == DecimalDigitValue(d[0]);
    }
    if n < 100 {
      ShortText(n);
    }
  }

  lemma ShortText(n: nat)
    requires n < 100
    ensures |NatToString(n)| <= 2
  {
    if n >= 10 {
      assert n / 10 < 10;
    }
  }

  /** The clock text splits at ':' into the components, in order, each reading back as
      its value; minutes and seconds are padded to two digits when there are hours,
      the seconds always. */
  lemma ClockReadsBack(d: Duration)
    ensures var parts := Split(Clock(d), ':');
      (d.hours > 0 ==>
        |parts| == 3 && parts[0] == NatToString(d.hours) &&
        AllDecimalDigits(parts[1]) && AllDecimalDigits(parts[2]) &&
        DecimalValue(parts[0]) == d.hours && DecimalValue(parts[1]) == d.minutes &&
        DecimalValue(parts[2]) == d.seconds && |parts[1]| >= 2 && |parts[2]| >= 2) &&
      (d.hours == 0 ==>
        |parts| == 2 && parts[0] == NatToString(d.minutes) &&
        AllDecimalDigits(parts[1]) &&
        DecimalValue(parts[0]) == d.minutes && DecimalValue(parts[1]) == d.seconds && |parts[1]| >= 2)
  {
    if d.hours > 0 {
      HoursClockReadsBack(d);
    } else {
      MinutesClockReadsBack(d);
    }
  }

  /** With hours, the clock text splits into the hours and the padded minutes and seconds. */
  lemma HoursClockReadsBack(d: Duration)
    requires d.hours > 0
    ensures var parts := Split(Clock(d), ':');
      |parts| == 3 && parts[0] == NatToString(d.hours) &&
      AllDecimalDigits(parts[1]) && AllDecimalDigits(parts[2]) &&
      DecimalValue(parts[0]) == d.hours && DecimalValue(parts[1]) == d.minutes &&
      DecimalValue(parts[2]) == d.seconds && |parts[1]| >= 2 && |parts[2]| >= 2
  {
    var hs, ms, sec := NatToString(d.hours), PadStart2(NatToString(d.minutes)), PadStart2(NatToString(d.seconds));
    PaddedValue(d.minutes);
    PaddedValue(d.seconds);
    DecimalValueOfNatToString(d.hours);
    SplitNoSep(sec, ':');
    assert ':' !in hs;
    assert Clock(d) == hs + [':'] + (ms + [':'] + sec);
    SplitAtFirst(hs, ms + [':'] + sec, ':');
    SplitAtFirst(ms, sec, ':');
    assert Split(Clock(d), ':') == [hs, ms, sec];
  }

  /** Without hours, the clock text splits into the minutes and the padded seconds. */
  lemma MinutesClockReadsBack(d: Duration)
    requires d.hours == 0
    ensures var parts := Split(Clock(d), ':');
      |parts| == 2 && parts[0] == NatToString(d.minutes) &&
      AllDecimalDigits(parts[1]) &&
      DecimalValue(parts[0]) == d.minutes && DecimalValue(parts[1]) == d.seconds && |parts[1]| >= 2
  {
    var ms, sec := NatToString(d.minutes), PadStart2(NatToString(d.seconds));
    PaddedValue(d.seconds);
    DecimalValueOfNatToString(d.minutes);
    SplitNoSep(sec, ':');
    assert ':' !in ms;
    assert Clock(d) == ms + [':'] + sec;
    SplitAtFirst(ms, sec, ':');
    assert Split(Clock(d), ':') == [ms, sec];
  }

  // ---------------------------------------------------------------------------
  // getVideoId
  // ---------------------------------------------------------------------------

  /** `getVideoId(url)`: the capture of `[?&]v=([^&]+)` cut at its first '&', or null. */
  function GetVideoId(url: string): (r: Option<string>)
    ensures r == VideoParam(url)
  {
    match VideoParam(url)
    case None => None
    case Some(m) =>
      SplitNoSep(m, '&');
      Some(Split(m, '&')[0])
  }

  /** The cut at '&' never changes the capture: the id is the `v=` parameter itself,
      non-empty, free of '&', and found after '?v=' or '&v=' in the URL. */
  lemma GetVideoIdSpec(url: string)
    ensures GetVideoId(url) == VideoParam(url)
    ensures GetVideoId(url).Some? ==>
      var id := GetVideoId(url).value;
      id != [] && '&' !in id && (Includes(url, "?v=" + id) || Includes(url, "&v=" + id))
  {
    VideoParamSpec(url);
    if VideoParam(url).Some? {
      SplitNoSep(VideoParam(url).value, '&');
    }
  }

  /** getVideoId gives null exactly when no '?' or '&' is followed by `v=` and a character
      other than '&'; otherwise the id is the one at the leftmost such place. */
  lemma GetVideoIdFirst(url: string)
    ensures GetVideoId(url).None? <==> forall p: nat :: p < |url| ==> VideoParamHere(url[p..]).None?
    ensures forall p: nat :: FirstVideoParamAt(url, p) ==> GetVideoId(url) == VideoParamHere(url[p..])
  {
    forall p: nat | p < |url| && VideoParamHere(url[p..]).Some?
      ensures VideoParam(url).Some?
    {
      VideoParamFound(url, p);
    }
    if VideoParam(url).Some? {
      VideoParamFoundFirst(url);
    }
    forall p: nat | FirstVideoParamAt(url, p)
      ensures VideoParam(url) == VideoParamHere(url[p..])
    {
      VideoParamFirst(url, p);
    }
  }

  /** The capture is at least one character after three others. */
  lemma {:induction false} VideoParamLength(s: string)
    ensures VideoParam(s).Some? ==> |s| >= 4
    decreases |s|
  {
    if s != [] && VideoParamHere(s).None? {
      VideoParamLength(s[1..]);
    }
  }

  lemma {:induction false} RunBeforeStop(a: string, b: string)
    ensures RunBefore(a + ['&'] + b, '&') == RunBefore(a, '&')
    decreases |a|
  {
    if a != [] {
      assert (a + ['&'] + b)[1..] == a[1..] + ['&'] + b;
      RunBeforeStop(a[1..], b);
    } else {
      assert (a + ['&'] + b)[0] == '&';
    }
  }

  /** Appending another query parameter never changes a URL's video id. */
  lemma {:induction false} VideoParamKeptByQuery(u: string, t: string)
    requires VideoParam(u).Some?
    ensures VideoParam(u + ['&'] + t) == VideoParam(u)
    decreases |u|
  {
    var s := u + ['&'] + t;
    VideoParamLength(u);
    assert s[0] == u[0] && s[1] == u[1] && s[2] == u[2] && s[3] == u[3];
    assert s[3..] == u[3..] + ['&'] + t;
    RunBeforeStop(u[3..], t);
    if VideoParamHere(u).Some? {
      assert s[3..][..RunBefore(u[3..], '&')] == u[3..][..RunBefore(u[3..], '&')];
    } else {
      assert s[1..] == u[1..] + ['&'] + t;
      VideoParamKeptByQuery(u[1..], t);
    }
  }

  // ---------------------------------------------------------------------------
  // generateExtendedData
  // ---------------------------------------------------------------------------

  /** A catalogue entry: its URL, title, ISO duration and channel. The view count, which
      the source only formats and randomises in floating point, is not part of the model. */
  datatype Video = Video(url: string, title: string, duration: Option<string>, channelTitle: string)

  /** Entry `i` of the extended list, copied from `base` in round `i / len`. */
  function Clone(base: Video, i: nat, len: nat): (r: Video)
    requires len > 0
    ensures r.(url := base.url, title := base.title) == base
    ensures base.url < r.url && base.title < r.title
  {
    base.(url := base.url + "&clone=" + NatToString(i),
          title := base.title + " " + NatToString(i / len + 1))
  }

  /** The list `generateExtendedData(originalData, count)` builds. An empty catalogue
      with a positive count makes the source read a property of undefined. */
  function Extended(original: seq<Video>, count: nat): (r: seq<Video>)
    requires count == 0 || original != []
    ensures |r| == count
  {
    seq(count, i requires 0 <= i < count => Clone(original[i % |original|], i, |original|))
  }

  /** `generateExtendedData(originalData, count)`: a loop that pushes one clone per
      index. */
  method GenerateExtendedData(original: seq<Video>, count: nat) returns (extended: seq<Video>)
    requires count == 0 || original != []
    ensures extended == Extended(original, count)
  {
    extended := [];
    var i := 0;
    while i < count
      invariant 0 <= i <= count
      invariant extended == Extended(original, count)[..i]
    {
      var baseVideo := original[i % |original|];
      extended := extended + [Clone(baseVideo, i, |original|)];
      i := i + 1;
    }
  }

  /** Entry `i` is the catalogue entry `i mod len`, with `&clone=i` added to its URL and
      its round number `floor(i / len) + 1` to its title; its duration and channel are
      copied, and its video id is the original's. */
  lemma ExtendedEntries(original: seq<Video>, count: nat, i: nat)
    requires original != [] && i < count
    ensures var e := Extended(original, count)[i];
      var base := original[i % |original|];
      e.url == base.url + "&clone=" + NatToString(i) &&
      e.title == base.title + " " + NatToString(i / |original| + 1) &&
      e.duration == base.duration && e.channelTitle == base.channelTitle &&
      (GetVideoId(base.url).Some? ==> GetVideoId(e.url) == GetVideoId(base.url))
  {
    var base := original[i % |original|];
    var e := Extended(original, count)[i];
    assert e == Clone(base, i, |original|);
    if GetVideoId(base.url).Some? {
      var query := "clone=" + NatToString(i);
      assert e.url == base.url + ['&'] + query;
      VideoParamKeptByQuery(base.url, query);
    }
  }

  /** The first round reproduces the catalogue in order, numbered 1. */
  lemma ExtendedFirstRound(original: seq<Video>, count: nat, i: nat)
    requires i < |original| && i < count
    ensures Extended(original, count)[i] == Clone(original[i], i, |original|)
    ensures Extended(original, count)[i].title == original[i].title + " 1"
  {
    DivModUnique(i, |original|, 0, i);
    assert NatToString(1) == "1";
  }

  /** Entries one catalogue length apart come from the same original: the same video,
      duration and channel, one round further on. */
  lemma ExtendedPeriodic(original: seq<Video>, count: nat, i: nat)
    requires original != [] && i + |original| < count
    ensures var e, f := Extended(original, count)[i], Extended(original, count)[i + |original|];
      f.duration == e.duration && f.channelTitle == e.channelTitle &&
      (GetVideoId(original[i % |original|].url).Some? ==> GetVideoId(f.url) == GetVideoId(e.url))
  {
    ModShift(i, |original|);
    ExtendedEntries(original, count, i);
    ExtendedEntries(original, count, i + |original|);
  }

  lemma ModShift(i: nat, len: nat)
    requires len > 0
    ensures (i + len) % len == i % len
  {
    var q, r := i / len, i % len;
    assert i == q * len + r;
    assert i + len == (q + 1) * len + r;
    DivModUnique(i + len, len, q + 1, r);
  }

  /** The quotient and remainder of a division are the only ones. */
  lemma DivModUnique(x: int, len: int, q: int, r: int)
    requires len > 0 && 0 <= r < len && x == q * len + r
    ensures x / len == q && x % len == r
  {
    var q', r' := x / len, x % len;
    assert x == q' * len + r';
    assert (q - q') * len == r' - r;
    MulSign(q - q', len);
  }

  lemma MulSign(k: int, len: int)
    requires len > 0
    ensures k == 0 || k * len >= len || k * len <= -len
  {
    if k >= 1 {
      assert k * len == (k - 1) * len + len;
    } else if k <= -1 {
      assert k * len == (k + 1) * len - len;
    }
  }

  // ---------------------------------------------------------------------------
  // Suggestions in showVideo
  // ---------------------------------------------------------------------------

  const MaxSuggestions: nat := 5

  /** The suggestions shown beside video `videoId`: the first five entries whose id is a
      different one (an entry without an id counts as different). */
  function Suggestions(extended: seq<Video>, videoId: string): (r: seq<Video>)
    ensures |r| <= MaxSuggestions
    ensures forall v :: v in r ==> v in extended && GetVideoId(v.url) != Some(videoId)
  {
    var others := Filter(extended, (v: Video) => GetVideoId(v.url) != Some(videoId));
    var r := Take(others, MaxSuggestions);
    assert forall k :: 0 <= k < |r| ==> r[k] in others;
    r
  }

  /** `showVideo(video)`: nothing when the video has no id, otherwise its suggestions. */
  function ShowVideo(extended: seq<Video>, video: Video): (r: Option<seq<Video>>)
    ensures r.Some? <==> GetVideoId(video.url).Some?
    ensures r.Some? ==> |r.value| <= MaxSuggestions
    ensures r.Some? ==> forall v :: v in r.value ==> v in extended && GetVideoId(v.url) != GetVideoId(video.url)
  {
    match GetVideoId(video.url)
    case None => None
    case Some(id) => Some(Suggestions(extended, id))
  }

  /** At most five suggestions, all from the list and none with the shown id, in list
      order; fewer than five only when no other entry is left. */
  lemma SuggestionsSpec(extended: seq<Video>, videoId: string)
    ensures var r := Suggestions(extended, videoId);
      var others := Filter(extended, (v: Video) => GetVideoId(v.url) != Some(videoId));
      |r| <= MaxSuggestions && r == others[..|r|] &&
      (|r| < MaxSuggestions ==> r == others) &&
      forall v :: v in r ==> v in extended && GetVideoId(v.url) != Some(videoId)
  {
    var others := Filter(extended, (v: Video) => GetVideoId(v.url) != Some(videoId));
    var r := Suggestions(extended, videoId);
    assert r == others[..|r|];
    forall v | v in r ensures v in others {
      var k :| 0 <= k < |r| && r[k] == v;
      assert others[k] == v;
    }
  }

  /** No clone of the shown catalogue entry is ever suggested beside it. */
  lemma SuggestionsSkipClones(original: seq<Video>, count: nat, k: nat)
    requires original != [] && k < |original| && GetVideoId(original[k].url).Some?
    ensures var r := Suggestions(Extended(original, count), GetVideoId(original[k].url).value);
      forall i :: 0 <= i < count && i % |original| == k ==> Extended(original, count)[i] !in r
  {
    var id := GetVideoId(original[k].url).value;
    SuggestionsSpec(Extended(original, count), id);
    forall i | 0 <= i < count && i % |original| == k
      ensures GetVideoId(Extended(original, count)[i].url) == Some(id)
    {
      ExtendedEntries(original, count, i);
    }
  }
}
