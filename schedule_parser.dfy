/**
 * ymt/aatral-tv/js/m3uParser.js: the Aatral TV schedule parser. The text is split on '\n'
 * and whitespace-only lines are dropped (the others are kept untrimmed). Each `#EXTINF`
 * line is paired with the line after it, which is consumed whatever it holds; the pair
 * becomes an entry only when the header carries digit-valued `start-time`, `end-time` and
 * `total-time`, a title after a comma, and the URL a `v=` video id.
 */
module ScheduleParser {
  import opened JsBuiltins
  import opened JsArrays
  import opened Patterns

  /** One scheduled video; times are in seconds, `streamingTime` is the `HH:MM:SS` slot. */
  datatype ScheduleEntry = ScheduleEntry(
    title: string,
    url: string,
    startTime: nat,
    endTime: nat,
    totalTime: nat,
    streamingTime: string,
    videoId: string)

  const DefaultStreamingTime: string := "00:00:00"
  const ErrorPrefix: string := "Failed to parse M3U file: "
  const NoEntriesMessage: string := "No valid entries found in playlist"

  /** `content.split('\n').filter(line => line.trim() !== '')` */
  function NonBlankLines(content: string): (lines: seq<string>)
    ensures forall l :: l in lines <==> l in Split(content, '\n') && Trim(l) != ""
  {
    Filter(Split(content, '\n'), (l: string) => Trim(l) != "")
  }

  /** `parseInt` of the `key="(\d+)"` capture, when there is one. */
  function TimeAttr(info: string, key: string): Option<nat>
  {
    var d := AttrValue(info, key, Digits);
    if d.Some? then
      AttrValueSpec(info, key, Digits);
      Some(DecimalValue(d.value))
    else None
  }

  /** A time is the decimal value of a digit string quoted after its name in the header,
      and there is one whenever such a digit string occurs there. */
  lemma TimeAttrSpec(info: string, key: string)
    ensures TimeAttr(info, key).Some? ==>
      exists d :: d != [] && AllDecimalDigits(d) && Includes(info, key + "=\"" + d + "\"") &&
        TimeAttr(info, key).value == DecimalValue(d)
    ensures TimeAttr(info, key).None? <==> AttrValue(info, key, Digits).None?
  {
    AttrValueSpec(info, key, Digits);
    if TimeAttr(info, key).Some? {
      var d := AttrValue(info, key, Digits).value;
      assert AttrOpen(key) + d + "\"" == key + "=\"" + d + "\"";
    }
  }

  /** The `streaming-time` slot, '00:00:00' when missing or not `dd:dd:dd`. */
  function StreamingAttr(info: string): string
  {
    var v := AttrValue(info, "streaming-time", ClockTime);
    if v.Some? then v.value else DefaultStreamingTime
  }

  /** The slot is always a `dd:dd:dd` text: the header's when it has one, '00:00:00'
      when it does not. */
  lemma StreamingAttrSpec(info: string)
    ensures IsClockText(StreamingAttr(info))
    ensures !Includes(info, "streaming-time=\"") ==> StreamingAttr(info) == DefaultStreamingTime
    ensures StreamingAttr(info) != DefaultStreamingTime ==>
      Includes(info, "streaming-time=\"" + StreamingAttr(info) + "\"")
  {
    AttrValueSpec(info, "streaming-time", ClockTime);
    assert AttrOpen("streaming-time") == "streaming-time=\"";
    var v := AttrValue(info, "streaming-time", ClockTime);
    if v.Some? {
      assert AttrOpen("streaming-time") + v.value + "\"" == "streaming-time=\"" + v.value + "\"";
    }
    if !Includes(info, "streaming-time=\"") {
      AttrAbsent(info, "streaming-time", ClockTime);
    }
  }

  /** The entry a header line and its URL line make, or None when something required is
      missing. */
  function Entry(info: string, url: string): (r: Option<ScheduleEntry>)
    ensures r.Some? ==> r.value.url == url && IsClockText(r.value.streamingTime)
    ensures r.Some? ==> Some(r.value.videoId) == VideoParam(url)
  {
    StreamingAttrSpec(info);
    var start := TimeAttr(info, "start-time");
    var end := TimeAttr(info, "end-time");
    var total := TimeAttr(info, "total-time");
    var title := TitleAfterComma(info, true);
    var videoId := VideoParam(url);
    if start.Some? && end.Some? && total.Some? && title.Some? && videoId.Some? then
      Some(ScheduleEntry(title.value, url, start.value, end.value, total.value, StreamingAttr(info), videoId.value))
    else None
  }

  /** The entries of the non-blank lines, in file order. */
  function Entries(lines: seq<string>): seq<ScheduleEntry>
    decreases |lines|
  {
    if lines == [] then []
    else if StartsWith(lines[0], "#EXTINF") then
      if |lines| == 1 then []
      else
        (match Entry(lines[0], lines[1]) case Some(e) => [e] case None => []) + Entries(lines[2..])
    else Entries(lines[1..])
  }

  /** One step of the scan at line i. */
  lemma EntriesAt(lines: seq<string>, i: nat)
    requires i < |lines|
    ensures StartsWith(lines[i], "#EXTINF") && i + 1 < |lines| ==>
      Entries(lines[i..]) == (match Entry(lines[i], lines[i + 1]) case Some(e) => [e] case None => []) + Entries(lines[i + 2..])
    ensures StartsWith(lines[i], "#EXTINF") && i + 1 == |lines| ==> Entries(lines[i..]) == []
    ensures !StartsWith(lines[i], "#EXTINF") ==> Entries(lines[i..]) == Entries(lines[i + 1..])
  {
    assert lines[i..][0] == lines[i];
    if i + 1 < |lines| {
      assert lines[i..][1] == lines[i + 1];
      assert lines[i..][2..] == lines[i + 2..];
    }
    assert lines[i..][1..] == lines[i + 1..];
  }

  /** parseM3U's value: the entries, or the error it throws when there are none. */
  function Parse(content: string): (r: Result<seq<ScheduleEntry>>)
    ensures r.Ok? ==> r.value != []
    ensures r.Err? ==> r.message == ErrorPrefix + NoEntriesMessage
  {
    var entries := Entries(NonBlankLines(content));
    if entries == [] then Err(ErrorPrefix + NoEntriesMessage) else Ok(entries)
  }

  /** `parseM3U(content)` */
  method ParseM3U(content: string) returns (r: Result<seq<ScheduleEntry>>)
    ensures r == Parse(content)
  {
    var lines := NonBlankLines(content);
    var entries := ScanEntries(lines);
    if |entries| == 0 {
      return Err(ErrorPrefix + NoEntriesMessage);
    }
    return Ok(entries);
  }

  /** parseM3U's loop, with its manual skip of the URL line. */
  method ScanEntries(lines: seq<string>) returns (entries: seq<ScheduleEntry>)
    ensures entries == Entries(lines)
  {
    entries := [];
    var i := 0;
    while i < |lines|
      invariant 0 <= i <= |lines|
      invariant entries + Entries(lines[i..]) == Entries(lines)
    {
      EntriesAt(lines, i);
      if StartsWith(lines[i], "#EXTINF") {
        if i + 1 == |lines| {
          i := i + 1;
          continue;
        }
        var infoLine, urlLine := lines[i], lines[i + 1];
        var entry := Entry(infoLine, urlLine);
        if entry.Some? {
          entries := entries + [entry.value];
        }
        i := i + 1;
      }
      i := i + 1;
    }
    assert lines[i..] == [];
  }

  // ---------------------------------------------------------------------------
  // What an entry holds
  // ---------------------------------------------------------------------------

  /** An entry exists exactly when all three times are digit strings, the header has a
      title and the URL a video id; the streaming slot is optional. */
  lemma EntryRequires(info: string, url: string)
    ensures Entry(info, url).Some? <==>
      AttrValue(info, "start-time", Digits).Some? && AttrValue(info, "end-time", Digits).Some? &&
      AttrValue(info, "total-time", Digits).Some? && TitleAfterComma(info, true).Some? &&
      VideoParam(url).Some?
  {
    TimeAttrSpec(info, "start-time");
    TimeAttrSpec(info, "end-time");
    TimeAttrSpec(info, "total-time");
  }

  /** The times are the decimal values of digit strings quoted after their names in the
      header; the streaming slot is always a `dd:dd:dd` text, the one in the header when
      it has one and '00:00:00' otherwise; the URL is the whole line after the header. */
  lemma EntryFields(info: string, url: string)
    requires Entry(info, url).Some?
    ensures var e := Entry(info, url).value;
      Some(e.startTime) == TimeAttr(info, "start-time") && Some(e.endTime) == TimeAttr(info, "end-time") &&
      Some(e.totalTime) == TimeAttr(info, "total-time") &&
      IsClockText(e.streamingTime) &&
      (!Includes(info, "streaming-time=\"") ==> e.streamingTime == DefaultStreamingTime) &&
      (e.streamingTime != DefaultStreamingTime ==> Includes(info, "streaming-time=\"" + e.streamingTime + "\"")) &&
      e.url == url
  {
    StreamingAttrSpec(info);
  }

  /** The title is a non-empty, terminator-free tail of the header that starts after the
      comma's spaces; the video id is non-empty, has no '&' and follows `?v=` or `&v=` in
      the URL. */
  lemma EntryTitleAndId(info: string, url: string)
    requires Entry(info, url).Some?
    ensures var e := Entry(info, url).value;
      e.title != [] && NoLineTerminator(e.title) && |e.title| < |info| &&
      info[|info| - |e.title|..] == e.title && (IsJsSpace(e.title[0]) ==> |e.title| == 1) &&
      e.videoId != [] && '&' !in e.videoId &&
      (Includes(url, "?v=" + e.videoId) || Includes(url, "&v=" + e.videoId))
  {
    SpacedTitleIsSuffix(info);
    VideoParamSpec(url);
  }

  /** A header read from a file with CRLF line ends keeps its '\r', so its title never
      matches and the entry is skipped. */
  lemma CarriageReturnSkipsEntry(info: string, url: string)
    requires info != [] && info[|info| - 1] == '\r'
    ensures Entry(info, url).None?
  {
    CarriageReturnNoTitle(info);
  }

  // ---------------------------------------------------------------------------
  // The scan
  // ---------------------------------------------------------------------------

  /** The line after a header is consumed whatever it holds, even another header. */
  lemma UrlLineConsumed(info: string, next: string, rest: seq<string>)
    requires StartsWith(info, "#EXTINF")
    ensures Entries([info, next] + rest) ==
      (match Entry(info, next) case Some(e) => [e] case None => []) + Entries(rest)
  {
    assert ([info, next] + rest)[2..] == rest;
  }

  /** A header and the line after it make the same entry once a line is appended. */
  lemma HeaderPairAppended(lines: seq<string>, info: string)
    requires |lines| >= 2 && StartsWith(lines[0], "#EXTINF")
    ensures var first := match Entry(lines[0], lines[1]) case Some(e) => [e] case None => [];
      Entries(lines + [info]) == first + Entries(lines[2..] + [info]) &&
      Entries(lines) == first + Entries(lines[2..])
  {
    var more := lines + [info];
    assert more[0] == lines[0] && more[1] == lines[1] && more[2..] == lines[2..] + [info];
  }

  /** A line that is no header is passed over, with or without a line appended. */
  lemma OtherLineAppended(lines: seq<string>, info: string)
    requires lines != [] && !StartsWith(lines[0], "#EXTINF")
    ensures Entries(lines + [info]) == Entries(lines[1..] + [info]) && Entries(lines) == Entries(lines[1..])
  {
    assert (lines + [info])[1..] == lines[1..] + [info];
  }

  /** A header on the last line has no URL line and yields nothing: appending one to the
      lines changes the entries only when it becomes the URL line of a header before it. */
  lemma {:induction false} TrailingHeaderSkipped(lines: seq<string>, info: string)
    requires StartsWith(info, "#EXTINF")
    ensures Entries(lines + [info]) == Entries(lines) ||
      (lines != [] && StartsWith(lines[|lines| - 1], "#EXTINF"))
    decreases |lines|
  {
    if lines != [] && !StartsWith(lines[|lines| - 1], "#EXTINF") {
      var n := |lines|;
      if StartsWith(lines[0], "#EXTINF") {
        HeaderPairAppended(lines, info);
        TrailingHeaderSkipped(lines[2..], info);
        assert lines[2..] != [] ==> lines[2..][n - 3] == lines[n - 1];
      } else {
        OtherLineAppended(lines, info);
        TrailingHeaderSkipped(lines[1..], info);
        assert lines[1..] != [] ==> lines[1..][n - 2] == lines[n - 1];
      }
    }
  }

  /** Every entry comes from a header line and the line after it: its URL is a line of
      the input, and there are at most half as many entries as lines. */
  lemma {:induction false} EntriesFromPairs(lines: seq<string>)
    ensures 2 * |Entries(lines)| <= |lines|
    ensures forall e :: e in Entries(lines) ==>
      exists i :: 0 <= i < |lines| - 1 && StartsWith(lines[i], "#EXTINF") && Entry(lines[i], lines[i + 1]) == Some(e)
    decreases |lines|
  {
    if lines != [] {
      if StartsWith(lines[0], "#EXTINF") && |lines| > 1 {
        EntriesFromPairs(lines[2..]);
        forall e | e in Entries(lines)
          ensures exists i :: 0 <= i < |lines| - 1 && StartsWith(lines[i], "#EXTINF") && Entry(lines[i], lines[i + 1]) == Some(e)
        {
          if e in Entries(lines[2..]) {
            var i :| 0 <= i < |lines[2..]| - 1 && StartsWith(lines[2..][i], "#EXTINF") && Entry(lines[2..][i], lines[2..][i + 1]) == Some(e);
            assert lines[i + 2] == lines[2..][i] && lines[i + 3] == lines[2..][i + 1];
          } else {
            assert Entry(lines[0], lines[1]) == Some(e);
          }
        }
      } else if !StartsWith(lines[0], "#EXTINF") {
        EntriesFromPairs(lines[1..]);
        forall e | e in Entries(lines)
          ensures exists i :: 0 <= i < |lines| - 1 && StartsWith(lines[i], "#EXTINF") && Entry(lines[i], lines[i + 1]) == Some(e)
        {
          var i :| 0 <= i < |lines[1..]| - 1 && StartsWith(lines[1..][i], "#EXTINF") && Entry(lines[1..][i], lines[1..][i + 1]) == Some(e);
          assert lines[i + 1] == lines[1..][i] && lines[i + 2] == lines[1..][i + 1];
        }
      }
    }
  }

  /** parseM3U fails exactly when no entry is valid, always with the common prefix, and
      otherwise returns the entries. */
  lemma ParseOutcome(content: string)
    ensures Parse(content).Err? <==> Entries(NonBlankLines(content)) == []
    ensures Parse(content).Err? ==> StartsWith(Parse(content).message, ErrorPrefix)
    ensures Parse(content).Ok? ==> Parse(content).value != [] && Parse(content).value == Entries(NonBlankLines(content))
  {
  }
}
