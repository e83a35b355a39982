/**
 * ymt/aatral-tv/js/VideoPlayer.js: the Aatral TV schedule. Each playlist entry has a
 * wall-clock slot `streamingTime`; on load the player picks the entry whose slot is the
 * latest one already reached, starts it at the offset the clock implies, and at the end
 * of each video moves to the next entry. The current time (Indian Standard Time, in
 * seconds since midnight) and the fetched playlist texts are parameters; the YouTube
 * player itself is not part of this model.
 */
module VideoSchedule {
  import opened JsBuiltins
  import opened Patterns
  import opened ScheduleParser

  // ---------------------------------------------------------------------------
  // timeToSeconds
  // ---------------------------------------------------------------------------

  /** `VideoPlayer.timeToSeconds(timeStr)`: split on ':', parseInt each part in base 10;
      a missing or NaN seconds part counts as 0, a missing hours or minutes part makes
      the result NaN. */
  function TimeToSeconds(timeStr: string): (r: JsNum)
    ensures timeStr == "" ==> r == Num(0)
  {
    if timeStr == "" then Num(0)
    else
      var nums := ParseParts(Split(timeStr, ':'));
      Seconds(nums[0], if |nums| > 1 then nums[1] else NaN, if |nums| > 2 then nums[2] else NaN)
  }

  /** A non-empty time without ':' has no minutes part, so it is NaN. */
  lemma TimeWithoutColon(timeStr: string)
    requires timeStr != "" && ':' !in timeStr
    ensures TimeToSeconds(timeStr) == NaN
  {
    SplitNoSep(timeStr, ':');
  }

  /** `parts.map(num => parseInt(num, 10))` */
  function ParseParts(parts: seq<string>): (nums: seq<JsNum>)
    ensures |nums| == |parts|
  {
    if parts == [] then [] else [ParseInt10(parts[0])] + ParseParts(parts[1..])
  }

  /** `(hours * 3600) + (minutes * 60) + (seconds || 0)`; a missing part is undefined,
      which multiplies to NaN like NaN itself. */
  function Seconds(hours: JsNum, minutes: JsNum, seconds: JsNum): JsNum
  {
    if hours.NaN? || minutes.NaN? then NaN
    else Num(hours.n * 3600 + minutes.n * 60 + (if seconds.Num? then seconds.n else 0))
  }

  /** The hours, minutes and seconds of a `dd:dd:dd` text. */
  function ClockValue(v: string): (seconds: nat)
    requires IsClockText(v)
    ensures seconds <= 99 * 3600 + 99 * 60 + 99
  {
    3600 * PairValue(v[0], v[1]) + 60 * PairValue(v[3], v[4]) + PairValue(v[6], v[7])
  }

  /** The value of two decimal digits. */
  function PairValue(tens: char, units: char): (p: nat)
    requires IsDecimalDigit(tens) && IsDecimalDigit(units)
    ensures p <= 99
  {
    10 * DecimalDigitValue(tens) + DecimalDigitValue(units)
  }

  lemma ClockSplit(v: string)
    requires IsClockText(v)
    ensures Split(v, ':') == [v[..2], v[3..5], v[6..]]
  {
    var h, m, s := v[..2], v[3..5], v[6..];
    assert v == h + [':'] + (m + [':'] + s);
    assert ':' !in h && ':' !in m && ':' !in s;
    SplitAtFirst(h, m + [':'] + s, ':');
    SplitAtFirst(m, s, ':');
    SplitNoSep(s, ':');
  }

  predicate TwoDigitText(d: string)
  {
    |d| == 2 && IsDecimalDigit(d[0]) && IsDecimalDigit(d[1])
  }

  /** Two decimal digits: their value, and what parseInt(…, 10) reads from them. */
  lemma TwoDigits(d: string)
    requires TwoDigitText(d)
    ensures ParseInt10(d) == Num(PairValue(d[0], d[1]))
  {
    assert DecimalValue(d[..1]) == DecimalDigitValue(d[0]) by {
      assert d[..1][..0] == [] && d[..1][0] == d[0];
    }
    assert d[..|d| - 1] == d[..1];
    assert d + [] == d;
    DigitsThenRest(d, [], false);
  }

  /** The numbers parseInt reads from the three parts of `HH:MM:SS`. */
  lemma ClockNumbers(v: string)
    requires IsClockText(v)
    ensures ParseParts(Split(v, ':')) ==
      [Num(PairValue(v[0], v[1])), Num(PairValue(v[3], v[4])), Num(PairValue(v[6], v[7]))]
  {
    var h, m, s := v[..2], v[3..5], v[6..];
    ClockSplit(v);
    assert h[0] == v[0] && h[1] == v[1] && m[0] == v[3] && m[1] == v[4] && s[0] == v[6] && s[1] == v[7];
    ThreePairs(h, m, s);
  }

  /** Three parts of two decimal digits each parse to their values. */
  lemma ThreePairs(h: string, m: string, s: string)
    requires TwoDigitText(h) && TwoDigitText(m) && TwoDigitText(s)
    ensures ParseParts([h, m, s]) ==
      [Num(PairValue(h[0], h[1])), Num(PairValue(m[0], m[1])), Num(PairValue(s[0], s[1]))]
  {
    TwoDigits(h);
    TwoDigits(m);
    TwoDigits(s);
    assert ParseParts([s]) == [ParseInt10(s)];
    assert ParseParts([m, s]) == [ParseInt10(m)] + ParseParts([s]);
    assert ParseParts([h, m, s]) == [ParseInt10(h)] + ParseParts([m, s]);
  }

  /** `HH:MM:SS` is worth 3600·H + 60·M + S seconds. */
  lemma ClockSeconds(v: string)
    requires IsClockText(v)
    ensures TimeToSeconds(v) == Num(ClockValue(v))
  {
    var h, m, s := PairValue(v[0], v[1]), PairValue(v[3], v[4]), PairValue(v[6], v[7]);
    ClockNumbers(v);
    NumbersSeconds(v, h, m, s);
    assert ClockValue(v) == 3600 * h + 60 * m + s;
  }

  /** A non-empty time whose three parts parse to h, m and s is worth 3600·h + 60·m + s. */
  lemma NumbersSeconds(v: string, h: int, m: int, s: int)
    requires v != "" && ParseParts(Split(v, ':')) == [Num(h), Num(m), Num(s)]
    ensures TimeToSeconds(v) == Num(3600 * h + 60 * m + s)
  {
    var nums := [Num(h), Num(m), Num(s)];
    PartsSeconds(v, nums);
    assert nums[0] == Num(h) && nums[1] == Num(m) && nums[2] == Num(s);
    SecondsOfNumbers(h, m, s);
  }

  /** Three numbers are worth 3600·h + 60·m + s seconds. */
  lemma SecondsOfNumbers(h: int, m: int, s: int)
    ensures Seconds(Num(h), Num(m), Num(s)) == Num(3600 * h + 60 * m + s)
  {
  }

  /** A non-empty time whose three parts parse to `nums` is worth `Seconds` of them. */
  lemma PartsSeconds(v: string, nums: seq<JsNum>)
    requires v != "" && ParseParts(Split(v, ':')) == nums && |nums| == 3
    ensures TimeToSeconds(v) == Seconds(nums[0], nums[1], nums[2])
  {
  }

  /** The entries the parser produces: every slot is a clock text, so every time is a
      number. */
  predicate Scheduled(playlist: seq<ScheduleEntry>)
  {
    forall k :: 0 <= k < |playlist| ==> IsClockText(playlist[k].streamingTime)
  }

  lemma ParsedIsScheduled(content: string)
    ensures Parse(content).Ok? ==> Parse(content).value != [] && Scheduled(Parse(content).value)
  {
    var lines := NonBlankLines(content);
    EntriesFromPairs(lines);
    forall k | 0 <= k < |Entries(lines)| ensures IsClockText(Entries(lines)[k].streamingTime) {
      var e := Entries(lines)[k];
      assert e in Entries(lines);
      var i :| 0 <= i < |lines| - 1 && StartsWith(lines[i], "#EXTINF") && Entry(lines[i], lines[i + 1]) == Some(e);
      EntryFields(lines[i], lines[i + 1]);
    }
  }

  /** The slot of a scheduled entry in seconds since midnight. */
  function SlotSeconds(e: ScheduleEntry): nat
    requires IsClockText(e.streamingTime)
  {
    ClockValue(e.streamingTime)
  }

  // ---------------------------------------------------------------------------
  // calculateVideoStartTime
  // ---------------------------------------------------------------------------

  /** `calculateVideoStartTime(video)` at time `now`: the offset the clock has reached in
      the slot, kept within [startTime, endTime] (`Math.max` first, then `Math.min`). A NaN
      slot makes the result NaN. */
  function StartOffset(e: ScheduleEntry, now: int): (r: JsNum)
    ensures r.Num? <==> TimeToSeconds(e.streamingTime).Num?
    ensures r.Num? ==> r.n <= e.endTime
  {
    match TimeToSeconds(e.streamingTime)
    case NaN => NaN
    case Num(slot) =>
      var start := e.startTime;
      var calculated := now - slot + start;
      var atLeastStart := if calculated > start then calculated else start;
      Num(if atLeastStart < e.endTime then atLeastStart else e.endTime)
  }

  /** For a scheduled entry the offset is a number, never past endTime, never before
      startTime unless the entry's own range is empty; inside the range it is exactly the
      time elapsed since the slot plus startTime. */
  lemma StartOffsetBounds(e: ScheduleEntry, now: int)
    requires IsClockText(e.streamingTime)
    ensures var calculated := now - SlotSeconds(e) + e.startTime;
      StartOffset(e, now).Num? &&
      StartOffset(e, now).n <= e.endTime &&
      (e.startTime <= e.endTime ==> e.startTime <= StartOffset(e, now).n) &&
      (e.startTime <= calculated <= e.endTime ==> StartOffset(e, now).n == calculated) &&
      (calculated < e.startTime ==> StartOffset(e, now).n == if e.startTime < e.endTime then e.startTime else e.endTime) &&
      (calculated > e.endTime ==> StartOffset(e, now).n == e.endTime)
  {
    ClockSeconds(e.streamingTime);
  }

  // ---------------------------------------------------------------------------
  // findNearestVideo
  // ---------------------------------------------------------------------------

  /** Index `a` comes before index `b` in the stably sorted copy: an earlier slot, or the
      same slot and an earlier place in the playlist. */
  predicate Before(keys: seq<int>, a: int, b: int)
    requires 0 <= a < |keys| && 0 <= b < |keys|
  {
    keys[a] < keys[b] || (keys[a] == keys[b] && a < b)
  }

  predicate SortedBy(keys: seq<int>, s: seq<nat>)
  {
    (forall p :: 0 <= p < |s| ==> s[p] < |keys|) &&
    forall p, q :: 0 <= p < q < |s| ==> Before(keys, s[p], s[q])
  }

  /** Inserting index x into a sorted copy. */
  function InsertIndex(keys: seq<int>, x: nat, s: seq<nat>): (r: seq<nat>)
    requires x < |keys| && SortedBy(keys, s) && x !in s
    ensures SortedBy(keys, r) && |r| == |s| + 1
    ensures forall y :: y in r <==> y == x || y in s
    decreases |s|
  {
    if s == [] || Before(keys, x, s[0]) then [x] + s
    else
      var tail := InsertIndex(keys, x, s[1..]);
      assert Before(keys, s[0], x);
      forall q | 0 <= q < |tail| ensures Before(keys, s[0], tail[q]) {
        if tail[q] != x {
          assert tail[q] in s[1..];
          var m :| 0 <= m < |s[1..]| && s[1..][m] == tail[q];
          assert s[m + 1] == tail[q];
        }
      }
      [s[0]] + tail
  }

  /** `[...playlist].sort((a, b) => timeA - timeB)` as the playlist positions in sorted
      order; Array.prototype.sort is stable, so equal slots keep their playlist order. */
  function SortedIndices(keys: seq<int>, k: nat): (r: seq<nat>)
    requires k <= |keys|
    ensures SortedBy(keys, r) && |r| == k
    ensures forall y: nat :: y in r <==> y < k
  {
    if k == 0 then []
    else
      var r := InsertIndex(keys, k - 1, SortedIndices(keys, k - 1));
      assert forall y :: y in r <==> y == k - 1 || y in SortedIndices(keys, k - 1);
      r
  }

  function Keys(playlist: seq<ScheduleEntry>): (keys: seq<int>)
    requires Scheduled(playlist)
    ensures |keys| == |playlist|
    ensures forall k :: 0 <= k < |playlist| ==> keys[k] == SlotSeconds(playlist[k])
  {
    seq(|playlist|, k requires 0 <= k < |playlist| && Scheduled(playlist) => SlotSeconds(playlist[k]))
  }

  /** What the selection promises: with some slot already reached, the reached entry with
      the latest slot and, among those, the last in the playlist; with none reached, the
      entry with the earliest slot and, among those, the first in the playlist. */
  predicate IsNearest(keys: seq<int>, now: int, i: int)
  {
    0 <= i < |keys| &&
    if exists k :: 0 <= k < |keys| && keys[k] <= now then
      keys[i] <= now && forall k :: 0 <= k < |keys| && keys[k] <= now ==> k == i || Before(keys, k, i)
    else
      forall k :: 0 <= k < |keys| ==> k == i || Before(keys, i, k)
  }

  /** At most one entry is the nearest. */
  lemma NearestUnique(keys: seq<int>, now: int, i: int, j: int)
    requires IsNearest(keys, now, i) && IsNearest(keys, now, j)
    ensures i == j
  {
    BeforeAsymmetric(keys, i, j);
  }

  /** Two different entries are never each before the other. */
  lemma BeforeAsymmetric(keys: seq<int>, a: int, b: int)
    ensures 0 <= a < |keys| && 0 <= b < |keys| && a != b ==> !(Before(keys, a, b) && Before(keys, b, a))
  {
  }

  /** `findNearestVideo(playlist)` at time `now`. The player looks the chosen object up in
      its own playlist by identity, which gives back its position, so the model works with
      positions. */
  method FindNearestVideo(playlist: seq<ScheduleEntry>, now: int) returns (r: Result<nat>)
    requires Scheduled(playlist)
    ensures playlist == [] <==> r.Err?
    ensures r.Err? ==> r.message == "Empty playlist"
    ensures r.Ok? ==> IsNearest(Keys(playlist), now, r.value)
  {
    if |playlist| == 0 {
      return Err("Empty playlist");
    }
    var keys := Keys(playlist);
    var sorted := SortedIndices(keys, |playlist|);
    var selected := SelectReached(keys, sorted, now);
    if selected.None? {
      var first := sorted[0];
      forall k | 0 <= k < |keys| ensures (k == first || Before(keys, first, k)) && keys[k] > now {
        assert k in sorted;
        var p :| 0 <= p < |sorted| && sorted[p] == k;
        assert p == 0 || Before(keys, sorted[0], sorted[p]);
      }
      selected := Some(first);
    }
    return Ok(selected.value);
  }

  /** The loop over the sorted copy: keep the last entry whose slot has been reached, and
      stop at the first that has not. */
  method SelectReached(keys: seq<int>, sorted: seq<nat>, now: int) returns (selected: Option<nat>)
    requires SortedBy(keys, sorted) && |sorted| == |keys|
    requires forall y: nat :: y in sorted <==> y < |keys|
    ensures selected.Some? ==> IsNearest(keys, now, selected.value)
    ensures selected.None? ==> |keys| == 0 || keys[sorted[0]] > now
  {
    selected := None;
    var j := 0;
    while j < |sorted|
      invariant 0 <= j <= |sorted|
      invariant forall p :: 0 <= p < j ==> keys[sorted[p]] <= now
      invariant selected == if j == 0 then None else Some(sorted[j - 1])
    {
      if keys[sorted[j]] <= now {
        selected := Some(sorted[j]);
      } else {
        break;
      }
      j := j + 1;
    }
    if selected.Some? {
      var i := selected.value;
      assert keys[i] <= now;
      forall p | j <= p < |sorted| ensures keys[sorted[p]] > now {
        assert p == j || Before(keys, sorted[j], sorted[p]);
      }
      forall k | 0 <= k < |keys| && keys[k] <= now ensures k == i || Before(keys, k, i) {
        assert k in sorted;
        var p :| 0 <= p < |sorted| && sorted[p] == k;
        if p < j - 1 {
          assert Before(keys, sorted[p], sorted[j - 1]);
        }
      }
    }
  }

  // ---------------------------------------------------------------------------
  // The player's state
  // ---------------------------------------------------------------------------

  /** A `loadVideoById` call: the video and its start offset. */
  datatype Load = Load(videoId: string, startSeconds: JsNum)

  /** The fields the schedule logic updates: the playlist, the current entry, whether the
      end-of-video check interval runs, whether playback was stopped, the last video loaded,
      and the message shown when loading failed. */
  datatype Schedule = Schedule(
    playlist: seq<ScheduleEntry>,
    currentIndex: int,
    checking: bool,
    stopped: bool,
    loaded: Option<Load>,
    error: Option<string>)

  /** loadNextVideo: load the current entry at the offset the clock implies. */
  function NextLoaded(s: Schedule, now: int): Schedule
  {
    if 0 <= s.currentIndex < |s.playlist| then
      var next := s.playlist[s.currentIndex];
      s.(loaded := Some(Load(next.videoId, StartOffset(next, now))))
    else s
  }

  /** handleVideoEnd: stop the check, then go on to the next entry or stop after the
      last. */
  function VideoEnded(s: Schedule, now: int): (r: Schedule)
    ensures !r.checking && r.playlist == s.playlist && r.error == s.error
    ensures r.stopped <==> s.stopped || s.currentIndex >= |s.playlist| - 1
    ensures r.currentIndex == if s.currentIndex < |s.playlist| - 1 then s.currentIndex + 1 else s.currentIndex
  {
    var s1 := s.(checking := false);
    if s1.currentIndex < |s1.playlist| - 1 then NextLoaded(s1.(currentIndex := s1.currentIndex + 1), now)
    else s1.(stopped := true)
  }

  /** The index stays a valid position of a non-empty playlist. */
  predicate IndexInRange(s: Schedule)
  {
    s.playlist != [] ==> 0 <= s.currentIndex < |s.playlist|
  }

  /** handleVideoEnd moves one entry on, loading it at its clock offset, except after the
      last entry, where it stops and stays; the index stays in range. */
  lemma VideoEndedAdvances(s: Schedule, now: int)
    requires IndexInRange(s) && s.playlist != []
    ensures var s' := VideoEnded(s, now);
      IndexInRange(s') && !s'.checking && s'.playlist == s.playlist &&
      (s.currentIndex < |s.playlist| - 1 ==>
        s'.currentIndex == s.currentIndex + 1 &&
        s'.loaded == Some(Load(s.playlist[s'.currentIndex].videoId, StartOffset(s.playlist[s'.currentIndex], now)))) &&
      (s.currentIndex == |s.playlist| - 1 ==> s'.currentIndex == s.currentIndex && s'.stopped)
  {
  }

  /** k videos ending one after another. */
  function EndedTimes(s: Schedule, now: int, k: nat): Schedule
  {
    if k == 0 then s else VideoEnded(EndedTimes(s, now, k - 1), now)
  }

  /** One end from index i (or the last entry) moves to i + 1, or stays on the last entry. */
  lemma EndedIndexStep(p: Schedule, now: int, i: nat)
    requires p.playlist != []
    requires p.currentIndex == if i < |p.playlist| then i else |p.playlist| - 1
    ensures var r := VideoEnded(p, now);
      IndexInRange(r) && r.playlist == p.playlist &&
      r.currentIndex == if i + 1 < |p.playlist| then i + 1 else |p.playlist| - 1
  {
  }

  /** `r` is where `k` ends take the player from `s`: k entries further on, or the last entry. */
  predicate Advanced(s: Schedule, r: Schedule, k: nat)
  {
    IndexInRange(r) && r.playlist == s.playlist &&
    r.currentIndex == if s.currentIndex + k < |s.playlist| then s.currentIndex + k else |s.playlist| - 1
  }

  lemma EndedTimesStep(s: Schedule, now: int, k: nat)
    requires k > 0 && s.playlist != [] && 0 <= s.currentIndex
    requires Advanced(s, EndedTimes(s, now, k - 1), k - 1)
    ensures Advanced(s, EndedTimes(s, now, k), k)
  {
    var p := EndedTimes(s, now, k - 1);
    assert EndedTimes(s, now, k) == VideoEnded(p, now);
    EndedIndexStep(p, now, s.currentIndex + k - 1);
  }

  /** After k ends the player is k entries further on, or on the last entry. */
  lemma {:induction false} EndedTimesIndex(s: Schedule, now: int, k: nat)
    requires IndexInRange(s) && s.playlist != []
    ensures Advanced(s, EndedTimes(s, now, k), k)
    decreases k
  {
    if k == 0 {
      assert EndedTimes(s, now, 0) == s;
    } else {
      EndedTimesIndex(s, now, k - 1);
      EndedTimesStep(s, now, k);
    }
  }

  // ---------------------------------------------------------------------------
  // init
  // ---------------------------------------------------------------------------

  const BothFailedMessage: string := "Failed to load both current and backup playlists"

  /** `loadPlaylist(filePath)` given what fetching the file gave: None for a failed
      request, otherwise the body; a blank body and a parse error also give null. */
  function LoadPlaylist(fetched: Option<string>): (r: Option<seq<ScheduleEntry>>)
    ensures fetched.None? || Trim(fetched.value) == "" ==> r.None?
    ensures r.Some? ==> r.value != []
  {
    match fetched
    case None => None
    case Some(content) =>
      if Trim(content) == "" then None
      else match Parse(content)
        case Err(_) => None
        case Ok(entries) => Some(entries)
  }

  /** What `loadPlaylist` can resolve to: null, or a non-empty scheduled playlist. */
  predicate Loadable(loaded: Option<seq<ScheduleEntry>>)
  {
    loaded.Some? ==> loaded.value != [] && Scheduled(loaded.value)
  }

  /** A loaded playlist is never empty and is always scheduled; it is exactly what the
      parser made of a non-blank text. */
  lemma LoadPlaylistScheduled(fetched: Option<string>)
    ensures Loadable(LoadPlaylist(fetched))
    ensures LoadPlaylist(fetched).Some? <==>
      fetched.Some? && Trim(fetched.value) != "" && Parse(fetched.value).Ok?
    ensures LoadPlaylist(fetched).Some? ==> LoadPlaylist(fetched).value == Parse(fetched.value).value
  {
    if fetched.Some? {
      ParsedIsScheduled(fetched.value);
    }
  }

  /** The player as constructed, before init has finished. */
  function Constructed(): Schedule
  {
    Schedule([], 0, false, false, None, None)
  }

  /** The error message init shows, given what loading today's and the backup playlist
      gave. */
  function InitError(todayLoaded: Option<seq<ScheduleEntry>>, backupLoaded: Option<seq<ScheduleEntry>>): Option<string>
  {
    if todayLoaded.None? && backupLoaded.None? then Some(BothFailedMessage) else None
  }

  /** The playlist init settles on. */
  function ChosenPlaylist(todayLoaded: Option<seq<ScheduleEntry>>, backupLoaded: Option<seq<ScheduleEntry>>): (r: seq<ScheduleEntry>)
    ensures todayLoaded.Some? ==> r == todayLoaded.value
    ensures todayLoaded.None? ==> r == if backupLoaded.Some? then backupLoaded.value else []
    ensures InitError(todayLoaded, backupLoaded).Some? ==> r == []
  {
    match todayLoaded
    case Some(p) => p
    case None => match backupLoaded case Some(p) => p case None => []
  }

  /** Today's playlist wins whenever it loads, whatever the backup holds; the backup is
      the fallback; init fails exactly when neither loads. */
  lemma FallbackOrder(todayLoaded: Option<seq<ScheduleEntry>>, backupLoaded: Option<seq<ScheduleEntry>>,
                      otherBackup: Option<seq<ScheduleEntry>>)
    ensures todayLoaded.Some? ==>
      ChosenPlaylist(todayLoaded, backupLoaded) == todayLoaded.value &&
      ChosenPlaylist(todayLoaded, backupLoaded) == ChosenPlaylist(todayLoaded, otherBackup) &&
      InitError(todayLoaded, backupLoaded).None?
    ensures todayLoaded.None? && backupLoaded.Some? ==>
      ChosenPlaylist(todayLoaded, backupLoaded) == backupLoaded.value && InitError(todayLoaded, backupLoaded).None?
    ensures InitError(todayLoaded, backupLoaded).Some? <==> todayLoaded.None? && backupLoaded.None?
  {
  }

  /** The playlist init settles on is never empty and always scheduled, so init's
      empty-playlist check never fires. */
  lemma ChosenScheduled(todayLoaded: Option<seq<ScheduleEntry>>, backupLoaded: Option<seq<ScheduleEntry>>)
    requires Loadable(todayLoaded) && Loadable(backupLoaded)
    requires InitError(todayLoaded, backupLoaded).None?
    ensures var p := ChosenPlaylist(todayLoaded, backupLoaded);
      p != [] && Scheduled(p)
  {
  }

  class ScheduledPlayer {
    var playlist: seq<ScheduleEntry>
    var currentIndex: int
    var checking: bool
    var stopped: bool
    var loaded: Option<Load>
    var error: Option<string>

    function State(): Schedule
      reads this
    {
      Schedule(playlist, currentIndex, checking, stopped, loaded, error)
    }

    constructor ()
      ensures State() == Constructed()
    {
      playlist, currentIndex, checking, stopped, loaded, error := [], 0, false, false, None, None;
    }

    /** `init()` at time `now`, given what `loadPlaylist` resolved to for today's file
      `data/<dd-mm-yyyy>.m3u` and, when that is null, for the backup file
      `data/emergency/backup.m3u`: on success the playlist is set and
      the current entry is the nearest one; on failure the message is kept. */
    method Init(todayLoaded: Option<seq<ScheduleEntry>>, backupLoaded: Option<seq<ScheduleEntry>>, now: int)
      requires Loadable(todayLoaded) && Loadable(backupLoaded)
      modifies this
      ensures error == InitError(todayLoaded, backupLoaded)
      ensures error.None? ==>
        playlist == ChosenPlaylist(todayLoaded, backupLoaded) && Scheduled(playlist) &&
        IsNearest(Keys(playlist), now, currentIndex)
      ensures error.Some? ==> playlist == old(playlist) && currentIndex == old(currentIndex)
      ensures IndexInRange(State()) || error.Some?
      ensures checking == old(checking) && stopped == old(stopped) && loaded == old(loaded)
    {
      var p := todayLoaded;
      if p.None? {
        p := backupLoaded;
        if p.None? {
          error := Some(BothFailedMessage);
          return;
        }
      }
      playlist := p.value;
      var r := FindNearestVideo(playlist, now);
      currentIndex := r.value;
      error := None;
    }

    /** loadNextVideo */
    method LoadNextVideo(now: int)
      modifies this
      ensures State() == NextLoaded(old(State()), now)
    {
      if 0 <= currentIndex < |playlist| {
        var next := playlist[currentIndex];
        loaded := Some(Load(next.videoId, StartOffset(next, now)));
      }
    }

    /** startTimeCheck, run by onPlayerReady and when the player reports PLAYING: the
        end-of-video check interval is (re)started. Its ticks compare floating-point times
        and are not modelled; the end of a video is the HandleVideoEnd event. */
    method StartTimeCheck()
      modifies this
      ensures State() == old(State()).(checking := true)
    {
      checking := true;
    }

    /** handleVideoEnd */
    method HandleVideoEnd(now: int)
      modifies this
      ensures State() == VideoEnded(old(State()), now)
    {
      checking := false;
      ghost var s1 := State();
      if currentIndex < |playlist| - 1 {
        currentIndex := currentIndex + 1;
        assert State() == s1.(currentIndex := s1.currentIndex + 1);
        LoadNextVideo(now);
      } else {
        stopped := true;
        assert State() == s1.(stopped := true);
      }
    }
  }
}
