/**
 * ymt/channelInput.js: direct entry of a channel number. Digits collect in a buffer of at
 * most four characters; an exact match arms a 2000 ms commit that reports the channel's
 * index, a buffer that no channel number starts with is dropped at once, and every display
 * call restarts a single 2000 ms hide timer. Timers are not run here: the pending
 * commit and the armed hide timer are state, and `CommitFired`/`HideFired` are the events
 * of their expiry.
 */
module ChannelInput {
  import opened JsBuiltins
  import opened JsArrays
  import opened M3uParser

  const NotAvailable: string := "This no. not available for TV"
  const MaxDigits: nat := 4
  const CommitDelayMs: nat := 2000
  const HideDelayMs: nat := 2000

  /** The module's variables and the number display element. `commit` is the index the
      armed commit timer will report; `attached` says the display element is in the
      document, where `getElementById` finds it. */
  datatype Tuner = Tuner(
    buffer: string,
    commit: Option<nat>,
    hideArmed: bool,
    text: string,
    shown: bool,
    attached: bool)

  /** `ch.channelNo === channelNumber`: both are the same number (NaN equals nothing, and
      a missing number is null). */
  predicate NumberIs(c: Channel, x: JsNum)
  {
    c.channelNo.Some? && c.channelNo.value.Num? && x.Num? && c.channelNo.value.n == x.n
  }

  /** `channels.findIndex(ch => ch.channelNo === channelNumber)`: the first channel with
      that number, or -1. */
  function IndexOfNumber(channels: seq<Channel>, x: JsNum): int
  {
    FindIndex(channels, (c: Channel) => NumberIs(c, x))
  }

  /** `ch.channelNo?.toString().startsWith(numberInput)`. */
  predicate NumberStartsWith(c: Channel, prefix: string)
  {
    c.channelNo.Some? && StartsWith(NumToString(c.channelNo.value), prefix)
  }

  predicate SomeNumberStartsWith(channels: seq<Channel>, prefix: string)
  {
    exists i :: 0 <= i < |channels| && NumberStartsWith(channels[i], prefix)
  }

  /** showNumberInput(message): create the display if the document lacks it (it is only
      attached under a `.video-section`), show `message` or else the buffer, and replace
      the hide timer. */
  function Show(t: Tuner, message: string, videoSection: bool): (r: Tuner)
    ensures r.hideArmed && r.shown && r.buffer == t.buffer && r.commit == t.commit
    ensures r.text == if message != "" then message else t.buffer
  {
    t.(attached := t.attached || videoSection,
       text := if message != "" then message else t.buffer,
       shown := true,
       hideArmed := true)
  }

  /** handleNumberInput(number, allChannels, onChannelFound). */
  function Digit(t: Tuner, number: string, channels: seq<Channel>, videoSection: bool): (r: Tuner)
    ensures |t.buffer| >= MaxDigits ==> r == t
    ensures r.buffer == t.buffer + number || r.buffer == "" || r == t
    ensures r != t ==> r.shown && r.hideArmed
    ensures r.commit != t.commit ==>
      r.commit.Some? && r.commit.value < |channels| && NumberIs(channels[r.commit.value], ParseInt(t.buffer + number))
  {
    if |t.buffer| >= MaxDigits then t
    else
      var b := t.buffer + number;
      var k := IndexOfNumber(channels, ParseInt(b));
      if k >= 0 then Show(t.(buffer := b), b, videoSection).(commit := Some(k))
      else if !SomeNumberStartsWith(channels, b) then Show(t.(buffer := b), NotAvailable, videoSection).(buffer := "")
      else Show(t.(buffer := b), b, videoSection)
  }

  /** The commit timer's callback: report the index, then empty the buffer. */
  function CommitFired(t: Tuner): (r: (Tuner, nat))
    requires t.commit.Some?
    ensures r.1 == t.commit.value && r.0.buffer == "" && r.0.commit.None?
  {
    (t.(commit := None, buffer := ""), t.commit.value)
  }

  /** The hide timer's callback, hideNumberInput: hide the display and empty the buffer,
      but only when the display is in the document. */
  function HideFired(t: Tuner): Tuner
  {
    if t.attached then t.(hideArmed := false, shown := false, buffer := "")
    else t.(hideArmed := false)
  }

  // ---------------------------------------------------------------------------
  // Properties of one digit
  // ---------------------------------------------------------------------------

  /** A digit arriving with four characters buffered is ignored entirely. */
  lemma DigitAtLimit(t: Tuner, number: string, channels: seq<Channel>, videoSection: bool)
    requires |t.buffer| >= MaxDigits
    ensures Digit(t, number, channels, videoSection) == t
  {
  }

  /** One-character keys never take the buffer beyond four characters. */
  lemma DigitBound(t: Tuner, number: string, channels: seq<Channel>, videoSection: bool)
    requires |t.buffer| <= MaxDigits && |number| == 1
    ensures |Digit(t, number, channels, videoSection).buffer| <= MaxDigits
  {
  }

  /** An exact match shows the buffer and arms a commit for the first channel whose
      number is the buffer's parseInt value, replacing any earlier commit. */
  lemma DigitExact(t: Tuner, number: string, channels: seq<Channel>, videoSection: bool, i: nat)
    requires |t.buffer| < MaxDigits
    requires i < |channels| && NumberIs(channels[i], ParseInt(t.buffer + number))
    ensures var r := Digit(t, number, channels, videoSection);
      var b := t.buffer + number;
      r.buffer == b && r.text == b && r.shown && r.hideArmed &&
      r.commit.Some? && r.commit.value <= i && NumberIs(channels[r.commit.value], ParseInt(b)) &&
      forall j :: 0 <= j < r.commit.value ==> !NumberIs(channels[j], ParseInt(b))
  {
    var b := t.buffer + number;
    var k := IndexOfNumber(channels, ParseInt(b));
    assert 0 <= k <= i;
    assert Digit(t, number, channels, videoSection) == Show(t.(buffer := b), b, videoSection).(commit := Some(k));
  }

  /** No exact match and no channel number that starts with the buffer: the message is
      shown and the buffer is emptied at once; an earlier commit stays armed. */
  lemma DigitNoMatch(t: Tuner, number: string, channels: seq<Channel>, videoSection: bool)
    requires |t.buffer| < MaxDigits
    requires forall j :: 0 <= j < |channels| ==> !NumberIs(channels[j], ParseInt(t.buffer + number))
    requires !SomeNumberStartsWith(channels, t.buffer + number)
    ensures var r := Digit(t, number, channels, videoSection);
      r.buffer == "" && r.text == NotAvailable && r.commit == t.commit && r.hideArmed
  {
  }

  /** No exact match but a channel number that starts with the buffer: the buffer is kept
      and shown; an earlier commit stays armed. */
  lemma DigitPrefix(t: Tuner, number: string, channels: seq<Channel>, videoSection: bool)
    requires |t.buffer| < MaxDigits
    requires forall j :: 0 <= j < |channels| ==> !NumberIs(channels[j], ParseInt(t.buffer + number))
    requires SomeNumberStartsWith(channels, t.buffer + number)
    ensures var r := Digit(t, number, channels, videoSection);
      r.buffer == t.buffer + number && r.text == r.buffer && r.commit == t.commit
  {
  }

  /** The armed commit always names a channel of the list it was armed with. */
  lemma DigitCommitInRange(t: Tuner, number: string, channels: seq<Channel>, videoSection: bool)
    requires t.commit.Some? ==> t.commit.value < |channels|
    ensures var r := Digit(t, number, channels, videoSection);
      r.commit.Some? ==> r.commit.value < |channels|
  {
  }

  // ---------------------------------------------------------------------------
  // Typing a whole number
  // ---------------------------------------------------------------------------

  /** The state after typing the characters of `digits` one key at a time, with no timer
      expiring in between. */
  function TypeDigits(t: Tuner, digits: string, channels: seq<Channel>, videoSection: bool): Tuner
    decreases |digits|
  {
    if digits == [] then t
    else Digit(TypeDigits(t, digits[..|digits| - 1], channels, videoSection),
               [digits[|digits| - 1]], channels, videoSection)
  }

  /** A digit that extends the buffer to a prefix of some listed number is kept. */
  lemma DigitKeepsPrefix(t: Tuner, c: char, channels: seq<Channel>, videoSection: bool, i: nat)
    requires |t.buffer| < MaxDigits && i < |channels|
    requires NumberStartsWith(channels[i], t.buffer + [c])
    ensures Digit(t, [c], channels, videoSection).buffer == t.buffer + [c]
  {
  }

  lemma TypeDigitsStep(t: Tuner, p: string, channels: seq<Channel>, videoSection: bool)
    requires p != []
    ensures TypeDigits(t, p, channels, videoSection) ==
      Digit(TypeDigits(t, p[..|p| - 1], channels, videoSection), [p[|p| - 1]], channels, videoSection)
  {
  }

  /** Typing the decimal text of a listed channel number (up to four digits) from an
      empty buffer leaves that text in the buffer and arms a commit for the first channel
      with that number, whatever other numbers share its prefixes. */
  lemma TypingChannelNumber(t: Tuner, channels: seq<Channel>, videoSection: bool, i: nat, n: nat)
    requires t.buffer == "" && i < |channels| && channels[i].channelNo == Some(Num(n))
    requires |NatToString(n)| <= MaxDigits
    ensures var r := TypeDigits(t, NatToString(n), channels, videoSection);
      r.buffer == NatToString(n) && r.commit.Some? && r.commit.value <= i &&
      NumberIs(channels[r.commit.value], Num(n))
  {
    var s := NatToString(n);
    var m := |s| - 1;
    assert s[..|s|] == s;
    TypingPrefix(t, channels, videoSection, s, i, m);
    var before := TypeDigits(t, s[..m], channels, videoSection);
    assert before.buffer + [s[m]] == s;
    ParseIntOfNatToString(n, true);
    DigitExact(before, [s[m]], channels, videoSection, i);
    TypeDigitsStep(t, s, channels, videoSection);
  }

  /** Each prefix of the number's text is kept as typed. */
  lemma {:induction false} TypingPrefix(t: Tuner, channels: seq<Channel>, videoSection: bool, s: string, i: nat, m: nat)
    requires t.buffer == "" && i < |channels| && channels[i].channelNo.Some?
    requires s == NumToString(channels[i].channelNo.value)
    requires m <= |s| <= MaxDigits
    ensures TypeDigits(t, s[..m], channels, videoSection).buffer == s[..m]
  {
    if m > 0 {
      var p := s[..m];
      assert p[..|p| - 1] == s[..m - 1];
      assert p == s[..m - 1] + [p[|p| - 1]];
      assert NumberStartsWith(channels[i], p);
      TypingPrefix(t, channels, videoSection, s, i, m - 1);
      var before := TypeDigits(t, s[..m - 1], channels, videoSection);
      DigitKeepsPrefix(before, p[|p| - 1], channels, videoSection, i);
      TypeDigitsStep(t, p, channels, videoSection);
    } else {
      assert s[..0] == [];
    }
  }

  // ---------------------------------------------------------------------------
  // The module's state
  // ---------------------------------------------------------------------------

  class NumberTuner {
    var buffer: string
    var commit: Option<nat>
    var hideArmed: bool
    var text: string
    var shown: bool
    var attached: bool
    /** The page has a `.video-section` to hold the display. */
    const videoSection: bool

    function State(): Tuner
      reads this
    {
      Tuner(buffer, commit, hideArmed, text, shown, attached)
    }

    constructor (hasVideoSection: bool)
      ensures State() == Tuner("", None, false, "", false, false)
      ensures videoSection == hasVideoSection
    {
      buffer, commit, hideArmed, text, shown, attached := "", None, false, "", false, false;
      videoSection := hasVideoSection;
    }

    /** showNumberInput(message). */
    method ShowNumberInput(message: string)
      modifies this
      ensures State() == Show(old(State()), message, videoSection)
    {
      if !attached {
        attached := videoSection;
      }
      text := if message != "" then message else buffer;
      shown := true;
      hideArmed := true;
    }

    /** hideNumberInput(), run when the hide timer expires. */
    method HideNumberInput()
      modifies this
      ensures State() == HideFired(old(State()))
    {
      hideArmed := false;
      if attached {
        shown := false;
        buffer := "";
      }
    }

    /** handleNumberInput(number, allChannels, onChannelFound). */
    method HandleNumberInput(number: string, allChannels: seq<Channel>)
      modifies this
      ensures State() == Digit(old(State()), number, allChannels, videoSection)
    {
      if |buffer| >= MaxDigits {
        return;
      }
      buffer := buffer + number;
      var channelNumber := ParseInt(buffer);
      var found := IndexOfNumber(allChannels, channelNumber);
      if found >= 0 {
        ShowNumberInput(buffer);
        commit := Some(found);
      } else {
        var possible := SomeNumberStartsWith(allChannels, buffer);
        if !possible {
          ShowNumberInput(NotAvailable);
          buffer := "";
        } else {
          ShowNumberInput(buffer);
        }
      }
    }

    /** The commit timer's callback: the index handed to onChannelFound. */
    method CommitFires() returns (index: nat)
      requires commit.Some?
      modifies this
      ensures (State(), index) == CommitFired(old(State()))
    {
      index := commit.value;
      commit := None;
      buffer := "";
    }
  }
}
