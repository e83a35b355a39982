/**
 * Models of the JavaScript built-ins the IPTV pages rely on: String.prototype.trim,
 * split, startsWith, includes, toLowerCase and padStart, Number.prototype.toString on
 * integers, and the global parseInt. Strings are sequences of characters; numbers that
 * come out of text are integers or NaN.
 */
module JsBuiltins {

  datatype Option<+T> = None | Some(value: T)

  datatype Result<+T> = Ok(value: T) | Err(message: string)

  /** A JavaScript number as these pages obtain it from text: an integer or NaN. */
  datatype JsNum = NaN | Num(n: int)

  // ---------------------------------------------------------------------------
  // Characters
  // ---------------------------------------------------------------------------

  /** The code points String.prototype.trim removes: ECMAScript WhiteSpace and LineTerminator. */
  predicate IsJsSpace(c: char)
  {
    c == '\t' || c == '\n' || c == '\U{0B}' || c == '\U{0C}' || c == '\r' || c == ' ' ||
    c == '\U{A0}' || c == '\U{1680}' || ('\U{2000}' <= c <= '\U{200A}') ||
    c == '\U{2028}' || c == '\U{2029}' || c == '\U{202F}' || c == '\U{205F}' ||
    c == '\U{3000}' || c == '\U{FEFF}'
  }

  /** The characters a regular-expression `.` does not match (no `s` flag). */
  predicate IsLineTerminator(c: char)
  {
    c == '\n' || c == '\r' || c == '\U{2028}' || c == '\U{2029}'
  }

  predicate IsDecimalDigit(c: char)
  {
    '0' <= c <= '9'
  }

  predicate AllDecimalDigits(s: string)
  {
    forall i :: 0 <= i < |s| ==> IsDecimalDigit(s[i])
  }

  function DigitChar(d: nat): (c: char)
    requires d < 10
    ensures IsDecimalDigit(c)
  {
    (('0' as int) + d) as char
  }

  function DecimalDigitValue(c: char): (d: nat)
    requires IsDecimalDigit(c)
    ensures d < 10 && DigitChar(d) == c
  {
    (c as int) - ('0' as int)
  }

  // ---------------------------------------------------------------------------
  // trim
  // ---------------------------------------------------------------------------

  /** The part of `s` after its leading white space. */
  function TrimStart(s: string): (r: string)
    ensures |r| <= |s| && r == s[|s| - |r|..]
    ensures forall k :: 0 <= k < |s| - |r| ==> IsJsSpace(s[k])
    ensures r == [] || !IsJsSpace(r[0])
  {
    if s != [] && IsJsSpace(s[0]) then TrimStart(s[1..]) else s
  }

  /** The part of `s` before its trailing white space. */
  function TrimEnd(s: string): (r: string)
    ensures |r| <= |s| && r == s[..|r|]
    ensures forall k :: |r| <= k < |s| ==> IsJsSpace(s[k])
    ensures r == [] || !IsJsSpace(r[|r| - 1])
  {
    if s != [] && IsJsSpace(s[|s| - 1]) then TrimEnd(s[..|s| - 1]) else s
  }

  /** String.prototype.trim. */
  function Trim(s: string): (r: string)
    ensures IsTrimmed(r) && |r| <= |s|
  {
    TrimIsTrimmed(TrimStart(s));
    TrimEnd(TrimStart(s))
  }

  /** trim gives the empty string exactly for a text of white space only. */
  lemma TrimEmpty(s: string)
    ensures Trim(s) == [] <==> forall k :: 0 <= k < |s| ==> IsJsSpace(s[k])
  {
  }

  /** A trimmed string neither starts nor ends with white space. */
  predicate IsTrimmed(s: string)
  {
    s == [] || (!IsJsSpace(s[0]) && !IsJsSpace(s[|s| - 1]))
  }

  lemma TrimStartOfTrimmed(s: string)
    requires IsTrimmed(s)
    ensures TrimStart(s) == s
  {
  }

  lemma TrimEndOfTrimmed(s: string)
    requires IsTrimmed(s)
    ensures TrimEnd(s) == s
  {
  }

  /** trim() gives a string without surrounding white space, and trimming again changes
      nothing. */
  lemma TrimProperties(s: string)
    ensures IsTrimmed(Trim(s))
    ensures Trim(Trim(s)) == Trim(s)
  {
    TrimIsTrimmed(TrimStart(s));
    TrimIdempotent(s);
  }

  /** trim() returns a piece of its argument: a prefix of the part after the leading
      white space. */
  lemma TrimInside(s: string)
    ensures |TrimStart(s)| <= |s| && |Trim(s)| <= |TrimStart(s)|
    ensures Trim(s) == s[|s| - |TrimStart(s)|..][..|Trim(s)|]
  {
    var a := TrimStart(s);
    var r := TrimEnd(a);
    assert Trim(s) == r;
  }

  lemma TrimIdempotent(s: string)
    ensures Trim(Trim(s)) == Trim(s)
  {
    var r := Trim(s);
    TrimIsTrimmed(TrimStart(s));
    TrimStartOfTrimmed(r);
    TrimEndOfTrimmed(r);
  }

  /** A string ending in a non-space character keeps at least that character when trimmed. */
  lemma TrimNonEmpty(s: string)
    requires s != [] && !IsJsSpace(s[|s| - 1])
    ensures Trim(s) != []
  {
    var a := TrimStart(s);
    assert a != [] && a[|a| - 1] == s[|s| - 1];
  }

  lemma TrimIsTrimmed(a: string)
    requires a == [] || !IsJsSpace(a[0])
    ensures IsTrimmed(TrimEnd(a))
  {
    var r := TrimEnd(a);
    if r != [] {
      assert r[0] == a[0];
    }
  }

  // ---------------------------------------------------------------------------
  // startsWith, includes, toLowerCase
  // ---------------------------------------------------------------------------

  predicate StartsWith(s: string, prefix: string)
  {
    |prefix| <= |s| && s[..|prefix|] == prefix
  }

  /** String.prototype.includes, as a scan over the suffixes of `s`. */
  predicate Includes(s: string, part: string)
    decreases |s|
  {
    StartsWith(s, part) || (s != [] && Includes(s[1..], part))
  }

  /** `part` occurs in `s` exactly when it starts at some position of `s`. */
  lemma {:induction false} IncludesAt(s: string, part: string, i: nat)
    requires i + |part| <= |s| && s[i..i + |part|] == part
    ensures Includes(s, part)
    decreases i
  {
    if i == 0 {
      assert s[..|part|] == part;
    } else {
      assert s[1..][i - 1..i - 1 + |part|] == s[i..i + |part|];
      IncludesAt(s[1..], part, i - 1);
    }
  }

  lemma {:induction false} IncludesWitness(s: string, part: string) returns (i: nat)
    requires Includes(s, part)
    ensures i + |part| <= |s| && s[i..i + |part|] == part
    decreases |s|
  {
    if StartsWith(s, part) {
      i := 0;
    } else {
      var j := IncludesWitness(s[1..], part);
      i := j + 1;
      assert s[i..i + |part|] == s[1..][j..j + |part|];
    }
  }

  /** Whatever the tail of `s` contains, `s` contains. */
  lemma IncludesOfTail(s: string, part: string)
    requires s != [] && Includes(s[1..], part)
    ensures Includes(s, part)
  {
  }

  /** Whatever contains `outer` contains every piece of `outer`. */
  lemma IncludesInner(s: string, outer: string, before: nat, part: string)
    requires Includes(s, outer)
    requires before + |part| <= |outer| && outer[before..before + |part|] == part
    ensures Includes(s, part)
  {
    var i := IncludesWitness(s, outer);
    var w := s[i..i + |outer|];
    assert w[before..before + |part|] == part;
    forall k | 0 <= k < |part| ensures s[i + before..i + before + |part|][k] == part[k] {
      assert part[k] == w[before + k];
    }
    assert s[i + before..i + before + |part|] == part;
    IncludesAt(s, part, i + before);
  }

  /** toLowerCase on the ASCII letters; every other character is kept. */
  function AsciiLower(s: string): (r: string)
    ensures |r| == |s|
    ensures forall i :: 0 <= i < |s| ==> r[i] == LowerChar(s[i])
  {
    if s == [] then [] else [LowerChar(s[0])] + AsciiLower(s[1..])
  }

  function LowerChar(c: char): char
  {
    if 'A' <= c <= 'Z' then (c as int - 'A' as int + 'a' as int) as char else c
  }

  // ---------------------------------------------------------------------------
  // split and join
  // ---------------------------------------------------------------------------

  /** String.prototype.split with a one-character separator. */
  function Split(s: string, sep: char): (parts: seq<string>)
    ensures |parts| >= 1
    ensures forall k :: 0 <= k < |parts| ==> sep !in parts[k]
  {
    if s == [] then [[]]
    else
      var rest := Split(s[1..], sep);
      if s[0] == sep then [[]] + rest else [[s[0]] + rest[0]] + rest[1..]
  }

  /** Array.prototype.join with a one-character separator. */
  function Join(parts: seq<string>, sep: char): string
    requires |parts| >= 1
  {
    if |parts| == 1 then parts[0] else parts[0] + [sep] + Join(parts[1..], sep)
  }

  lemma {:induction false} JoinSplit(s: string, sep: char)
    ensures Join(Split(s, sep), sep) == s
  {
    if s != [] {
      var rest := Split(s[1..], sep);
      JoinSplit(s[1..], sep);
      if s[0] == sep {
        assert ([[]] + rest)[1..] == rest;
      } else {
        var parts := [[s[0]] + rest[0]] + rest[1..];
        if |rest| > 1 {
          assert parts[1..] == rest[1..];
          assert Join(rest, sep) == rest[0] + [sep] + Join(rest[1..], sep);
        }
      }
    }
  }

  lemma {:induction false} SplitJoin(parts: seq<string>, sep: char)
    requires |parts| >= 1
    requires forall k :: 0 <= k < |parts| ==> sep !in parts[k]
    ensures Split(Join(parts, sep), sep) == parts
    decreases |parts|, |parts[0]|
  {
    if |parts| == 1 {
      SplitNoSep(parts[0], sep);
    } else if parts[0] == [] {
      var tail := Join(parts[1..], sep);
      assert Join(parts, sep) == [sep] + tail;
      assert ([sep] + tail)[1..] == tail;
      SplitJoin(parts[1..], sep);
      assert [parts[0]] + parts[1..] == parts;
    } else {
      var p0 := parts[0];
      var shorter := [p0[1..]] + parts[1..];
      assert shorter[1..] == parts[1..];
      forall k | 0 <= k < |shorter| ensures sep !in shorter[k] {
        if k == 0 {
          assert forall c :: c in p0[1..] ==> c in p0;
        } else {
          assert shorter[k] == parts[k];
        }
      }
      SplitJoin(shorter, sep);
      JoinFirstChar(parts, sep);
      var t := Join(shorter, sep);
      assert ([p0[0]] + t)[1..] == t;
      assert p0[0] in p0;
      assert Split([p0[0]] + t, sep) == [[p0[0]] + shorter[0]] + shorter[1..];
      assert [p0[0]] + p0[1..] == p0;
      assert [[p0[0]] + shorter[0]] + shorter[1..] == parts;
    }
  }

  /** Joining starts with the first character of a non-empty first part. */
  lemma JoinFirstChar(parts: seq<string>, sep: char)
    requires |parts| >= 1 && parts[0] != []
    ensures Join(parts, sep) == [parts[0][0]] + Join([parts[0][1..]] + parts[1..], sep)
  {
    var shorter := [parts[0][1..]] + parts[1..];
    assert shorter[0] == parts[0][1..] && shorter[1..] == parts[1..];
    assert parts[0] == [parts[0][0]] + parts[0][1..];
  }

  /** Splitting at the first separator: the text before it, then the split of the rest. */
  lemma {:induction false} SplitAtFirst(a: string, b: string, sep: char)
    requires sep !in a
    ensures Split(a + [sep] + b, sep) == [a] + Split(b, sep)
    decreases |a|
  {
    if a == [] {
      assert a + [sep] + b == [sep] + b;
      assert ([sep] + b)[1..] == b;
    } else {
      var s := a + [sep] + b;
      assert s[0] == a[0] && s[1..] == a[1..] + [sep] + b;
      assert forall c :: c in a[1..] ==> c in a;
      SplitAtFirst(a[1..], b, sep);
      assert [a[0]] + a[1..] == a;
    }
  }

  lemma {:induction false} SplitNoSep(s: string, sep: char)
    requires sep !in s
    ensures Split(s, sep) == [s]
  {
    if s != [] {
      assert forall c :: c in s[1..] ==> c in s;
      SplitNoSep(s[1..], sep);
      assert [s[0]] + s[1..] == s;
    }
  }

  // ---------------------------------------------------------------------------
  // Integer to text: Number.prototype.toString and padStart
  // ---------------------------------------------------------------------------

  /** The decimal digits of a natural number, without leading zeros. */
  function NatToString(n: nat): (s: string)
    ensures |s| >= 1 && AllDecimalDigits(s)
    ensures |s| > 1 ==> s[0] != '0'
  {
    if n < 10 then [DigitChar(n)] else NatToString(n / 10) + [DigitChar(n % 10)]
  }

  /** Number.prototype.toString for an integer (exponent notation is not modelled). */
  function IntToString(n: int): string
  {
    if n < 0 then "-" + NatToString(-n) else NatToString(n)
  }

  /** String(x) for a number that may be NaN. */
  function NumToString(x: JsNum): string
  {
    match x
    case NaN => "NaN"
    case Num(n) => IntToString(n)
  }

  /** The value of a string of decimal digits ("" is 0). */
  function DecimalValue(s: string): nat
    requires AllDecimalDigits(s)
  {
    if s == [] then 0 else DecimalValue(s[..|s| - 1]) * 10 + DecimalDigitValue(s[|s| - 1])
  }

  lemma {:induction false} DecimalValueOfNatToString(n: nat)
    ensures DecimalValue(NatToString(n)) == n
  {
    if n >= 10 {
      var s := NatToString(n);
      assert s[..|s| - 1] == NatToString(n / 10);
      DecimalValueOfNatToString(n / 10);
    }
  }

  /** Digit strings that differ give different values, once leading zeros are excluded. */
  lemma {:induction false} NatToStringOfDecimalValue(s: string)
    requires AllDecimalDigits(s) && |s| >= 1 && (|s| > 1 ==> s[0] != '0')
    ensures NatToString(DecimalValue(s)) == s
    decreases |s|
  {
    if |s| == 1 {
    } else {
      var init := s[..|s| - 1];
      assert init[0] == s[0];
      NatToStringOfDecimalValue(init);
      DecimalValueLowerBound(init);
      var v := DecimalValue(s);
      assert v / 10 == DecimalValue(init);
      assert v % 10 == DecimalDigitValue(s[|s| - 1]);
      assert s == init + [s[|s| - 1]];
    }
  }

  /** A digit string of length k >= 2 without a leading zero is worth at least 10. */
  lemma {:induction false} DecimalValueLowerBound(s: string)
    requires AllDecimalDigits(s) && |s| >= 1 && (|s| > 1 ==> s[0] != '0')
    ensures |s| > 1 ==> DecimalValue(s) >= 10
    ensures DecimalValue(s) >= 1 || s == "0"
    decreases |s|
  {
    if |s| > 1 {
      var init := s[..|s| - 1];
      assert init[0] == s[0];
      DecimalValueLowerBound(init);
    } else {
      assert s == [s[0]];
    }
  }

  /** padStart(2, '0'). */
  function PadStart2(s: string): (r: string)
    ensures |s| >= 2 ==> r == s
    ensures |s| < 2 ==> |r| == 2 && r[2 - |s|..] == s
  {
    if |s| >= 2 then s else seq(2 - |s|, _ => '0') + s
  }

  // ---------------------------------------------------------------------------
  // parseInt
  // ---------------------------------------------------------------------------

  predicate IsHexDigit(c: char)
  {
    IsDecimalDigit(c) || 'a' <= c <= 'f' || 'A' <= c <= 'F'
  }

  predicate IsRadixDigit(c: char, hex: bool)
  {
    if hex then IsHexDigit(c) else IsDecimalDigit(c)
  }

  function HexDigitValue(c: char): (d: nat)
    requires IsHexDigit(c)
    ensures d < 16
  {
    if IsDecimalDigit(c) then DecimalDigitValue(c)
    else if 'a' <= c <= 'f' then c as int - 'a' as int + 10
    else c as int - 'A' as int + 10
  }

  /** The length of the longest prefix of `s` made of digits of the radix. */
  function DigitRun(s: string, hex: bool): (k: nat)
    ensures k <= |s|
    ensures forall i :: 0 <= i < k ==> IsRadixDigit(s[i], hex)
    ensures k < |s| ==> !IsRadixDigit(s[k], hex)
  {
    if s != [] && IsRadixDigit(s[0], hex) then 1 + DigitRun(s[1..], hex) else 0
  }

  /** The value of a digit of the radix; 0 for any other character. */
  function RadixDigitValue(c: char, hex: bool): (d: nat)
    ensures IsRadixDigit(c, hex) ==> d < (if hex then 16 else 10)
  {
    if hex && IsHexDigit(c) then HexDigitValue(c)
    else if !hex && IsDecimalDigit(c) then DecimalDigitValue(c)
    else 0
  }

  /**
   * parseInt(s, radix) for radix 10 (`allowHex` false) or for an absent radix
   * (`allowHex` true, where a "0x"/"0X" prefix switches to base 16): leading white space
   * is skipped, one sign is read, and the longest run of digits is converted; no digit
   * gives NaN.
   */
  function ParseIntWith(s: string, allowHex: bool): JsNum
  {
    var t := TrimStart(s);
    var negative := t != [] && t[0] == '-';
    var u := if t != [] && (t[0] == '-' || t[0] == '+') then t[1..] else t;
    var hex := allowHex && |u| >= 2 && u[0] == '0' && (u[1] == 'x' || u[1] == 'X');
    var w := if hex then u[2..] else u;
    if DigitRun(w, hex) == 0 then NaN
    else
      var v: int := LeadingValue(w, hex);
      Num(if negative then -v else v)
  }

  /** The value of the digits at the start of `w`. */
  function LeadingValue(w: string, hex: bool): nat
  {
    PrefixValue(w, hex, DigitRun(w, hex))
  }

  /** The first `k` characters of `w` read as digits of the radix, most significant
      first. */
  function PrefixValue(w: string, hex: bool, k: nat): nat
    requires k <= |w|
  {
    if k == 0 then 0
    else if hex then 16 * PrefixValue(w, hex, k - 1) + RadixDigitValue(w[k - 1], hex)
    else 10 * PrefixValue(w, hex, k - 1) + RadixDigitValue(w[k - 1], hex)
  }

  /** parseInt(s) with no radix argument. */
  function ParseInt(s: string): (r: JsNum)
    ensures TrimStart(s) == [] ==> r == NaN
    ensures r.Num? && r.n < 0 ==> TrimStart(s) != [] && TrimStart(s)[0] == '-'
  {
    ParseIntWith(s, true)
  }

  /** parseInt(s, 10). */
  function ParseInt10(s: string): JsNum
  {
    ParseIntWith(s, false)
  }

  lemma {:induction false} PrefixValueDecimal(w: string, k: nat)
    requires k <= |w| && AllDecimalDigits(w[..k])
    ensures PrefixValue(w, false, k) == DecimalValue(w[..k])
  {
    if k > 0 {
      var p := w[..k];
      assert p[..k - 1] == w[..k - 1] && p[k - 1] == w[k - 1];
      PrefixValueDecimal(w, k - 1);
    } else {
      assert w[..k] == [];
    }
  }

  /** A run of decimal digits followed by a non-digit parses to the run's value, whatever
      follows it and whichever radix rule applies. */
  lemma DigitsThenRest(d: string, rest: string, allowHex: bool)
    requires |d| >= 1 && AllDecimalDigits(d) && !IsJsSpace(d[0])
    requires rest == [] || !IsDecimalDigit(rest[0])
    requires allowHex && d == "0" && rest != [] ==> rest[0] != 'x' && rest[0] != 'X'
    ensures ParseIntWith(d + rest, allowHex) == Num(DecimalValue(d))
  {
    var s := d + rest;
    assert s[0] == d[0];
    assert TrimStart(s) == s;
    assert s[0] != '-' && s[0] != '+';
    var hex := allowHex && |s| >= 2 && s[0] == '0' && (s[1] == 'x' || s[1] == 'X');
    if |d| == 1 {
      assert |s| >= 2 ==> s[1] == rest[0];
    } else {
      assert s[1] == d[1] && IsDecimalDigit(d[1]);
    }
    assert !hex;
    assert ParseIntWith(s, allowHex) == (if DigitRun(s, false) == 0 then NaN else Num(LeadingValue(s, false)));
    DigitRunOfDigits(d, rest);
    assert s[..|d|] == d;
    PrefixValueDecimal(s, |d|);
  }

  lemma {:induction false} DigitRunOfDigits(d: string, rest: string)
    requires AllDecimalDigits(d)
    requires rest == [] || !IsDecimalDigit(rest[0])
    ensures DigitRun(d + rest, false) == |d|
  {
    if d != [] {
      assert (d + rest)[1..] == d[1..] + rest;
      DigitRunOfDigits(d[1..], rest);
    } else {
      assert d + rest == rest;
    }
  }

  /** parseInt reads back the decimal text of every natural number, in either radix rule. */
  lemma ParseIntOfNatToString(n: nat, allowHex: bool)
    ensures ParseIntWith(NatToString(n), allowHex) == Num(n)
  {
    var s := NatToString(n);
    assert s + [] == s;
    DecimalValueOfNatToString(n);
    DigitsThenRest(s, [], allowHex);
  }
}
