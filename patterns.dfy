/**
 * The regular-expression searches the playlist parsers and the portal perform, each
 * written out as a leftmost search over the positions of the input, the way
 * String.prototype.match runs a pattern without the `g` flag.
 *
 *   key="([^"]*)"   key="([^"]+)"   key="(\d+)"   key="(\d{2}:\d{2}:\d{2})"
 *   ,(.+)$          ,\s*(.+)$       [?&]v=([^&]+)
 */
module Patterns {
  import opened JsBuiltins

  /** What the capture group of a `key="(...)"` pattern accepts between the quotes. */
  datatype ValueClass =
    | AnyText        // [^"]*
    | NonEmptyText   // [^"]+
    | Digits         // \d+
    | ClockTime      // \d{2}:\d{2}:\d{2}

  predicate Accepts(v: string, cls: ValueClass)
  {
    match cls
    case AnyText => true
    case NonEmptyText => v != []
    case Digits => v != [] && AllDecimalDigits(v)
    case ClockTime => IsClockText(v)
  }

  /** The text `dd:dd:dd`. */
  predicate IsClockText(v: string)
  {
    |v| == 8 && v[2] == ':' && v[5] == ':' &&
    IsDecimalDigit(v[0]) && IsDecimalDigit(v[1]) && IsDecimalDigit(v[3]) &&
    IsDecimalDigit(v[4]) && IsDecimalDigit(v[6]) && IsDecimalDigit(v[7])
  }

  /** The number of characters before the first `stop`: how far a `[^stop]*` class runs. */
  function RunBefore(s: string, stop: char): (k: nat)
    ensures k <= |s|
    ensures forall i :: 0 <= i < k ==> s[i] != stop
    ensures k < |s| ==> s[k] == stop
  {
    if s != [] && s[0] != stop then 1 + RunBefore(s[1..], stop) else 0
  }

  /** `key="` */
  function AttrOpen(key: string): string
  {
    key + "=\""
  }

  /** The capture of `key="(V)"` when the pattern matches at the start of `s`. Every
      class above excludes the quote, so the value runs to the first quote after `key="`. */
  function AttrHere(s: string, key: string, cls: ValueClass): Option<string>
  {
    var open := AttrOpen(key);
    if !StartsWith(s, open) then None
    else
      var rest := s[|open|..];
      var q := RunBefore(rest, '"');
      if q < |rest| && Accepts(rest[..q], cls) then Some(rest[..q]) else None
  }

  /** line.match(/key="(V)"/)?.[1]: the capture at the leftmost position where the pattern matches. */
  function AttrValue(s: string, key: string, cls: ValueClass): (r: Option<string>)
    ensures r.Some? ==> '"' !in r.value && Accepts(r.value, cls) && |AttrOpen(key)| + |r.value| < |s|
    decreases |s|
  {
    if AttrHere(s, key, cls).Some? then AttrHere(s, key, cls)
    else if s == [] then None
    else AttrValue(s[1..], key, cls)
  }

  /** A found value is quote-free, of its class, and stands quoted after `key=` in the line;
      no value means the pattern matches nowhere. */
  lemma {:induction false} AttrValueSpec(s: string, key: string, cls: ValueClass)
    ensures AttrValue(s, key, cls).Some? ==>
      var v := AttrValue(s, key, cls).value;
      '"' !in v && Accepts(v, cls) && Includes(s, AttrOpen(key) + v + "\"")
    ensures AttrValue(s, key, cls).None? ==>
      forall i :: 0 <= i <= |s| ==> AttrHere(s[i..], key, cls).None?
    decreases |s|
  {
    if AttrHere(s, key, cls).Some? {
      var open := AttrOpen(key);
      var rest := s[|open|..];
      var q := RunBefore(rest, '"');
      var v := rest[..q];
      assert s[..|open| + q + 1] == open + v + "\"";
      IncludesAt(s, open + v + "\"", 0);
    } else if s != [] {
      AttrValueSpec(s[1..], key, cls);
      var v := AttrValue(s, key, cls);
      if v.Some? {
        IncludesOfTail(s, AttrOpen(key) + v.value + "\"");
      } else {
        forall i | 0 <= i <= |s| ensures AttrHere(s[i..], key, cls).None? {
          if i > 0 {
            assert s[i..] == s[1..][i - 1..];
          }
        }
      }
    }
  }

  /** Without the text `key="` anywhere in the line no value is found. */
  lemma AttrAbsent(s: string, key: string, cls: ValueClass)
    requires !Includes(s, AttrOpen(key))
    ensures AttrValue(s, key, cls) == None
  {
    AttrFoundAfterOpen(s, key, cls);
  }

  /** A found value stands after the text `key="`. */
  lemma AttrFoundAfterOpen(s: string, key: string, cls: ValueClass)
    ensures AttrValue(s, key, cls).Some? ==> Includes(s, AttrOpen(key))
  {
    AttrValueSpec(s, key, cls);
    if AttrValue(s, key, cls).Some? {
      var v := AttrValue(s, key, cls).value;
      IncludesInner(s, AttrOpen(key) + v + "\"", 0, AttrOpen(key));
    }
  }

  /** The `[^"]+` and `[^"]*` searches disagree only when the first `key="` value is
      empty: a non-empty first value is what both find, and no value for `*` means none for `+`. */
  lemma {:induction false} NonEmptyVersusAny(s: string, key: string)
    ensures AttrValue(s, key, AnyText).Some? && AttrValue(s, key, AnyText).value != [] ==>
      AttrValue(s, key, NonEmptyText) == AttrValue(s, key, AnyText)
    ensures AttrValue(s, key, AnyText).None? ==> AttrValue(s, key, NonEmptyText).None?
    ensures AttrValue(s, key, NonEmptyText).Some? ==> AttrValue(s, key, AnyText).Some?
    decreases |s|
  {
    if s != [] {
      NonEmptyVersusAny(s[1..], key);
    }
  }

  // ---------------------------------------------------------------------------
  // The title after a comma
  // ---------------------------------------------------------------------------

  predicate NoLineTerminator(s: string)
  {
    forall i :: 0 <= i < |s| ==> !IsLineTerminator(s[i])
  }

  /** The number of leading characters matched by `\s*` (the same set trim removes). */
  function LeadingSpace(s: string): (k: nat)
    ensures k <= |s|
    ensures forall i :: 0 <= i < k ==> IsJsSpace(s[i])
    ensures k < |s| ==> !IsJsSpace(s[k])
  {
    if s != [] && IsJsSpace(s[0]) then 1 + LeadingSpace(s[1..]) else 0
  }

  /** The capture of `(.+)$`, or of `\s*(.+)$` when `skipSpace`, matched right after a comma
      whose remaining text is `r`. Greedy `\s*` gives back one character only when it
      swallowed all of `r`. */
  function TitleHere(r: string, skipSpace: bool): Option<string>
  {
    if r == [] then None
    else
      var k := if !skipSpace then 0
               else if LeadingSpace(r) < |r| then LeadingSpace(r) else |r| - 1;
      if NoLineTerminator(r[k..]) then Some(r[k..]) else None
  }

  /** line.match(/,(.+)$/)?.[1] (or /,\s*(.+)$/ when `skipSpace`): the leftmost comma
      after which the rest of the line matches. */
  function TitleAfterComma(s: string, skipSpace: bool): (r: Option<string>)
    ensures r.Some? ==> r.value != [] && NoLineTerminator(r.value) && |r.value| < |s|
    ensures ',' !in s ==> r.None?
    decreases |s|
  {
    if s == [] then None
    else if s[0] == ',' && TitleHere(s[1..], skipSpace).Some? then TitleHere(s[1..], skipSpace)
    else TitleAfterComma(s[1..], skipSpace)
  }

  /** The `,(.+)$` capture is a non-empty, terminator-free suffix of the line that follows a comma. */
  lemma {:induction false} TitleIsSuffix(s: string)
    ensures TitleAfterComma(s, false).Some? ==>
      var t := TitleAfterComma(s, false).value;
      t != [] && NoLineTerminator(t) && |t| < |s| && s[|s| - |t|..] == t && s[|s| - |t| - 1] == ','
    decreases |s|
  {
    if s != [] && !(s[0] == ',' && TitleHere(s[1..], false).Some?) {
      TitleIsSuffix(s[1..]);
    }
  }

  /** The `,\s*(.+)$` capture is a non-empty, terminator-free suffix of the line that
      starts with a non-space character unless it is that one character alone. */
  lemma {:induction false} SpacedTitleIsSuffix(s: string)
    ensures TitleAfterComma(s, true).Some? ==>
      var t := TitleAfterComma(s, true).value;
      t != [] && NoLineTerminator(t) && |t| < |s| && s[|s| - |t|..] == t &&
      (IsJsSpace(t[0]) ==> |t| == 1)
    decreases |s|
  {
    if s != [] && !(s[0] == ',' && TitleHere(s[1..], true).Some?) {
      SpacedTitleIsSuffix(s[1..]);
    }
  }

  /** Without a comma there is no title; with a comma whose remaining text is non-empty and
      free of line terminators there always is one. */
  lemma {:induction false} TitleExists(s: string, p: nat)
    requires p < |s| - 1 && s[p] == ',' && NoLineTerminator(s[p + 1..])
    ensures TitleAfterComma(s, false).Some?
    decreases p
  {
    if p > 0 && !(s[0] == ',' && TitleHere(s[1..], false).Some?) {
      assert s[1..][p - 1 + 1..] == s[p + 1..];
      TitleExists(s[1..], p - 1);
    }
  }

  lemma {:induction false} NoCommaNoTitle(s: string, skipSpace: bool)
    requires ',' !in s
    ensures TitleAfterComma(s, skipSpace).None?
    decreases |s|
  {
    if s != [] {
      assert s[1..] <= s[1..];
      assert forall c :: c in s[1..] ==> c in s;
      NoCommaNoTitle(s[1..], skipSpace);
    }
  }

  /** A line ending in a carriage return (a CRLF file split on '\n' but not trimmed) never
      matches `,\s*(.+)$`. */
  lemma {:induction false} CarriageReturnNoTitle(s: string)
    requires s != [] && s[|s| - 1] == '\r'
    ensures TitleAfterComma(s, true).None?
    decreases |s|
  {
    if |s| > 1 {
      var r := s[1..];
      if s[0] == ',' {
        var k := if LeadingSpace(r) < |r| then LeadingSpace(r) else |r| - 1;
        assert r[k..][|r| - 1 - k] == '\r';
      }
      CarriageReturnNoTitle(s[1..]);
    }
  }

  // ---------------------------------------------------------------------------
  // The YouTube video parameter
  // ---------------------------------------------------------------------------

  /** The capture of `[?&]v=([^&]+)` when it matches at the start of `s`: it matches exactly
      when `s` opens with `?v=` or `&v=` and a character other than '&'. */
  function VideoParamHere(s: string): (r: Option<string>)
    ensures r.Some? <==> |s| > 3 && (s[0] == '?' || s[0] == '&') && s[1] == 'v' && s[2] == '=' && s[3] != '&'
  {
    if |s| >= 3 && (s[0] == '?' || s[0] == '&') && s[1] == 'v' && s[2] == '=' && RunBefore(s[3..], '&') > 0
    then Some(s[3..][..RunBefore(s[3..], '&')])
    else None
  }

  /** url.match(/[?&]v=([^&]+)/)?.[1]. */
  function VideoParam(s: string): (r: Option<string>)
    ensures r.Some? ==> r.value != [] && '&' !in r.value && |r.value| + 3 <= |s|
    decreases |s|
  {
    if s == [] then None
    else if VideoParamHere(s).Some? then VideoParamHere(s)
    else VideoParam(s[1..])
  }

  /** A found id is non-empty, has no '&', and stands after `?v=` or `&v=` in the URL. */
  lemma {:induction false} VideoParamSpec(s: string)
    ensures VideoParam(s).Some? ==>
      var id := VideoParam(s).value;
      id != [] && '&' !in id && (Includes(s, "?v=" + id) || Includes(s, "&v=" + id))
    decreases |s|
  {
    if s != [] {
      if VideoParamHere(s).Some? {
        var id := VideoParamHere(s).value;
        assert s[..3 + |id|] == [s[0]] + "v=" + id;
        if s[0] == '?' {
          IncludesAt(s, "?v=" + id, 0);
        } else {
          IncludesAt(s, "&v=" + id, 0);
        }
      } else {
        VideoParamSpec(s[1..]);
        if VideoParam(s).Some? {
          var id := VideoParam(s).value;
          if Includes(s[1..], "?v=" + id) {
            IncludesOfTail(s, "?v=" + id);
          } else {
            IncludesOfTail(s, "&v=" + id);
          }
        }
      }
    }
  }

  /** Position `p` is the leftmost place where `[?&]v=([^&]+)` matches. */
  predicate FirstVideoParamAt(s: string, p: nat)
  {
    p < |s| && VideoParamHere(s[p..]).Some? &&
    forall i :: 0 <= i < p ==> VideoParamHere(s[i..]).None?
  }

  /** The leftmost match wins: the capture is the one at the first matching position. */
  lemma {:induction false} VideoParamFirst(s: string, p: nat)
    requires FirstVideoParamAt(s, p)
    ensures VideoParam(s) == VideoParamHere(s[p..])
    decreases p
  {
    assert s[0..] == s;
    if p > 0 {
      forall i | 0 <= i < p - 1
        ensures VideoParamHere(s[1..][i..]).None?
      {
        assert s[1..][i..] == s[i + 1..];
      }
      assert s[1..][p - 1..] == s[p..];
      VideoParamFirst(s[1..], p - 1);
    }
  }

  /** `?v=` or `&v=` followed by a character other than '&' anywhere in the URL always gives
      an id, so null comes only from a URL without one. */
  lemma {:induction false} VideoParamFound(s: string, p: nat)
    requires p + 3 < |s| && (s[p] == '?' || s[p] == '&') && s[p + 1] == 'v' && s[p + 2] == '=' && s[p + 3] != '&'
    ensures VideoParam(s).Some?
    decreases p
  {
    if p > 0 && VideoParamHere(s).None? {
      VideoParamFound(s[1..], p - 1);
    }
  }

  /** A found id always comes from the leftmost matching position. */
  lemma {:induction false} VideoParamFoundFirst(s: string)
    requires VideoParam(s).Some?
    ensures exists p: nat :: FirstVideoParamAt(s, p) && VideoParam(s) == VideoParamHere(s[p..])
    decreases |s|
  {
    assert s[0..] == s;
    if VideoParamHere(s).None? {
      VideoParamFoundFirst(s[1..]);
      var q: nat :| FirstVideoParamAt(s[1..], q) && VideoParam(s[1..]) == VideoParamHere(s[1..][q..]);
      assert s[1..][q..] == s[q + 1..];
      forall i | 0 <= i < q + 1
        ensures VideoParamHere(s[i..]).None?
      {
        if i > 0 {
          assert s[1..][i - 1..] == s[i..];
        }
      }
      assert FirstVideoParamAt(s, q + 1);
    } else {
      assert FirstVideoParamAt(s, 0);
    }
  }

  /** The id of `?v=<id>` (or `&v=<id>`) at the very start of the query is found, up to the
      next '&'. */
  lemma VideoParamOfQuery(sep: char, id: string, rest: string)
    requires sep == '?' || sep == '&'
    requires id != [] && '&' !in id
    requires rest == [] || rest[0] == '&'
    ensures VideoParam([sep] + "v=" + id + rest) == Some(id)
  {
    var s := [sep] + "v=" + id + rest;
    assert s[3..] == id + rest;
    RunBeforeOf(id, rest, '&');
    assert (id + rest)[..|id|] == id;
  }

  /** A run free of `stop`, followed by `stop` or by nothing, is exactly what the class takes. */
  lemma {:induction false} RunBeforeOf(id: string, rest: string, stop: char)
    requires stop !in id
    requires rest == [] || rest[0] == stop
    ensures RunBefore(id + rest, stop) == |id|
  {
    if id != [] {
      assert (id + rest)[1..] == id[1..] + rest;
      assert forall c :: c in id[1..] ==> c in id;
      RunBeforeOf(id[1..], rest, stop);
    } else {
      assert id + rest == rest;
    }
  }
}
