/**
 * Attribute order in a `#EXTINF:` line. The parser looks every attribute up with its own
 * leftmost search over the whole line, so the record does not depend on the order in which
 * the attributes are written, as long as the values hold no '"', '=' or ','. A comma inside
 * a value is different: the title is taken after the first comma of the line, so moving an
 * attribute whose value holds a comma changes the title.
 */
module M3uAttributes {
  import opened JsBuiltins
  import opened Patterns
  import opened M3uParser

  /** A `key="value"` attribute of a header line. */
  datatype Attr = Attr(key: string, value: string)

  /** ` key="value"` as written in the line. */
  function AttrText(a: Attr): string
  {
    [' '] + a.key + "=\"" + a.value + "\""
  }

  function AttrsText(attrs: seq<Attr>): string
    decreases |attrs|
  {
    if attrs == [] then [] else AttrText(attrs[0]) + AttrsText(attrs[1..])
  }

  /** `#EXTINF:<duration> key="value" ...,<title>` */
  function HeaderText(duration: string, attrs: seq<Attr>, title: string): string
  {
    ExtinfTag + duration + AttrsText(attrs) + "," + title
  }

  /** The keys the parser looks up. */
  const LookedUp: seq<string> := ["tvg-logo", "Category", "Language", "c-no"]

  predicate PlainKey(k: string)
  {
    k != [] && forall i :: 0 <= i < |k| ==> k[i] != ' ' && k[i] != '"' && k[i] != '=' && k[i] != ','
  }

  predicate PlainValue(v: string)
  {
    forall i :: 0 <= i < |v| ==> v[i] != '"' && v[i] != '=' && v[i] != ','
  }

  /** `k` ends with `key` and is longer, like `xc-no` and `c-no`. */
  predicate ProperSuffix(key: string, k: string)
  {
    |key| < |k| && k[|k| - |key|..] == key
  }

  /** Attributes with plain keys and values, none of whose keys ends with a looked-up key
      without being it. */
  predicate PlainAttrs(attrs: seq<Attr>)
  {
    forall i :: 0 <= i < |attrs| ==>
      PlainKey(attrs[i].key) && PlainValue(attrs[i].value) &&
      forall j :: 0 <= j < |LookedUp| ==> !ProperSuffix(LookedUp[j], attrs[i].key)
  }

  predicate DistinctKeys(attrs: seq<Attr>)
  {
    forall i, j :: 0 <= i < j < |attrs| ==> attrs[i].key != attrs[j].key
  }

  /** The value of the first attribute with key `key` that the value class accepts. */
  function Lookup(attrs: seq<Attr>, key: string, cls: ValueClass): Option<string>
    decreases |attrs|
  {
    if attrs == [] then None
    else if attrs[0].key == key && Accepts(attrs[0].value, cls) then Some(attrs[0].value)
    else Lookup(attrs[1..], key, cls)
  }

  // ---------------------------------------------------------------------------
  // The search skips text where the pattern cannot start
  // ---------------------------------------------------------------------------

  lemma {:induction false} SkipNoMatch(z: string, from: nat, to: nat, key: string, cls: ValueClass)
    requires from <= to <= |z|
    requires forall i :: from <= i < to ==> !StartsWith(z[i..], AttrOpen(key))
    ensures AttrValue(z[from..], key, cls) == AttrValue(z[to..], key, cls)
    decreases |z| - from
  {
    if from < to {
      assert z[from..][1..] == z[from + 1..];
      SkipNoMatch(z, from + 1, to, key, cls);
    }
  }

  /** One character that differs from the pattern rules out a match at `i`. */
  lemma MismatchAt(z: string, i: nat, key: string, j: nat)
    requires i + j < |z| && j < |key| + 2
    requires z[i + j] != AttrOpen(key)[j]
    ensures !StartsWith(z[i..], AttrOpen(key))
  {
    var open := AttrOpen(key);
    if |open| <= |z[i..]| {
      assert z[i..][..|open|][j] == z[i + j];
    }
  }

  lemma AttrOpenChars(key: string)
    ensures var open := AttrOpen(key);
      |open| == |key| + 2 && open[|key|] == '=' && open[|key| + 1] == '"' &&
      forall j :: 0 <= j < |key| ==> open[j] == key[j]
  {
  }

  /** The characters of ` key="value"`. */
  lemma AttrTextChars(a: Attr)
    ensures var s := AttrText(a);
      |s| == |a.key| + |a.value| + 4 && s[0] == ' ' &&
      (forall j :: 0 <= j < |a.key| ==> s[1 + j] == a.key[j]) &&
      s[1 + |a.key|] == '=' && s[2 + |a.key|] == '"' &&
      (forall j :: 0 <= j < |a.value| ==> s[3 + |a.key| + j] == a.value[j]) &&
      s[|s| - 1] == '"'
  {
  }

  /** Inside ` key="value"` the pattern for another plain key cannot start, and for the
      same key it can start only right after the space. */
  lemma SegmentNoMatch(a: Attr, y: string, key: string, i: nat)
    requires PlainKey(key) && PlainKey(a.key) && PlainValue(a.value) && !ProperSuffix(key, a.key)
    requires i < |AttrText(a)| && (i != 1 || a.key != key)
    ensures !StartsWith((AttrText(a) + y)[i..], AttrOpen(key))
  {
    var s := AttrText(a);
    var z := s + y;
    var n := |s|;
    var k := a.key;
    AttrTextChars(a);
    AttrOpenChars(key);
    if i == 0 {
      MismatchAt(z, i, key, 0);
    } else if i + |key| >= n {
      assert z[i + (n - 1 - i)] == s[n - 1];
      MismatchAt(z, i, key, n - 1 - i);
    } else if i + |key| == 1 + |k| {
      var j :| 0 <= j < |key| && key[j] != k[i - 1 + j] by {
        if i == 1 {
          assert key != k && |key| == |k|;
        } else {
          assert key != k[i - 1..];
        }
      }
      assert z[i + j] == s[1 + (i - 1 + j)];
      MismatchAt(z, i, key, j);
    } else {
      var p := i + |key|;
      assert z[p] != '=' by {
        if p <= |k| {
          assert s[1 + (p - 1)] == k[p - 1];
        } else if p == 2 + |k| || p == n - 1 {
        } else {
          assert s[3 + |k| + (p - 3 - |k|)] == a.value[p - 3 - |k|];
        }
      }
      MismatchAt(z, i, key, |key|);
    }
  }

  /** Right after the space, ` key="value"` yields its value when the class accepts it. */
  lemma SegmentMatch(a: Attr, y: string, cls: ValueClass)
    requires PlainKey(a.key) && PlainValue(a.value)
    ensures AttrHere((AttrText(a) + y)[1..], a.key, cls) ==
      if Accepts(a.value, cls) then Some(a.value) else None
  {
    var z := (AttrText(a) + y)[1..];
    var open := AttrOpen(a.key);
    assert z == open + a.value + "\"" + y;
    assert z[..|open|] == open;
    var rest := z[|open|..];
    assert rest == a.value + ("\"" + y);
    assert '"' !in a.value;
    RunBeforeOf(a.value, "\"" + y, '"');
    assert rest[..|a.value|] == a.value;
  }

  /** The search over written attributes finds what `Lookup` finds, and otherwise goes on
      in whatever follows them. */
  lemma {:induction false} AttrValueOfAttrs(attrs: seq<Attr>, y: string, key: string, cls: ValueClass)
    requires PlainKey(key) && PlainAttrs(attrs)
    requires forall i :: 0 <= i < |attrs| ==> !ProperSuffix(key, attrs[i].key)
    ensures AttrValue(AttrsText(attrs) + y, key, cls) ==
      match Lookup(attrs, key, cls)
      case Some(v) => Some(v)
      case None => AttrValue(y, key, cls)
    decreases |attrs|
  {
    if attrs == [] {
      assert AttrsText(attrs) + y == y;
    } else {
      var a := attrs[0];
      var s := AttrText(a);
      var w := AttrsText(attrs[1..]) + y;
      var z := s + w;
      assert AttrsText(attrs) + y == z;
      assert PlainKey(a.key) && PlainValue(a.value);
      SegmentNoMatch(a, w, key, 0);
      assert z[0..] == z;
      SegmentMatch(a, w, cls);
      if a.key == key && Accepts(a.value, cls) {
        assert z[1..][0..] == z[1..];
        assert AttrValue(z, key, cls) == AttrValue(z[1..], key, cls);
      } else {
        if a.key != key {
          SegmentNoMatch(a, w, key, 1);
        }
        assert !StartsWith(z[1..], AttrOpen(key)) || a.key == key;
        forall i | 2 <= i < |s| ensures !StartsWith(z[i..], AttrOpen(key)) {
          SegmentNoMatch(a, w, key, i);
        }
        SkipNoMatch(z, 2, |s|, key, cls);
        assert z[|s|..] == w;
        AttrValueOfAttrs(attrs[1..], y, key, cls);
        assert z[1..][1..] == z[2..];
      }
    }
  }

  /** The pattern cannot start in `#EXTINF:<duration>` when the duration holds no '=' and
      what follows starts with a space or a comma. */
  lemma PrefixNoMatch(pre: string, x: string, key: string, i: nat)
    requires '=' !in pre && x != [] && (x[0] == ' ' || x[0] == ',') && PlainKey(key) && i < |pre|
    ensures !StartsWith((pre + x)[i..], AttrOpen(key))
  {
    var z := pre + x;
    AttrOpenChars(key);
    if i + |key| < |pre| {
      assert pre[i + |key|] in pre;
      MismatchAt(z, i, key, |key|);
    } else if i + |key| == |pre| {
      assert z[|pre|] == x[0];
      MismatchAt(z, i, key, |key|);
    } else {
      assert z[i + (|pre| - i)] == x[0];
      MismatchAt(z, i, key, |pre| - i);
    }
  }

  lemma {:induction false} TitleSkipsCommaFree(x: string, y: string)
    requires ',' !in x
    ensures TitleAfterComma(x + y, false) == TitleAfterComma(y, false)
    decreases |x|
  {
    if x != [] {
      assert (x + y)[1..] == x[1..] + y;
      assert x[0] in x;
      assert forall c :: c in x[1..] ==> c in x;
      TitleSkipsCommaFree(x[1..], y);
    } else {
      assert x + y == y;
    }
  }

  lemma AttrsTextNoComma(attrs: seq<Attr>)
    requires PlainAttrs(attrs)
    ensures ',' !in AttrsText(attrs)
    decreases |attrs|
  {
    if attrs != [] {
      AttrTextChars(attrs[0]);
      AttrsTextNoComma(attrs[1..]);
      assert forall i :: 1 <= i < |attrs| ==> attrs[1..][i - 1] == attrs[i];
    }
  }

  lemma LookedUpKeys()
    ensures forall j :: 0 <= j < |LookedUp| ==> PlainKey(LookedUp[j])
  {
  }

  /** The search skips `#EXTINF:<duration>` when the duration holds no '=' and what
      follows starts with a space or a comma. */
  lemma SkipPrefix(pre: string, x: string, key: string, cls: ValueClass)
    requires '=' !in pre && x != [] && (x[0] == ' ' || x[0] == ',') && PlainKey(key)
    ensures AttrValue(pre + x, key, cls) == AttrValue(x, key, cls)
  {
    forall i | 0 <= i < |pre| ensures !StartsWith((pre + x)[i..], AttrOpen(key)) {
      PrefixNoMatch(pre, x, key, i);
    }
    SkipNoMatch(pre + x, 0, |pre|, key, cls);
    assert (pre + x)[0..] == pre + x;
    assert (pre + x)[|pre|..] == x;
  }

  lemma AttrsTextStart(attrs: seq<Attr>, rest: string)
    ensures var x := AttrsText(attrs) + ("," + rest); x != [] && (x[0] == ' ' || x[0] == ',')
  {
    if attrs != [] {
      AttrTextChars(attrs[0]);
      assert (AttrsText(attrs) + ("," + rest))[0] == AttrText(attrs[0])[0];
    }
  }

  lemma NoEqualsInPrefix(duration: string)
    requires '=' !in duration
    ensures '=' !in ExtinfTag + duration
  {
    assert forall c :: c in ExtinfTag + duration ==> c in ExtinfTag || c in duration;
  }

  /** Every looked-up attribute of a well-formed header line is found among its attributes,
      and otherwise in the title text. */
  lemma HeaderLookup(duration: string, attrs: seq<Attr>, title: string, j: nat, cls: ValueClass)
    requires '=' !in duration && PlainAttrs(attrs) && j < |LookedUp|
    ensures var key := LookedUp[j];
      AttrValue(HeaderText(duration, attrs, title), key, cls) ==
        match Lookup(attrs, key, cls)
        case Some(v) => Some(v)
        case None => AttrValue("," + title, key, cls)
  {
    var key := LookedUp[j];
    LookedUpKeys();
    var pre := ExtinfTag + duration;
    var x := AttrsText(attrs) + ("," + title);
    assert HeaderText(duration, attrs, title) == pre + x;
    NoEqualsInPrefix(duration);
    AttrsTextStart(attrs, title);
    SkipPrefix(pre, x, key, cls);
    AttrValueOfAttrs(attrs, "," + title, key, cls);
  }

  /** The title of a well-formed header line is found after the comma that ends the attributes. */
  lemma HeaderTitleText(duration: string, attrs: seq<Attr>, title: string)
    requires ',' !in duration && PlainAttrs(attrs)
    ensures TitleAfterComma(HeaderText(duration, attrs, title), false) == TitleAfterComma("," + title, false)
  {
    AttrsTextNoComma(attrs);
    var pre := ExtinfTag + duration + AttrsText(attrs);
    assert ',' !in pre by {
      assert forall c :: c in pre ==> c in ExtinfTag || c in duration || c in AttrsText(attrs);
    }
    assert HeaderText(duration, attrs, title) == pre + ("," + title);
    TitleSkipsCommaFree(pre, "," + title);
  }

  /** With distinct keys, the lookup finds the one attribute of that key. */
  lemma LookupDistinct(attrs: seq<Attr>, key: string, cls: ValueClass)
    requires DistinctKeys(attrs)
    ensures forall v :: Lookup(attrs, key, cls) == Some(v) <==> Attr(key, v) in attrs && Accepts(v, cls)
    decreases |attrs|
  {
    if attrs != [] {
      var tail := attrs[1..];
      assert DistinctKeys(tail) by {
        forall i, j | 0 <= i < j < |tail| ensures tail[i].key != tail[j].key {
          assert tail[i] == attrs[i + 1] && tail[j] == attrs[j + 1];
        }
      }
      LookupDistinct(tail, key, cls);
      assert attrs == [attrs[0]] + tail;
      if attrs[0].key == key {
        forall a | a in tail ensures a.key != key {
          var i :| 0 <= i < |tail| && tail[i] == a;
          assert attrs[i + 1] == a;
        }
      }
    }
  }

  /** Permuting attributes with distinct keys does not change any lookup. */
  lemma LookupPermutation(a1: seq<Attr>, a2: seq<Attr>, key: string, cls: ValueClass)
    requires DistinctKeys(a1) && DistinctKeys(a2) && multiset(a1) == multiset(a2)
    ensures Lookup(a1, key, cls) == Lookup(a2, key, cls)
  {
    LookupDistinct(a1, key, cls);
    LookupDistinct(a2, key, cls);
    forall a ensures a in a1 <==> a in a2 {
      assert a in a1 <==> a in multiset(a1);
      assert a in a2 <==> a in multiset(a2);
    }
    assert forall v :: Lookup(a1, key, cls) == Some(v) <==> Lookup(a2, key, cls) == Some(v);
  }

  /** Writing the same attributes in another order gives the same channel record, for
      both logo patterns, when the keys are distinct and the values free of '"', '=' and ','. */
  lemma AttributeOrderIrrelevant(duration: string, a1: seq<Attr>, a2: seq<Attr>, title: string, rule: LogoRule)
    requires '=' !in duration && ',' !in duration
    requires PlainAttrs(a1) && DistinctKeys(a1) && DistinctKeys(a2) && multiset(a1) == multiset(a2)
    ensures Header(HeaderText(duration, a1, title), rule) == Header(HeaderText(duration, a2, title), rule)
  {
    assert PlainAttrs(a2) by {
      forall i | 0 <= i < |a2|
        ensures PlainKey(a2[i].key) && PlainValue(a2[i].value) &&
          forall j :: 0 <= j < |LookedUp| ==> !ProperSuffix(LookedUp[j], a2[i].key)
      {
        assert a2[i] in multiset(a1);
      }
    }
    var l1 := HeaderText(duration, a1, title);
    var l2 := HeaderText(duration, a2, title);
    HeaderTitleText(duration, a1, title);
    HeaderTitleText(duration, a2, title);
    HeaderLookup(duration, a1, title, 0, LogoClass(rule));
    HeaderLookup(duration, a2, title, 0, LogoClass(rule));
    LookupPermutation(a1, a2, "tvg-logo", LogoClass(rule));
    HeaderLookup(duration, a1, title, 1, AnyText);
    HeaderLookup(duration, a2, title, 1, AnyText);
    LookupPermutation(a1, a2, "Category", AnyText);
    HeaderLookup(duration, a1, title, 2, AnyText);
    HeaderLookup(duration, a2, title, 2, AnyText);
    LookupPermutation(a1, a2, "Language", AnyText);
    HeaderLookup(duration, a1, title, 3, AnyText);
    HeaderLookup(duration, a2, title, 3, AnyText);
    LookupPermutation(a1, a2, "c-no", AnyText);
  }

  lemma {:induction false} AttrsTextAppend(a1: seq<Attr>, a2: seq<Attr>)
    ensures AttrsText(a1 + a2) == AttrsText(a1) + AttrsText(a2)
    decreases |a1|
  {
    if a1 == [] {
      assert a1 + a2 == a2;
    } else {
      assert (a1 + a2)[1..] == a1[1..] + a2;
      AttrsTextAppend(a1[1..], a2);
    }
  }

  lemma NoCommaConcat(a: string, b: string)
    requires ',' !in a && ',' !in b
    ensures ',' !in a + b
  {
    assert forall c :: c in a + b ==> c in a || c in b;
  }

  lemma PlainValueNoComma(v: string)
    requires PlainValue(v)
    ensures ',' !in v
  {
  }

  /** A line whose first comma is followed by a terminator-free text gets that text, trimmed,
      as its title. */
  lemma TitleOfLine(x: string, t: string, rule: LogoRule)
    requires ',' !in x && t != [] && NoLineTerminator(t)
    ensures Header(x + ([','] + t), rule).Some? && Header(x + ([','] + t), rule).value.title == Trim(t)
  {
    TitleSkipsCommaFree(x, [','] + t);
    assert ([','] + t)[1..] == t;
  }

  /** The text of a line up to the comma inside a value. */
  function HeadBeforeComma(duration: string, before: seq<Attr>, key: string, v1: string): string
  {
    ExtinfTag + duration + AttrsText(before) + ([' '] + key + "=\"") + v1
  }

  /** The text of a line after the comma inside a value. */
  function TailAfterComma(v2: string, after: seq<Attr>, title: string): string
  {
    v2 + "\"" + AttrsText(after) + "," + title
  }

  lemma Assoc(a: string, b: string, c: string)
    ensures (a + b) + c == a + (b + c)
  {
  }

  /** Regrouping the pieces of a header line around the comma inside a value. */
  lemma Regroup(p: string, b: string, k: string, v1: string, c: string, v2: string, e: string,
                z: string, title: string)
    ensures ((p + ((b + ((k + ((v1 + c) + v2)) + e)) + z)) + c) + title ==
      (((p + b) + k) + v1) + (c + ((((v2 + e) + z) + c) + title))
  {
    var rest := z + (c + title);
    var t := (((v2 + e) + z) + c) + title;
    var s := (k + ((v1 + c) + v2)) + e;
    Assoc(v2 + e + z, c, title);
    Assoc(v2 + e, z, c + title);
    Assoc(v2, e, rest);
    Assoc(k + (v1 + c + v2), e, rest);
    Assoc(k, v1 + c + v2, e + rest);
    Assoc(v1 + c, v2, e + rest);
    Assoc(v1, c, t);
    Assoc(p + (b + s + z), c, title);
    Assoc(p, b + s + z, c + title);
    Assoc(b + s, z, c + title);
    Assoc(b, s, rest);
    Assoc(b, k, v1 + (c + t));
    Assoc(b + k, v1, c + t);
    Assoc(p, b + k + v1, c + t);
    Assoc(p, b, k);
    Assoc(p + b, k, v1);
    Assoc(p, b + k, v1);
  }

  lemma CommaValueText(duration: string, before: seq<Attr>, key: string, v1: string, v2: string,
                       after: seq<Attr>, title: string)
    ensures HeaderText(duration, before + [Attr(key, v1 + "," + v2)] + after, title) ==
      HeadBeforeComma(duration, before, key, v1) + ([','] + TailAfterComma(v2, after, title))
  {
    var a := Attr(key, v1 + "," + v2);
    AttrsTextAppend(before + [a], after);
    AttrsTextAppend(before, [a]);
    assert AttrsText([a]) == AttrText(a) + AttrsText([]) == AttrText(a);
    Regroup(ExtinfTag + duration, AttrsText(before), [' '] + key + "=\"", v1, ",", v2, "\"",
      AttrsText(after), title);
  }

  lemma HeadCommaFree(duration: string, before: seq<Attr>, key: string, v1: string)
    requires ',' !in duration && PlainAttrs(before) && PlainKey(key) && PlainValue(v1)
    ensures ',' !in HeadBeforeComma(duration, before, key, v1)
  {
    AttrsTextNoComma(before);
    PlainValueNoComma(v1);
    assert forall i :: 0 <= i < |key| ==> key[i] != ',';
    NoCommaConcat(ExtinfTag, duration);
    NoCommaConcat(ExtinfTag + duration, AttrsText(before));
    NoCommaConcat([' '], key);
    NoCommaConcat([' '] + key, "=\"");
    NoCommaConcat(ExtinfTag + duration + AttrsText(before), [' '] + key + "=\"");
    NoCommaConcat(ExtinfTag + duration + AttrsText(before) + ([' '] + key + "=\""), v1);
  }

  /** When a value holds a comma, the title is everything after that comma: the rest of
      the value, the attributes written after it and the text after the line's last
      attribute. */
  lemma CommaValueTitle(duration: string, attrs: seq<Attr>, before: seq<Attr>, key: string,
                        v1: string, v2: string, after: seq<Attr>, title: string, rule: LogoRule)
    requires attrs == before + [Attr(key, v1 + "," + v2)] + after
    requires ',' !in duration && PlainAttrs(before) && PlainKey(key) && PlainValue(v1)
    requires NoLineTerminator(TailAfterComma(v2, after, title))
    ensures var line := HeaderText(duration, attrs, title);
      Header(line, rule).Some? && Header(line, rule).value.title == Trim(TailAfterComma(v2, after, title))
  {
    CommaValueText(duration, before, key, v1, v2, after, title);
    HeadCommaFree(duration, before, key, v1);
    TitleOfLine(HeadBeforeComma(duration, before, key, v1), TailAfterComma(v2, after, title), rule);
  }

  lemma {:induction false} TrimStartBefore(a: string, r: string)
    requires r != [] && !IsJsSpace(r[0])
    ensures TrimStart(a + r) == TrimStart(a) + r
    decreases |a|
  {
    if a == [] {
      assert a + r == r;
    } else {
      assert (a + r)[1..] == a[1..] + r;
      TrimStartBefore(a[1..], r);
    }
  }

  lemma {:induction false} TrimEndAfter(r: string, b: string)
    requires r != [] && !IsJsSpace(r[|r| - 1])
    ensures TrimEnd(r + b) == r + TrimEnd(b)
    decreases |b|
  {
    if b == [] {
      assert r + b == r;
    } else {
      var b' := b[..|b| - 1];
      assert (r + b)[..|r + b| - 1] == r + b';
      TrimEndAfter(r, b');
    }
  }

  /** Trimming only reaches into the ends of a text whose middle part starts and ends with
      non-space characters. */
  lemma TrimAround(a: string, m: string, b: string)
    requires m != [] && !IsJsSpace(m[0]) && !IsJsSpace(m[|m| - 1])
    ensures |Trim((a + m) + b)| == |TrimStart(a)| + |m| + |TrimEnd(b)|
  {
    Assoc(a, m, b);
    TrimStartBefore(a, m + b);
    Assoc(TrimStart(a), m, b);
    var r := TrimStart(a) + m;
    assert r[|r| - 1] == m[|m| - 1];
    TrimEndAfter(r, b);
  }

  lemma TailLength(v2: string, after: seq<Attr>, title: string)
    ensures |Trim(TailAfterComma(v2, after, title))| ==
      |TrimStart(v2)| + |AttrsText(after)| + 2 + |TrimEnd(title)|
  {
    var m := "\"" + AttrsText(after) + ",";
    Assoc(v2 + "\"", AttrsText(after), ",");
    Assoc(v2, "\"", AttrsText(after) + ",");
    Assoc(v2, "\"" + AttrsText(after), ",");
    assert TailAfterComma(v2, after, title) == (v2 + m) + title;
    TrimAround(v2, m, title);
  }

  lemma AttrsTextNonEmpty(attrs: seq<Attr>)
    requires attrs != []
    ensures |AttrsText(attrs)| >= 4
  {
    AttrTextChars(attrs[0]);
  }

  /** The title of a line whose comma-holding attribute comes first and of one where it
      comes last. */
  lemma FirstAndLastTitles(duration: string, key: string, v1: string, v2: string,
                           other: seq<Attr>, title: string, rule: LogoRule)
    requires ',' !in duration && PlainKey(key) && PlainValue(v1) && PlainAttrs(other)
    requires NoLineTerminator(TailAfterComma(v2, other, title)) && NoLineTerminator(TailAfterComma(v2, [], title))
    ensures var a := Attr(key, v1 + "," + v2);
      var first := Header(HeaderText(duration, [a] + other, title), rule);
      var last := Header(HeaderText(duration, other + [a], title), rule);
      first.Some? && last.Some? &&
      first.value.title == Trim(TailAfterComma(v2, other, title)) &&
      last.value.title == Trim(TailAfterComma(v2, [], title))
  {
    var a := Attr(key, v1 + "," + v2);
    assert PlainAttrs([]);
    assert [] + [a] + other == [a] + other;
    assert other + [a] + [] == other + [a];
    CommaValueTitle(duration, [a] + other, [], key, v1, v2, other, title, rule);
    CommaValueTitle(duration, other + [a], other, key, v1, v2, [], title, rule);
  }

  /** Not so when a value holds a comma: the title starts after that comma, so writing
      that attribute first or last gives two different titles. */
  lemma CommaInValueMovesTitle(duration: string, key: string, v1: string, v2: string,
                               other: seq<Attr>, title: string, rule: LogoRule)
    requires ',' !in duration && PlainKey(key) && PlainValue(v1) && PlainAttrs(other) && other != []
    requires NoLineTerminator(TailAfterComma(v2, other, title)) && NoLineTerminator(TailAfterComma(v2, [], title))
    ensures var a := Attr(key, v1 + "," + v2);
      var first := Header(HeaderText(duration, [a] + other, title), rule);
      var last := Header(HeaderText(duration, other + [a], title), rule);
      first.Some? && last.Some? && first.value.title != last.value.title
  {
    FirstAndLastTitles(duration, key, v1, v2, other, title, rule);
    TailLength(v2, other, title);
    TailLength(v2, [], title);
    AttrsTextNonEmpty(other);
  }
}
