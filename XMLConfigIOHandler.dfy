/** The text utilities of the Java configuration reader and writer
    (VjConfig.XMLConfigIOHandler): the XML character escaper, a StringBuffer
    search, the whitespace/quote tokenizer that consumes a buffer, and the
    loop that stores the tokens of a property's text as its values. */
module XmlConfigIO {
  import opened Wrappers
  import opened Text

  /** java.lang.StringBuffer, reduced to the operations used here. */
  class StringBuffer {
    var value: string

    constructor (s: string)
      ensures value == s
    {
      value := s;
    }

    /** replace(start, end, str) with end within the buffer. */
    method Replace(start: nat, end: nat, str: string)
      requires start <= end <= |value|
      modifies this
      ensures value == old(value)[..start] + str + old(value)[end..]
    {
      value := value[..start] + str + value[end..];
    }

    /** delete(0, end); an end past the length deletes everything. */
    method DeletePrefix(end: nat)
      modifies this
      ensures value == if end <= |old(value)| then old(value)[end..] else []
    {
      value := if end <= |value| then value[end..] else [];
    }
  }

  /** r is the least index at or after k holding ch, or -1 when there is none. */
  predicate IsFirstFrom(s: string, ch: char, k: int, r: int)
  {
    || (r == -1 && forall i :: 0 <= i < |s| && k <= i ==> s[i] != ch)
    || (0 <= k <= r < |s| && s[r] == ch && forall i :: k <= i < r ==> s[i] != ch)
  }

  /** String.indexOf(ch). */
  function StringIndexOf(s: string, ch: char): (r: int)
    ensures IsFirstFrom(s, ch, 0, r)
  {
    if s == [] then -1
    else if s[0] == ch then 0
    else
      var r := StringIndexOf(s[1..], ch);
      if r == -1 then -1 else r + 1
  }

  /** indexOf(source, ch, startindex): a linear scan from startindex. */
  method IndexOf(source: StringBuffer, ch: char, startindex: int) returns (r: int)
    requires 0 <= startindex
    ensures IsFirstFrom(source.value, ch, startindex, r)
  {
    var i := startindex;
    while i < |source.value|
      invariant startindex <= i
      invariant forall m :: startindex <= m < i && m < |source.value| ==> source.value[m] != ch
    {
      if source.value[i] == ch {
        return i;
      }
      i := i + 1;
    }
    return -1;
  }

  // ---------------------------------------------------------------------
  // Escaping

  /** The entity each special character becomes. */
  function EscapeChar(c: char): string
  {
    if c == '&' then "&amp;"
    else if c == '<' then "&lt;"
    else if c == '>' then "&gt;"
    else [c]
  }

  /** The escaped form of a string, character by character. */
  function Escape(s: string): string
  {
    if s == [] then [] else EscapeChar(s[0]) + Escape(s[1..])
  }

  /** Replacing every occurrence of one character by a string. */
  function ReplaceAll(t: string, ch: char, entity: string): string
  {
    if t == [] then [] else (if t[0] == ch then entity else [t[0]]) + ReplaceAll(t[1..], ch, entity)
  }

  /** Undoing the three entities, as an XML parser does. */
  function Unescape(s: string): string
    decreases |s|
  {
    if |s| >= 5 && s[..5] == "&amp;" then "&" + Unescape(s[5..])
    else if |s| >= 4 && s[..4] == "&lt;" then "<" + Unescape(s[4..])
    else if |s| >= 4 && s[..4] == "&gt;" then ">" + Unescape(s[4..])
    else if s == [] then []
    else [s[0]] + Unescape(s[1..])
  }

  function Count(s: string, c: char): nat
  {
    if s == [] then 0 else (if s[0] == c then 1 else 0) + Count(s[1..], c)
  }

  lemma {:induction false} ReplaceAllAppend(a: string, b: string, ch: char, entity: string)
    ensures ReplaceAll(a + b, ch, entity) == ReplaceAll(a, ch, entity) + ReplaceAll(b, ch, entity)
  {
    if a != [] {
      assert (a + b)[1..] == a[1..] + b;
      ReplaceAllAppend(a[1..], b, ch, entity);
    } else {
      assert a + b == b;
    }
  }

  lemma {:induction false} ReplaceAllAbsent(a: string, ch: char, entity: string)
    requires ch !in a
    ensures ReplaceAll(a, ch, entity) == a
  {
    if a != [] {
      ReplaceAllAbsent(a[1..], ch, entity);
    }
  }

  /** The three replacement passes of escapeString, in their order. */
  function ThreePasses(s: string): string
  {
    ReplaceAll(ReplaceAll(ReplaceAll(s, '&', "&amp;"), '<', "&lt;"), '>', "&gt;")
  }

  lemma ThreePassesAppend(a: string, b: string)
    ensures ThreePasses(a + b) == ThreePasses(a) + ThreePasses(b)
  {
    var a1, b1 := ReplaceAll(a, '&', "&amp;"), ReplaceAll(b, '&', "&amp;");
    var a2, b2 := ReplaceAll(a1, '<', "&lt;"), ReplaceAll(b1, '<', "&lt;");
    ReplaceAllAppend(a, b, '&', "&amp;");
    ReplaceAllAppend(a1, b1, '<', "&lt;");
    ReplaceAllAppend(a2, b2, '>', "&gt;");
  }

  lemma ReplaceAllChar(c: char, ch: char, entity: string)
    ensures ReplaceAll([c], ch, entity) == if c == ch then entity else [c]
  {
    assert [c][1..] == [];
    assert ReplaceAll([], ch, entity) == [];
  }

  lemma ThreePassesChar(c: char)
    ensures ThreePasses([c]) == EscapeChar(c)
  {
    ReplaceAllChar(c, '&', "&amp;");
    if c == '&' {
      ReplaceAllAbsent("&amp;", '<', "&lt;");
      ReplaceAllAbsent("&amp;", '>', "&gt;");
    } else {
      ReplaceAllChar(c, '<', "&lt;");
      if c == '<' {
        ReplaceAllAbsent("&lt;", '>', "&gt;");
      } else {
        ReplaceAllChar(c, '>', "&gt;");
      }
    }
  }

  /** The three passes of escapeString compose to the per-character map. */
  lemma {:induction false} EscapeIsThreePasses(s: string)
    ensures Escape(s) == ThreePasses(s)
  {
    if s != [] {
      assert s == [s[0]] + s[1..];
      ThreePassesAppend([s[0]], s[1..]);
      ThreePassesChar(s[0]);
      EscapeIsThreePasses(s[1..]);
    }
  }

  /** A string without the three special characters is its own escape. */
  lemma {:induction false} EscapeUnchanged(s: string)
    requires '&' !in s && '<' !in s && '>' !in s
    ensures Escape(s) == s
  {
    if s != [] {
      EscapeUnchanged(s[1..]);
    }
  }

  /** Each & grows the text by four characters, each < and > by three. */
  lemma {:induction false} EscapeLength(s: string)
    ensures |Escape(s)| == |s| + 4 * Count(s, '&') + 3 * Count(s, '<') + 3 * Count(s, '>')
  {
    if s != [] {
      EscapeLength(s[1..]);
    }
  }

  /** The escaped text holds no angle bracket. */
  lemma {:induction false} EscapeHasNoAngles(s: string)
    ensures '<' !in Escape(s) && '>' !in Escape(s)
  {
    if s != [] {
      EscapeHasNoAngles(s[1..]);
      assert '<' !in EscapeChar(s[0]) && '>' !in EscapeChar(s[0]);
    }
  }

  /** Undoing the entities gives back the original text. */
  lemma {:induction false} UnescapeEscape(s: string)
    ensures Unescape(Escape(s)) == s
  {
    if s != [] {
      var c := s[0];
      var e := Escape(s);
      var rest := Escape(s[1..]);
      assert e == EscapeChar(c) + rest;
      UnescapeEscape(s[1..]);
      if c == '&' {
        assert e[..5] == "&amp;" && e[5..] == rest;
      } else if c == '<' {
        assert |e| >= 5 ==> e[..5] != "&amp;" by { assert e[1] == 'l'; }
        assert e[..4] == "&lt;" && e[4..] == rest;
      } else if c == '>' {
        assert |e| >= 5 ==> e[..5] != "&amp;" by { assert e[1] == 'g'; }
        assert e[..4] != "&lt;" by { assert e[1] == 'g'; }
        assert e[..4] == "&gt;" && e[4..] == rest;
      } else {
        assert e[0] == c && e[1..] == rest;
        assert |e| >= 5 ==> e[..5] != "&amp;" by { if |e| >= 5 { assert e[..5][0] == c; } }
        assert |e| >= 4 ==> e[..4] != "&lt;" && e[..4] != "&gt;" by { if |e| >= 4 { assert e[..4][0] == c; } }
      }
    }
  }

  /** The first ch at or after the end of done, in done + rest, splits rest
      into a part without ch, ch itself, and the remainder. */
  lemma SplitAtFirst(done: string, rest: string, ch: char, pos: int)
    requires pos != -1 && IsFirstFrom(done + rest, ch, |done|, pos)
    ensures |done| <= pos < |done| + |rest|
    ensures rest[pos - |done|] == ch && ch !in rest[..pos - |done|]
    ensures (done + rest)[..pos] == done + rest[..pos - |done|]
    ensures (done + rest)[pos + 1..] == rest[pos - |done| + 1..]
  {
    var v, d := done + rest, pos - |done|;
    assert v[pos] == rest[d];
    forall i | 0 <= i < d ensures rest[..d][i] != ch {
      assert v[|done| + i] == rest[i];
    }
    assert v[..pos] == done + rest[..d];
    assert v[pos + 1..] == rest[d + 1..];
  }

  /** One replacement inside the pass: the first ch at or after the
      processed prefix of t is the one at pos. */
  lemma ReplaceStep(t: string, ch: char, entity: string, k: nat, pos: int) returns (k': nat)
    requires k <= |t|
    requires pos != -1
    requires IsFirstFrom(ReplaceAll(t[..k], ch, entity) + t[k..], ch, |ReplaceAll(t[..k], ch, entity)|, pos)
    ensures k < k' <= |t|
    ensures var v := ReplaceAll(t[..k], ch, entity) + t[k..];
      && 0 <= pos < |v|
      && v[..pos] + entity + v[pos + 1..] == ReplaceAll(t[..k'], ch, entity) + t[k'..]
    ensures |ReplaceAll(t[..k'], ch, entity)| == pos + |entity|
  {
    var done, rest := ReplaceAll(t[..k], ch, entity), t[k..];
    SplitAtFirst(done, rest, ch, pos);
    var d := pos - |done|;
    var seg := rest[..d];
    k' := k + d + 1;
    assert t[..k'] == t[..k] + seg + [ch];
    assert t[k'..] == rest[d + 1..];
    ReplaceAllAppend(t[..k] + seg, [ch], ch, entity);
    ReplaceAllAppend(t[..k], seg, ch, entity);
    ReplaceAllAbsent(seg, ch, entity);
    ReplaceAllChar(ch, ch, entity);
    assert ReplaceAll(t[..k'], ch, entity) == done + seg + entity;
  }

  /** The search restarted just after pos skips the rest of the entity. */
  lemma SkipEntity(v: string, ch: char, entity: string, pos: int, np: int)
    requires 0 <= pos && pos + |entity| <= |v| && |entity| > 0
    requires v[pos..pos + |entity|] == entity && ch !in entity[1..]
    requires IsFirstFrom(v, ch, pos + 1, np)
    ensures IsFirstFrom(v, ch, pos + |entity|, np)
  {
  }

  /** The state of a replacement pass over t: the first k characters of t
      are replaced, the rest is as in t, and pos is the first ch after the
      replaced part. */
  ghost predicate PassState(t: string, ch: char, entity: string, k: nat, v: string, pos: int)
  {
    && k <= |t|
    && v == ReplaceAll(t[..k], ch, entity) + t[k..]
    && IsFirstFrom(v, ch, |ReplaceAll(t[..k], ch, entity)|, pos)
  }

  /** One iteration of a pass: replacing the ch at pos and searching again
      from pos + 1 extends the replaced part of t. */
  lemma PassStep(t: string, ch: char, entity: string, k: nat, v: string, pos: int, w: string, next: int)
    returns (k': nat)
    requires |entity| > 0 && ch !in entity[1..]
    requires PassState(t, ch, entity, k, v, pos) && 0 <= pos < |v|
    requires w == v[..pos] + entity + v[pos + 1..]
    requires IsFirstFrom(w, ch, pos + 1, next)
    ensures k < k' <= |t|
    ensures PassState(t, ch, entity, k', w, next)
  {
    k' := ReplaceStep(t, ch, entity, k, pos);
    assert w[pos..pos + |entity|] == entity;
    SkipEntity(w, ch, entity, pos, next);
  }

  /** A pass with no ch left after the replaced part has replaced all of t. */
  lemma PassDone(t: string, ch: char, entity: string, k: nat, v: string)
    requires PassState(t, ch, entity, k, v, -1)
    ensures v == ReplaceAll(t, ch, entity)
  {
    var done, rest := ReplaceAll(t[..k], ch, entity), t[k..];
    assert ch !in rest by {
      forall j | 0 <= j < |rest| ensures rest[j] != ch {
        assert v[|done| + j] == rest[j];
      }
    }
    ReplaceAllAbsent(rest, ch, entity);
    ReplaceAllAppend(t[..k], rest, ch, entity);
    assert t[..k] + rest == t;
  }

  /** One replacement loop of escapeString: pos starts at the first ch of
      the buffer and, after each replacement, moves to the next ch after it. */
  method ReplacePass(s: StringBuffer, ch: char, entity: string, pos0: int, ghost t: string)
    requires |entity| > 0 && ch !in entity[1..]
    requires s.value == t && IsFirstFrom(t, ch, 0, pos0)
    modifies s
    ensures s.value == ReplaceAll(t, ch, entity)
  {
    var pos := pos0;
    ghost var k: nat := 0;
    assert t[..0] == [] && t[0..] == t;
    while pos != -1
      invariant PassState(t, ch, entity, k, s.value, pos)
      decreases |t| - k
    {
      ghost var v := s.value;
      s.Replace(pos, pos + 1, entity);
      var next := IndexOf(s, ch, pos + 1);
      k := PassStep(t, ch, entity, k, v, pos, s.value, next);
      pos := next;
    }
    PassDone(t, ch, entity, k, s.value);
  }

  /** escapeString: returns the input itself when it holds none of &, < and
      >; otherwise replaces the ampersands, then the less-than signs, then
      the greater-than signs, in a buffer. */
  method EscapeString(original: string) returns (r: string)
    ensures r == Escape(original)
  {
    var amppos := StringIndexOf(original, '&');
    var lpos := StringIndexOf(original, '<');
    var gpos := StringIndexOf(original, '>');
    if amppos == -1 && lpos == -1 && gpos == -1 {
      EscapeUnchanged(original);
      return original;
    }
    var s := new StringBuffer(original);
    ReplacePass(s, '&', "&amp;", amppos, original);
    ghost var t1 := s.value;
    lpos := IndexOf(s, '<', 0);
    ReplacePass(s, '<', "&lt;", lpos, t1);
    ghost var t2 := s.value;
    gpos := IndexOf(s, '>', 0);
    ReplacePass(s, '>', "&gt;", gpos, t2);
    EscapeIsThreePasses(original);
    return s.value;
  }

  // ---------------------------------------------------------------------
  // Tokenizing

  /** The first index at or after i that is not whitespace, or |b|. */
  function SkipSpace(b: string, i: nat): (k: nat)
    requires i <= |b|
    ensures i <= k <= |b|
    decreases |b| - i
  {
    if i == |b| || !IsWhitespace(b[i]) then i else SkipSpace(b, i + 1)
  }

  /** SkipSpace passes over whitespace only and stops at the first
      character that is not whitespace. */
  lemma {:induction false} SkipSpaceSpec(b: string, i: nat)
    requires i <= |b|
    ensures forall m :: i <= m < SkipSpace(b, i) ==> IsWhitespace(b[m])
    ensures SkipSpace(b, i) < |b| ==> !IsWhitespace(b[SkipSpace(b, i)])
    decreases |b| - i
  {
    if i < |b| && IsWhitespace(b[i]) {
      SkipSpaceSpec(b, i + 1);
    }
  }

  /** The first index at or after j holding a double quote, or |b|. */
  function FindQuote(b: string, j: nat): (k: nat)
    requires j <= |b|
    ensures j <= k <= |b|
    decreases |b| - j
  {
    if j == |b| || b[j] == '"' then j else FindQuote(b, j + 1)
  }

  /** FindQuote passes over non-quotes only and stops at the first quote. */
  lemma {:induction false} FindQuoteSpec(b: string, j: nat)
    requires j <= |b|
    ensures forall m :: j <= m < FindQuote(b, j) ==> b[m] != '"'
    ensures FindQuote(b, j) < |b| ==> b[FindQuote(b, j)] == '"'
    decreases |b| - j
  {
    if j < |b| && b[j] != '"' {
      FindQuoteSpec(b, j + 1);
    }
  }

  /** The first index at or after j that is whitespace, or |b|. */
  function FindSpace(b: string, j: nat): (k: nat)
    requires j <= |b|
    ensures j <= k <= |b|
    decreases |b| - j
  {
    if j == |b| || IsWhitespace(b[j]) then j else FindSpace(b, j + 1)
  }

  /** FindSpace passes over non-whitespace only and stops at the first
      whitespace character. */
  lemma {:induction false} FindSpaceSpec(b: string, j: nat)
    requires j <= |b|
    ensures forall m :: j <= m < FindSpace(b, j) ==> !IsWhitespace(b[m])
    ensures FindSpace(b, j) < |b| ==> IsWhitespace(b[FindSpace(b, j)])
    decreases |b| - j
  {
    if j < |b| && !IsWhitespace(b[j]) {
      FindSpaceSpec(b, j + 1);
    }
  }

  /** stringTokenizer on buffer contents b: the token (None for null) and
      what is left in the buffer. */
  function Tokenize(b: string): (r: (Option<string>, string))
    ensures r.0.None? ==> r.1 == b
    ensures r.0.Some? ==> |r.1| < |b|
  {
    var i := SkipSpace(b, 0);
    if i == |b| then (None, b)
    else if b[i] == '"' then
      var j := FindQuote(b, i + 1);
      (Some(b[i + 1..j]), if j + 1 <= |b| then b[j + 1..] else [])
    else
      var j := FindSpace(b, i + 1);
      (Some(b[i..j]), b[j..])
  }

  /** There is no token exactly when the buffer is empty or all whitespace. */
  lemma TokenizeNoneIff(b: string)
    ensures Tokenize(b).0.None? <==> forall m :: 0 <= m < |b| ==> IsWhitespace(b[m])
  {
    SkipSpaceSpec(b, 0);
    if forall m :: 0 <= m < |b| ==> IsWhitespace(b[m]) {
      var i := SkipSpace(b, 0);
      if i < |b| {
        assert false;
      }
    }
  }

  /** An unquoted token is the non-empty, whitespace-free run after the
      leading whitespace; the buffer keeps everything from the whitespace
      (or end) that ends it. */
  lemma UnquotedToken(b: string)
    requires Tokenize(b).0.Some?
    requires b[SkipSpace(b, 0)] != '"'
    ensures var (t, rest) := Tokenize(b); var i := SkipSpace(b, 0);
      && |t.value| > 0
      && (forall m :: 0 <= m < |t.value| ==> !IsWhitespace(t.value[m]))
      && b == b[..i] + t.value + rest
      && (rest == [] || IsWhitespace(rest[0]))
  {
    var i := SkipSpace(b, 0);
    var j := FindSpace(b, i + 1);
    SkipSpaceSpec(b, 0);
    FindSpaceSpec(b, i + 1);
    assert Tokenize(b) == (Some(b[i..j]), b[j..]);
    SplitRun(b, i, j);
  }

  /** Cutting b at i and j, where b[i..j] holds no whitespace. */
  lemma SplitRun(b: string, i: nat, j: nat)
    requires i <= j <= |b|
    requires forall m :: i <= m < j ==> !IsWhitespace(b[m])
    ensures forall m :: 0 <= m < |b[i..j]| ==> !IsWhitespace(b[i..j][m])
    ensures b == b[..i] + b[i..j] + b[j..]
  {
    assert forall m :: 0 <= m < |b[i..j]| ==> b[i..j][m] == b[i + m];
  }

  /** A quoted token is the text between the opening quote and the next
      quote, or the end of the buffer; the buffer loses the closing quote. */
  lemma QuotedToken(b: string)
    requires Tokenize(b).0.Some?
    requires b[SkipSpace(b, 0)] == '"'
    ensures var (t, rest) := Tokenize(b); var i := SkipSpace(b, 0);
      && '"' !in t.value
      && (b == b[..i + 1] + t.value + "\"" + rest || (rest == [] && b == b[..i + 1] + t.value))
  {
    var i := SkipSpace(b, 0);
    var j := FindQuote(b, i + 1);
    FindQuoteSpec(b, i + 1);
    if j < |b| {
      assert b == b[..i + 1] + b[i + 1..j] + [b[j]] + b[j + 1..];
    } else {
      assert b == b[..i + 1] + b[i + 1..j];
    }
  }

  /** stringTokenizer: skips whitespace, then takes a quoted or an unquoted
      token and deletes the buffer up to where the token ends. */
  method StringTokenizer(buf: StringBuffer) returns (s: Option<string>)
    modifies buf
    ensures (s, buf.value) == Tokenize(old(buf.value))
  {
    ghost var b := buf.value;
    var n := |buf.value|;
    var i := 0;
    while i < n
      invariant 0 <= i <= n == |b| && buf.value == b
      invariant forall m :: 0 <= m < i ==> IsWhitespace(b[m])
    {
      var ch := buf.value[i];
      if IsWhitespace(ch) {
        i := i + 1;
        continue;
      }
      if ch == '"' {
        var j := i + 1;
        while j < n && buf.value[j] != '"'
          invariant i + 1 <= j <= n
          invariant forall m :: i + 1 <= m < j ==> b[m] != '"'
        {
          j := j + 1;
        }
        QuotedAt(b, i, j);
        s := Some(buf.value[i + 1..j]);
        buf.DeletePrefix(j + 1);
        return;
      } else {
        var j := i + 1;
        while j < n && !IsWhitespace(buf.value[j])
          invariant i + 1 <= j <= n
          invariant forall m :: i + 1 <= m < j ==> !IsWhitespace(b[m])
        {
          j := j + 1;
        }
        UnquotedAt(b, i, j);
        s := Some(buf.value[i..j]);
        buf.DeletePrefix(j);
        return;
      }
    }
    SkipSpaceAt(b, n);
    return None;
  }

  /** The quoted token that starts after leading whitespace at i and runs
      to the quote (or end) at j. */
  lemma QuotedAt(b: string, i: nat, j: nat)
    requires i < j <= |b|
    requires forall m :: 0 <= m < i ==> IsWhitespace(b[m])
    requires b[i] == '"'
    requires forall m :: i + 1 <= m < j ==> b[m] != '"'
    requires j < |b| ==> b[j] == '"'
    ensures Tokenize(b) == (Some(b[i + 1..j]), if j + 1 <= |b| then b[j + 1..] else [])
  {
    SkipSpaceAt(b, i);
    FindQuoteAt(b, i + 1, j);
  }

  /** The unquoted token that starts after leading whitespace at i and runs
      to the whitespace (or end) at j. */
  lemma UnquotedAt(b: string, i: nat, j: nat)
    requires i < j <= |b|
    requires forall m :: 0 <= m < i ==> IsWhitespace(b[m])
    requires !IsWhitespace(b[i]) && b[i] != '"'
    requires forall m :: i + 1 <= m < j ==> !IsWhitespace(b[m])
    requires j < |b| ==> IsWhitespace(b[j])
    ensures Tokenize(b) == (Some(b[i..j]), b[j..])
  {
    SkipSpaceAt(b, i);
    FindSpaceAt(b, i + 1, j);
  }

  lemma SkipSpaceAt(b: string, i: nat)
    requires i <= |b|
    requires forall m :: 0 <= m < i ==> IsWhitespace(b[m])
    requires i < |b| ==> !IsWhitespace(b[i])
    ensures SkipSpace(b, 0) == i
  {
    var k := SkipSpace(b, 0);
    SkipSpaceSpec(b, 0);
    if k < i {
      assert false;
    } else if i < k {
      assert false;
    }
  }

  lemma FindQuoteAt(b: string, j0: nat, j: nat)
    requires j0 <= j <= |b|
    requires forall m :: j0 <= m < j ==> b[m] != '"'
    requires j < |b| ==> b[j] == '"'
    ensures FindQuote(b, j0) == j
  {
    var k := FindQuote(b, j0);
    FindQuoteSpec(b, j0);
    if k < j {
      assert false;
    } else if j < k {
      assert false;
    }
  }

  lemma FindSpaceAt(b: string, j0: nat, j: nat)
    requires j0 <= j <= |b|
    requires forall m :: j0 <= m < j ==> !IsWhitespace(b[m])
    requires j < |b| ==> IsWhitespace(b[j])
    ensures FindSpace(b, j0) == j
  {
    var k := FindSpace(b, j0);
    FindSpaceSpec(b, j0);
    if k < j {
      assert false;
    } else if j < k {
      assert false;
    }
  }

  /** The successive tokens stringTokenizer yields until it returns null. */
  function Tokens(text: string): seq<string>
    decreases |text|
  {
    var (t, rest) := Tokenize(text);
    if t.None? then [] else [t.value] + Tokens(rest)
  }

  /** Text without quotes splits into non-empty, whitespace-free tokens. */
  lemma {:induction false} UnquotedTokens(text: string)
    requires '"' !in text
    ensures forall k :: 0 <= k < |Tokens(text)| ==>
      |Tokens(text)[k]| > 0 && forall m :: 0 <= m < |Tokens(text)[k]| ==> !IsWhitespace(Tokens(text)[k][m])
    decreases |text|
  {
    var (t, rest) := Tokenize(text);
    if t.Some? {
      UnquotedToken(text);
      assert text == text[..SkipSpace(text, 0)] + t.value + rest;
      assert '"' !in rest;
      UnquotedTokens(rest);
    }
  }

  // ---------------------------------------------------------------------
  // Property values

  /** The value types a property can hold. */
  datatype ValType = StringType | IntType | FloatType | BoolType | ChunkType | EmbeddedChunkType

  /** A value stored in a property: a chunk name, or what the property
      description's getEnumValue, which is not part of this model, makes of a
      token. */
  datatype VarValue = ChunkName(name: string) | EnumValueOf(token: string)

  /** The value a token becomes in a property of type vt. */
  function ValueOf(vt: ValType, tok: string): VarValue
  {
    if vt == ChunkType then ChunkName(tok) else EnumValueOf(tok)
  }

  function AsValues(vt: ValType, toks: seq<string>): (r: seq<VarValue>)
    ensures |r| == |toks|
  {
    if toks == [] then [] else AsValues(vt, toks[..|toks| - 1]) + [ValueOf(vt, toks[|toks| - 1])]
  }

  /** The k-th value is what the k-th token becomes. */
  lemma {:induction false} AsValuesSpec(vt: ValType, toks: seq<string>)
    ensures forall k :: 0 <= k < |toks| ==> AsValues(vt, toks)[k] == ValueOf(vt, toks[k])
    decreases |toks|
  {
    if toks != [] {
      AsValuesSpec(vt, toks[..|toks| - 1]);
    }
  }

  /** The values of m after storing vs at consecutive indices from start. */
  function Stored(m: map<int, VarValue>, start: int, vs: seq<VarValue>): map<int, VarValue>
    decreases |vs|
  {
    if vs == [] then m else Stored(m[start := vs[0]], start + 1, vs[1..])
  }

  /** Storing puts the k-th value at start + k, keeps every index outside
      the stored range and adds no other index. */
  lemma {:induction false} StoredSpec(m: map<int, VarValue>, start: int, vs: seq<VarValue>)
    ensures forall i :: start <= i < start + |vs| ==> i in Stored(m, start, vs) && Stored(m, start, vs)[i] == vs[i - start]
    ensures forall i :: i in m && !(start <= i < start + |vs|) ==> i in Stored(m, start, vs) && Stored(m, start, vs)[i] == m[i]
    ensures forall i :: i in Stored(m, start, vs) ==> i in m || start <= i < start + |vs|
    decreases |vs|
  {
    if vs != [] {
      var m' := m[start := vs[0]];
      assert Stored(m, start, vs) == Stored(m', start + 1, vs[1..]);
      StoredSpec(m', start + 1, vs[1..]);
    }
  }

  lemma {:induction false} StoredSnoc(m: map<int, VarValue>, start: int, vs: seq<VarValue>, v: VarValue)
    ensures Stored(m, start, vs + [v]) == Stored(m, start, vs)[start + |vs| := v]
    decreases |vs|
  {
    if vs == [] {
      assert Stored(m, start, [v]) == Stored(m[start := v], start + 1, []);
    } else {
      assert (vs + [v])[1..] == vs[1..] + [v];
      StoredSnoc(m[start := vs[0]], start + 1, vs[1..], v);
    }
  }

  /** When stringTokenizer returns null, every token has been stored. */
  lemma ParseEnd(text: string, done: seq<string>, before: string)
    requires Tokens(text) == done + Tokens(before)
    requires Tokenize(before).0.None?
    ensures done == Tokens(text)
  {
    assert Tokens(before) == [];
  }

  /** One iteration of parseTextValues: the next token is the next one of
      the text, and is stored at the next index. */
  lemma TokensStep(text: string, done: seq<string>, before: string, tok: string, after: string)
    requires Tokens(text) == done + Tokens(before)
    requires Tokenize(before) == (Some(tok), after)
    ensures Tokens(text) == (done + [tok]) + Tokens(after)
  {
    assert Tokens(before) == [tok] + Tokens(after);
  }

  lemma StoreStep(m: map<int, VarValue>, start: int, vt: ValType, done: seq<string>, tok: string)
    ensures Stored(m, start, AsValues(vt, done))[start + |done| := ValueOf(vt, tok)]
            == Stored(m, start, AsValues(vt, done + [tok]))
  {
    assert (done + [tok])[..|done|] == done;
    StoredSnoc(m, start, AsValues(vt, done), ValueOf(vt, tok));
  }

  /** A property: its value type and its values by index. Property.setValue,
      which is not part of this model, is taken to store a value at an
      index. */
  class Property {
    const valType: ValType
    var values: map<int, VarValue>

    constructor (vt: ValType)
      ensures valType == vt && values == map[]
    {
      valType := vt;
      values := map[];
    }
  }

  /** The error and warning log of a read. */
  class ConfigIOStatus {
    var errors: seq<string>

    constructor ()
      ensures errors == []
    {
      errors := [];
    }
  }

  const UNEXPECTED_TYPE_ERROR: string := "THIS SHOULD NOT HAPPEN in XMLConfigIOHandler.parseTextValues()."

  /** parseTextValues: stores the tokens of text at startval, startval + 1,
      ... as chunk names (for a chunk property) or enumeration values (for
      string, int, float and bool properties); any other value type is an
      error and stores nothing. */
  method ParseTextValues(p: Property, startval: int, text: string, iostatus: ConfigIOStatus)
    modifies p, iostatus
    ensures p.valType != EmbeddedChunkType ==>
      p.values == Stored(old(p.values), startval, AsValues(p.valType, Tokens(text)))
      && iostatus.errors == old(iostatus.errors)
    ensures p.valType == EmbeddedChunkType ==>
      p.values == old(p.values) && iostatus.errors == old(iostatus.errors) + [UNEXPECTED_TYPE_ERROR]
  {
    var buf := new StringBuffer(text);
    var vt := p.valType;
    if vt == EmbeddedChunkType {
      iostatus.errors := iostatus.errors + [UNEXPECTED_TYPE_ERROR];
      return;
    }
    var index := startval;
    ghost var done: seq<string> := [];
    while true
      invariant Tokens(text) == done + Tokens(buf.value)
      invariant index == startval + |done|
      invariant p.values == Stored(old(p.values), startval, AsValues(vt, done))
      invariant iostatus.errors == old(iostatus.errors)
      decreases |buf.value|
    {
      ghost var before := buf.value;
      var s := StringTokenizer(buf);
      if s.None? {
        ParseEnd(text, done, before);
        break;
      }
      TokensStep(text, done, before, s.value, buf.value);
      StoreStep(old(p.values), startval, vt, done, s.value);
      p.values := p.values[index := ValueOf(vt, s.value)];
      index := index + 1;
      done := done + [s.value];
    }
  }
}
