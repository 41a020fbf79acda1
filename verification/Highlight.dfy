/** Printing piece by piece, and reading back what was printed. */
module Printing {

  function Concat<T>(xs: seq<T>, f: T -> string): string {
    if xs == [] then "" else f(xs[0]) + Concat(xs[1..], f)
  }

  lemma {:induction false} ConcatJoin<T>(a: seq<T>, b: seq<T>, f: T -> string)
    ensures Concat(a + b, f) == Concat(a, f) + Concat(b, f)
  {
    if a == [] {
      assert a + b == b;
    } else {
      ConcatJoin(a[1..], b, f);
      assert (a + b)[1..] == a[1..] + b && (a + b)[0] == a[0];
      Associative(f(a[0]), Concat(a[1..], f), Concat(b, f));
    }
  }

  lemma Associative<T>(a: seq<T>, b: seq<T>, c: seq<T>)
    ensures a + b + c == a + (b + c)
  {
  }

  lemma ConcatOne<T>(x: T, f: T -> string)
    ensures Concat([x], f) == f(x)
  {
  }

  lemma ConcatMore<T>(xs: seq<T>, x: T, f: T -> string)
    ensures Concat(xs + [x], f) == Concat(xs, f) + f(x)
  {
    ConcatJoin(xs, [x], f);
    ConcatOne(x, f);
  }

  /** From what `f` prints of any of `xs`, whatever follows, `read` makes what `g` gives. */
  ghost predicate Reads<T(!new)>(read: string -> string, xs: seq<T>, f: T -> string, g: T -> string) {
    forall x, h :: x in xs ==> read(f(x) + h) == g(x) + read(h)
  }

  lemma {:induction false} ReadConcat<T(!new)>(read: string -> string, xs: seq<T>, f: T -> string, g: T -> string,
                                               h: string)
    requires Reads(read, xs, f, g)
    ensures read(Concat(xs, f) + h) == Concat(xs, g) + read(h)
  {
    if xs == [] {
      assert Concat(xs, f) + h == h;
    } else {
      var rest := Concat(xs[1..], f) + h;
      ReadConcat(read, xs[1..], f, g, h);
      Associative(f(xs[0]), Concat(xs[1..], f), h);
      Associative(g(xs[0]), Concat(xs[1..], g), read(h));
      assert xs[0] in xs && read(f(xs[0]) + rest) == g(xs[0]) + read(rest);
    }
  }

  function Single(c: char): string { [c] }

  lemma {:induction false} ConcatSingles(s: string)
    ensures Concat(s, Single) == s
  {
    if s != "" { ConcatSingles(s[1..]); }
  }
}

/** The configuration highlighter (internal/web/highlight.go) as a printer that never changes the text it colours, and
    its string scanner against the printer of string literals (hclString in internal/export/export.go). Strings stand
    for Go's byte strings. */
module Highlighting {
  import opened Types
  import opened Printing

  // ---- HTML ----

  function EscapeChar(c: char): string {
    match c
    case '&' => "&amp;"
    case '<' => "&lt;"
    case '>' => "&gt;"
    case '"' => "&#34;"
    case '\'' => "&#39;"
    case _ => [c]
  }

  /** html.EscapeString. */
  function Escape(s: string): string { Concat(s, EscapeChar) }

  /** What is after the first '>'. */
  function AfterTag(h: string): (r: string)
    ensures |r| <= |h| && (h != "" ==> |r| < |h|)
  {
    if h == "" then "" else if h[0] == '>' then h[1..] else AfterTag(h[1..])
  }

  /** The character at the head of escaped text and the length of its escape. */
  function Unescaped(h: string): (r: (char, nat))
    requires h != ""
    ensures 1 <= r.1 <= |h|
  {
    if h[0] != '&' || |h| < 4 then (h[0], 1)
    else if h[1] == 'l' && h[2] == 't' && h[3] == ';' then ('<', 4)
    else if h[1] == 'g' && h[2] == 't' && h[3] == ';' then ('>', 4)
    else if |h| < 5 || h[4] != ';' then (h[0], 1)
    else if h[1] == 'a' && h[2] == 'm' && h[3] == 'p' then ('&', 5)
    else if h[1] == '#' && h[2] == '3' && h[3] == '4' then ('"', 5)
    else if h[1] == '#' && h[2] == '3' && h[3] == '9' then ('\'', 5)
    else (h[0], 1)
  }

  /** What a reader of rendered HTML sees: tags removed, entities resolved. */
  function Text(h: string): string
    decreases |h|
  {
    if h == "" then ""
    else if h[0] == '<' then Text(AfterTag(h))
    else [Unescaped(h).0] + Text(h[Unescaped(h).1..])
  }

  lemma UnescapedChar(c: char, h: string)
    ensures Unescaped(EscapeChar(c) + h) == (c, |EscapeChar(c)|) && (EscapeChar(c) + h)[0] != '<'
  {
  }

  lemma TextOfEscapedChar(c: char, h: string)
    ensures Text(EscapeChar(c) + h) == Single(c) + Text(h)
  {
    UnescapedChar(c, h);
    assert (EscapeChar(c) + h)[|EscapeChar(c)|..] == h;
  }

  lemma TextOfEscaped(s: string, h: string)
    ensures Text(Escape(s) + h) == s + Text(h)
  {
    forall c, k | c in s ensures Text(EscapeChar(c) + k) == Single(c) + Text(k) { TextOfEscapedChar(c, k); }
    ReadConcat(Text, s, EscapeChar, Single, h);
    ConcatSingles(s);
  }

  lemma EscapeCharIsInert(c: char)
    ensures forall d :: d in EscapeChar(c) ==> d != '<' && d != '>' && d != '"' && d != '\''
  {
  }

  /** Escaped text can neither open nor close a tag or an attribute. */
  lemma {:induction false} EscapedIsInert(s: string)
    ensures forall c :: c in Escape(s) ==> c != '<' && c != '>' && c != '"' && c != '\''
  {
    if s != "" {
      EscapedIsInert(s[1..]);
      EscapeCharIsInert(s[0]);
      assert Escape(s) == EscapeChar(s[0]) + Escape(s[1..]);
    }
  }

  // ---- tokens ----

  datatype Tok = Tok(cls: string, text: string)

  predicate KnownClass(c: string) { c in {"", "comment", "str", "num", "kw", "ref", "attr", "punct"} }

  function OpenTag(cls: string): string { "<span class=\"t-" + cls + "\">" }

  const CLOSE_TAG := "</span>"

  /** token: the text in a span of its class, escaped. */
  function Token(t: Tok): string {
    if t.text == "" then ""
    else if t.cls == "" then Escape(t.text)
    else OpenTag(t.cls) + Escape(t.text) + CLOSE_TAG
  }

  function TextOf(t: Tok): string { t.text }

  function Render(toks: seq<Tok>): string { Concat(toks, Token) }

  function Texts(toks: seq<Tok>): string { Concat(toks, TextOf) }

  predicate IsTag(tag: string) {
    |tag| >= 2 && tag[0] == '<' && tag[|tag| - 1] == '>' && forall i :: 0 <= i < |tag| - 1 ==> tag[i] != '>'
  }

  lemma {:induction false} AfterTagOf(tag: string, h: string)
    requires tag != "" && tag[|tag| - 1] == '>' && forall i :: 0 <= i < |tag| - 1 ==> tag[i] != '>'
    ensures AfterTag(tag + h) == h
  {
    assert (tag + h)[1..] == tag[1..] + h;
    if |tag| > 1 { AfterTagOf(tag[1..], h); }
  }

  lemma TextOfTag(tag: string, h: string)
    requires IsTag(tag)
    ensures Text(tag + h) == Text(h)
  {
    AfterTagOf(tag, h);
    assert (tag + h)[0] == '<';
  }

  lemma SpanTags(cls: string)
    requires KnownClass(cls)
    ensures IsTag(OpenTag(cls)) && IsTag(CLOSE_TAG)
  {
  }

  lemma TextOfToken(t: Tok, h: string)
    requires KnownClass(t.cls)
    ensures Text(Token(t) + h) == TextOf(t) + Text(h)
  {
    if t.text == "" {
      assert Token(t) + h == h;
    } else if t.cls == "" {
      TextOfEscaped(t.text, h);
    } else {
      SpanTags(t.cls);
      SpanReads(OpenTag(t.cls), t.text, CLOSE_TAG, h);
    }
  }

  lemma SpanReads(open: string, text: string, close: string, h: string)
    requires IsTag(open) && IsTag(close)
    ensures Text(open + Escape(text) + close + h) == text + Text(h)
  {
    var e := Escape(text);
    assert open + e + close + h == open + (e + (close + h));
    TextOfTag(open, e + (close + h));
    TextOfEscaped(text, close + h);
    TextOfTag(close, h);
  }

  ghost predicate KnownClasses(toks: seq<Tok>) { forall t :: t in toks ==> KnownClass(t.cls) }

  /** Rendering only adds colour: what a reader sees is the text of the tokens. */
  lemma TextOfRendered(toks: seq<Tok>, h: string)
    requires KnownClasses(toks)
    ensures Text(Render(toks) + h) == Texts(toks) + Text(h)
  {
    forall t, k | t in toks ensures Text(Token(t) + k) == TextOf(t) + Text(k) { TextOfToken(t, k); }
    ReadConcat(Text, toks, Token, TextOf, h);
  }

  // ---- scanners ----

  /** How many characters at the head of `s` satisfy `part`. */
  function Span(s: string, part: char -> bool): (n: nat)
    ensures n <= |s| && (forall i :: 0 <= i < n ==> part(s[i])) && (n < |s| ==> !part(s[n]))
  {
    if s != "" && part(s[0]) then 1 + Span(s[1..], part) else 0
  }

  predicate IsSpace(c: char) { c == ' ' }

  predicate IsBlank(c: char) { c == ' ' || c == '\t' }

  /** strings.TrimLeft. */
  function TrimLeft(s: string, cut: char -> bool): (r: string)
    ensures |r| <= |s| && s == s[..|s| - |r|] + r
  {
    s[Span(s, cut)..]
  }

  predicate IsDigit(c: char) { '0' <= c <= '9' }

  predicate IsIdentStart(c: char) { c == '_' || 'a' <= c <= 'z' || 'A' <= c <= 'Z' }

  predicate IsIdentPart(c: char) { IsIdentStart(c) || IsDigit(c) || c == '-' }

  predicate IsNumberPart(c: char) { c == '.' || IsDigit(c) }

  /** Where a string literal ends that has been read up to `end`: past the next quote that no backslash precedes, or
      past the end of the line. */
  function StringEnd(s: string, end: nat): (e: nat)
    ensures e >= end
    decreases |s| - end
  {
    if end >= |s| then end
    else if s[end] == '\\' then StringEnd(s, end + 2)
    else if s[end] == '"' then end + 1
    else StringEnd(s, end + 1)
  }

  function HclString(s: string): (r: string)
    requires s != ""
    ensures 1 <= |r| <= |s| && r == s[..|r|]
  {
    var e := StringEnd(s, 1);
    if e > |s| then s else s[..e]
  }

  method ScanHCLString(s: string) returns (r: string)
    requires s != ""
    ensures r == HclString(s)
  {
    var end := 1;
    while end < |s|
      invariant 1 <= end && StringEnd(s, end) == StringEnd(s, 1)
      decreases |s| - end
    {
      if s[end] == '\\' {
        end := end + 2;
        continue;
      }
      if s[end] == '"' {
        end := end + 1;
        return s[..end];
      }
      end := end + 1;
    }
    if end > |s| {
      return s;
    }
    return s[..end];
  }

  method ScanWhile(s: string, part: char -> bool) returns (r: string)
    ensures r == s[..Span(s, part)]
  {
    var end := 0;
    while end < |s| && part(s[end])
      invariant 0 <= end <= |s| && forall i :: 0 <= i < end ==> part(s[i])
    {
      end := end + 1;
    }
    SpanIsUnique(s, part, end);
    return s[..end];
  }

  lemma SpanIsUnique(s: string, part: char -> bool, n: nat)
    requires n <= |s| && (forall i :: 0 <= i < n ==> part(s[i])) && (n < |s| ==> !part(s[n]))
    ensures n == Span(s, part)
  {
  }

  // ---- HCL ----

  const HCL_KEYWORDS := {"resource", "variable", "provider", "terraform", "required_providers", "module", "output",
                         "data", "locals", "true", "false", "null"}

  function HclIdentClass(word: string, rest: string): (c: string)
    ensures KnownClass(c)
  {
    if word in HCL_KEYWORDS then "kw"
    else if "." <= rest then "ref"
    else if "=" <= TrimLeft(rest, IsBlank) then "attr"
    else ""
  }

  /** A word is an attribute name exactly when it is no keyword, no reference, and an equals sign follows after
      blanks. */
  lemma AttributesAreFollowedByEquals(word: string, rest: string)
    ensures HclIdentClass(word, rest) == "attr" <==>
              && word !in HCL_KEYWORDS && !("." <= rest)
              && exists n :: 0 <= n < |rest| && rest[n] == '=' && forall i :: 0 <= i < n ==> IsBlank(rest[i])
  {
    var n := Span(rest, IsBlank);
    assert "=" <= TrimLeft(rest, IsBlank) <==> n < |rest| && rest[n] == '=';
    forall m | 0 <= m < |rest| && rest[m] == '=' && forall i :: 0 <= i < m ==> IsBlank(rest[i]) ensures m == n {
      SpanIsUnique(rest, IsBlank, m);
    }
  }

  /** The token at the head of a line; it consumes something. */
  function HclToken(rest: string): (t: Tok)
    requires rest != ""
    ensures 1 <= |t.text| <= |rest| && t.text == rest[..|t.text|] && KnownClass(t.cls)
  {
    if rest[0] == '"' then Tok("str", HclString(rest))
    else if IsIdentStart(rest[0]) then
      var n := Span(rest, IsIdentPart);
      Tok(HclIdentClass(rest[..n], rest[n..]), rest[..n])
    else if IsDigit(rest[0]) then Tok("num", rest[..Span(rest, IsNumberPart)])
    else Tok("", rest[..1])
  }

  predicate Letter(c: char) { c == '_' || 'a' <= c <= 'z' || 'A' <= c <= 'Z' }

  predicate InWord(c: char) { Letter(c) || '0' <= c <= '9' || c == '-' }

  predicate InNumber(c: char) { '0' <= c <= '9' || c == '.' }

  /** A word is a keyword if it is one of twelve, else a reference if a dot follows. */
  lemma WordClassIs(word: string, rest: string)
    ensures HclIdentClass(word, rest) == "kw" <==>
              word in {"resource", "variable", "provider", "terraform", "required_providers", "module", "output",
                       "data",
                       "locals", "true", "false", "null"}
    ensures HclIdentClass(word, rest) == "ref" <==>
              HclIdentClass(word, rest) != "kw" && rest != "" && rest[0] == '.'
  {
  }

  /** After a letter or an underscore comes a word of letters, digits, underscores and dashes. */
  lemma WordsAre(rest: string)
    requires rest != "" && Letter(rest[0])
    ensures var t := HclToken(rest);
            var n := |t.text|;
            && (forall i :: 0 <= i < n ==> InWord(rest[i])) && (n < |rest| ==> !InWord(rest[n]))
            && t.cls == HclIdentClass(rest[..n], rest[n..])
  {
  }

  /** After a quote comes a string literal, after a digit a number of digits and dots, and any other character stands
      alone. */
  lemma OtherTokensAre(rest: string)
    requires rest != "" && !Letter(rest[0])
    ensures var t := HclToken(rest);
            var n := |t.text|;
            if rest[0] == '"' then t.cls == "str"
            else if '0' <= rest[0] <= '9' then
              t.cls == "num" && (forall i :: 0 <= i < n ==> InNumber(rest[i])) && (n < |rest| ==> !InNumber(rest[n]))
            else t.cls == "" && n == 1
  {
  }

  predicate BeginsComment(line: string, n: int) {
    && 0 <= n < |line| && (forall i :: 0 <= i < n ==> line[i] == ' ' || line[i] == '\t')
    && (line[n] == '#' || (line[n] == '/' && n + 1 < |line| && line[n + 1] == '/'))
  }

  /** A line is a comment exactly when its first characters that are not blanks are a hash or two slashes. */
  lemma HclCommentsAre(line: string)
    ensures HclLine(line) == [Tok("comment", line)] <==> exists n :: BeginsComment(line, n)
  {
    CommentOrNot(line);
    CommentBegins(line);
  }

  lemma CommentBegins(line: string)
    ensures "#" <= TrimLeft(line, IsBlank) || "//" <= TrimLeft(line, IsBlank) <==> exists n :: BeginsComment(line, n)
  {
    var n := Span(line, IsBlank);
    SlashesOrHash(line, n);
    assert BeginsComment(line, n) <==> "#" <= line[n..] || "//" <= line[n..];
    forall m | BeginsComment(line, m) ensures m == n { SpanIsUnique(line, IsBlank, m); }
  }

  lemma CommentOrNot(line: string)
    ensures var trimmed := TrimLeft(line, IsBlank);
            HclLine(line) == [Tok("comment", line)] <==> "#" <= trimmed || "//" <= trimmed
  {
    var trimmed := TrimLeft(line, IsBlank);
    var lead := Tok("", line[..|line| - |trimmed|]);
    assert ([lead] + HclTokens(trimmed))[0] == lead;
  }

  lemma SlashesOrHash(line: string, n: nat)
    requires n <= |line|
    ensures "#" <= line[n..] <==> n < |line| && line[n] == '#'
    ensures "//" <= line[n..] <==> n + 1 < |line| && line[n] == '/' && line[n + 1] == '/'
  {
  }

  function HclTokens(rest: string): seq<Tok>
    decreases |rest|
  {
    if rest == "" then [] else [HclToken(rest)] + HclTokens(rest[|HclToken(rest).text|..])
  }

  function HclLine(line: string): seq<Tok> {
    var trimmed := TrimLeft(line, IsBlank);
    if "#" <= trimmed || "//" <= trimmed then [Tok("comment", line)]
    else [Tok("", line[..|line| - |trimmed|])] + HclTokens(trimmed)
  }

  /** The next token of a line, printed. */
  method NextHCL(rest: string) returns (emitted: string, piece: string)
    requires rest != ""
    ensures emitted == HclToken(rest).text && piece == Token(HclToken(rest))
  {
    if rest[0] == '"' {
      emitted := ScanHCLString(rest);
      piece := Token(Tok("str", emitted));
    } else if IsIdentStart(rest[0]) {
      emitted := ScanWhile(rest, IsIdentPart);
      piece := Token(Tok(HclIdentClass(emitted, rest[|emitted|..]), emitted));
    } else if IsDigit(rest[0]) {
      emitted := ScanWhile(rest, IsNumberPart);
      piece := Token(Tok("num", emitted));
    } else {
      emitted := rest[..1];
      piece := Token(Tok("", emitted));
    }
  }

  method HighlightHCLLine(line: string) returns (b: string)
    ensures b == Render(HclLine(line))
  {
    var trimmed := TrimLeft(line, IsBlank);
    if "#" <= trimmed || "//" <= trimmed {
      ConcatOne(Tok("comment", line), Token);
      return Token(Tok("comment", line));
    }
    var indent := |line| - |trimmed|;
    b := HighlightHCLRest(line[indent..]);
    ConcatOne(Tok("", line[..indent]), Token);
    ConcatJoin([Tok("", line[..indent])], HclTokens(trimmed), Token);
    b := Token(Tok("", line[..indent])) + b;
  }

  /** Token after token until the line is used up. */
  method HighlightHCLRest(line: string) returns (b: string)
    ensures b == Render(HclTokens(line))
  {
    var rest := line;
    b := "";
    ghost var done: seq<Tok> := [];
    while rest != ""
      invariant b == Render(done) && done + HclTokens(rest) == HclTokens(line)
      decreases |rest|
    {
      var emitted, piece := NextHCL(rest);
      ConcatMore(done, HclToken(rest), Token);
      assert HclTokens(rest) == [HclToken(rest)] + HclTokens(rest[|emitted|..]);
      Associative(done, [HclToken(rest)], HclTokens(rest[|emitted|..]));
      done := done + [HclToken(rest)];
      b := b + piece;
      rest := rest[|emitted|..];
    }
    assert done + [] == done;
  }

  lemma {:induction false} HclTokensKeepText(rest: string)
    ensures Texts(HclTokens(rest)) == rest && KnownClasses(HclTokens(rest))
    decreases |rest|
  {
    if rest != "" {
      var t := HclToken(rest);
      HclTokensKeepText(rest[|t.text|..]);
      assert HclTokens(rest)[1..] == HclTokens(rest[|t.text|..]);
      assert rest == t.text + rest[|t.text|..];
    }
  }

  lemma HclLineKeepsText(line: string)
    ensures Texts(HclLine(line)) == line && KnownClasses(HclLine(line))
  {
    var trimmed := TrimLeft(line, IsBlank);
    var lead := Tok("", line[..|line| - |trimmed|]);
    HclTokensKeepText(trimmed);
    ConcatOne(lead, TextOf);
    ConcatOne(Tok("comment", line), TextOf);
    ConcatJoin([lead], HclTokens(trimmed), TextOf);
  }

  // ---- YAML ----

  /** The key of a line and what follows its colon: only the first colon counts, and only when a space or the end
      follows it. */
  function SplitKey(s: string): (r: Option<(string, string)>)
    ensures r.Some? ==> s == r.value.0 + ":" + r.value.1
  {
    var i := Span(s, c => c != ':');
    if i == |s| then None
    else if i + 1 == |s| then
      assert s == s[..i] + ":" + "";
      Some((s[..i], ""))
    else if s[i + 1] == ' ' then
      assert s == s[..i] + ":" + s[i + 1..];
      Some((s[..i], s[i + 1..]))
    else None
  }

  /** There is a key exactly when a space or the end follows the first colon. */
  lemma KeysAreFollowedBySpace(s: string)
    ensures SplitKey(s).Some? <==>
              exists i :: 0 <= i < |s| && s[i] == ':' && (forall j :: 0 <= j < i ==> s[j] != ':')
                          && (i + 1 == |s| || s[i + 1] == ' ')
    ensures SplitKey(s).Some? ==> ':' !in SplitKey(s).value.0
  {
    var n := Span(s, c => c != ':');
    forall i | 0 <= i < |s| && s[i] == ':' && (forall j :: 0 <= j < i ==> s[j] != ':') ensures i == n {
      SpanIsUnique(s, c => c != ':', i);
    }
  }

  method SplitYAMLKey(s: string) returns (key: string, value: string, ok: bool)
    ensures SplitKey(s) == if ok then Some((key, value)) else None
  {
    for i := 0 to |s|
      invariant forall j :: 0 <= j < i ==> s[j] != ':'
    {
      if s[i] != ':' {
        continue;
      }
      SpanIsUnique(s, c => c != ':', i);
      if i + 1 == |s| {
        return s[..i], "", true;
      }
      if s[i + 1] == ' ' {
        return s[..i], s[i + 1..], true;
      }
      return "", "", false;
    }
    SpanIsUnique(s, c => c != ':', |s|);
    return "", "", false;
  }

  /** The first position of " #", or |s|. */
  function CommentAt(s: string): (i: nat)
    ensures i <= |s| && (i < |s| ==> i + 1 < |s| && s[i] == ' ' && s[i + 1] == '#')
    ensures forall j :: 0 <= j < i && j + 1 < |s| ==> !(s[j] == ' ' && s[j + 1] == '#')
  {
    if s == "" then 0 else if " #" <= s then 0 else 1 + CommentAt(s[1..])
  }

  function Dots(s: string): nat {
    if s == "" then 0 else Dots(s[..|s| - 1]) + if s[|s| - 1] == '.' then 1 else 0
  }

  /** A plain number: digits with at most one dot, and a sign only in front. */
  predicate Numeric(s: string) {
    s != "" && (forall i :: 0 <= i < |s| ==> IsNumberPart(s[i]) || (s[i] == '-' && i == 0)) && Dots(s) <= 1
  }

  lemma {:induction false} DotsOfPrefix(s: string, n: nat)
    requires n <= |s|
    ensures Dots(s[..n]) <= Dots(s)
    decreases |s| - n
  {
    if n == |s| {
      assert s[..n] == s;
    } else {
      assert s[..n + 1][..n] == s[..n];
      DotsOfPrefix(s, n + 1);
    }
  }

  method IsNumeric(s: string) returns (ok: bool)
    ensures ok <==> Numeric(s)
  {
    if s == "" {
      return false;
    }
    var dots := 0;
    for i := 0 to |s|
      invariant dots == Dots(s[..i]) <= 1
      invariant forall j :: 0 <= j < i ==> IsNumberPart(s[j]) || (s[j] == '-' && j == 0)
    {
      assert s[..i + 1][..i] == s[..i];
      if IsDigit(s[i]) {
      } else if s[i] == '.' {
        dots := dots + 1;
        if dots > 1 {
          DotsOfPrefix(s, i + 1);
          return false;
        }
      } else if s[i] == '-' && i == 0 {
      } else {
        return false;
      }
    }
    assert s[..|s|] == s;
    return true;
  }

  function ScalarClass(s: string): (c: string)
    ensures KnownClass(c)
  {
    if "\"" <= s || "'" <= s then "str"
    else if s in {"true", "false", "null"} then "kw"
    else if Numeric(s) then "num"
    else ""
  }

  /** Quoted scalars are strings, three words are keywords, numbers are numbers. */
  lemma ScalarsAre(s: string)
    ensures ScalarClass(s) == "str" <==> s != "" && (s[0] == '"' || s[0] == '\'')
    ensures ScalarClass(s) == "kw" <==> s == "true" || s == "false" || s == "null"
    ensures ScalarClass(s) == "num" <==> Numeric(s)
  {
    if Numeric(s) { assert IsNumberPart(s[0]) || s[0] == '-'; }
  }

  function YamlValue(v: string): seq<Tok> {
    var trimmed := TrimLeft(v, IsSpace);
    if trimmed == "" then [Tok("", v)]
    else
      var i := CommentAt(trimmed);
      [Tok("", v[..|v| - |trimmed|]), Tok(ScalarClass(trimmed[..i]), trimmed[..i]), Tok("comment", trimmed[i..])]
  }

  function YamlRest(s: string): seq<Tok> {
    match SplitKey(s)
    case Some((key, value)) => [Tok("attr", key), Tok("punct", ":")] + YamlValue(value)
    case None => YamlValue(s)
  }

  function YamlItem(indent: Tok, trimmed: string): seq<Tok> {
    if "- " <= trimmed then [indent, Tok("punct", "- ")] + YamlRest(trimmed[2..])
    else if trimmed == "-" then [indent, Tok("punct", "-")]
    else [indent] + YamlRest(trimmed)
  }

  function YamlLine(line: string): seq<Tok> {
    var trimmed := TrimLeft(line, IsSpace);
    if trimmed == "" then [Tok("", line)]
    else if "#" <= trimmed then [Tok("comment", line)]
    else if "---" <= trimmed then [Tok("kw", line)]
    else YamlItem(Tok("", line[..|line| - |trimmed|]), trimmed)
  }

  /** Behind its first spaces a line is empty, a comment after a hash, a document mark after three dashes, a list item
      after a dash and a space, or a dash alone; and else a key with its value, or a value. */
  lemma YamlLineIs(line: string, n: nat)
    requires n <= |line| && (forall i :: 0 <= i < n ==> line[i] == ' ') && (n < |line| ==> line[n] != ' ')
    ensures var indent, rest := Tok("", line[..n]), line[n..];
            YamlLine(line) ==
            if n == |line| then [Tok("", line)]
            else if line[n] == '#' then [Tok("comment", line)]
            else if |rest| >= 3 && rest[..3] == "---" then [Tok("kw", line)]
            else if rest == "-" then [indent, Tok("punct", "-")]
            else if rest[0] == '-' && rest[1] == ' ' then [indent, Tok("punct", "- ")] + YamlRest(rest[2..])
            else [indent] + YamlRest(rest)
  {
    SpanIsUnique(line, IsSpace, n);
    assert TrimLeft(line, IsSpace) == line[n..] && |line| - |line[n..]| == n;
    if n < |line| { YamlBegins(Tok("", line[..n]), line[n..]); }
  }

  lemma YamlBegins(indent: Tok, rest: string)
    requires rest != ""
    ensures "#" <= rest <==> rest[0] == '#'
    ensures "---" <= rest <==> |rest| >= 3 && rest[..3] == "---"
    ensures YamlItem(indent, rest) ==
            if rest == "-" then [indent, Tok("punct", "-")]
            else if rest[0] == '-' && rest[1] == ' ' then [indent, Tok("punct", "- ")] + YamlRest(rest[2..])
            else [indent] + YamlRest(rest)
  {
    assert "- " <= rest <==> |rest| >= 2 && rest[0] == '-' && rest[1] == ' ';
  }

  method HighlightYAMLValue(v: string) returns (b: string)
    ensures b == Render(YamlValue(v))
  {
    var trimmed := TrimLeft(v, IsSpace);
    var lead := v[..|v| - |trimmed|];
    if trimmed == "" {
      ConcatOne(Tok("", v), Token);
      return Token(Tok("", v));
    }
    var i := CommentAt(trimmed);
    var cls := ClassOfScalar(trimmed[..i]);
    PrintThree(Tok("", lead), Tok(cls, trimmed[..i]), Tok("comment", trimmed[i..]));
    return Token(Tok("", lead)) + Token(Tok(cls, trimmed[..i])) + Token(Tok("comment", trimmed[i..]));
  }

  method ClassOfScalar(s: string) returns (c: string)
    ensures c == ScalarClass(s)
  {
    var num := IsNumeric(s);
    if "\"" <= s || "'" <= s {
      return "str";
    } else if s == "true" || s == "false" || s == "null" {
      return "kw";
    } else if num {
      return "num";
    }
    return "";
  }

  lemma PrintThree(a: Tok, b: Tok, c: Tok)
    ensures Render([a, b, c]) == Token(a) + Token(b) + Token(c)
    ensures Texts([a, b, c]) == a.text + b.text + c.text
  {
    PrintTwo(a, b);
    assert [a, b, c] == [a, b] + [c];
    ConcatMore([a, b], c, Token);
    ConcatMore([a, b], c, TextOf);
  }

  lemma PrintTwo(a: Tok, b: Tok)
    ensures Render([a, b]) == Token(a) + Token(b) && Texts([a, b]) == a.text + b.text
  {
    assert [a, b] == [a] + [b];
    ConcatOne(a, Token);
    ConcatOne(a, TextOf);
    ConcatMore([a], b, Token);
    ConcatMore([a], b, TextOf);
  }

  method HighlightYAMLRest(s: string) returns (b: string)
    ensures b == Render(YamlRest(s))
  {
    var key, value, ok := SplitYAMLKey(s);
    if ok {
      b := HighlightYAMLValue(value);
      PrintTwo(Tok("attr", key), Tok("punct", ":"));
      ConcatJoin([Tok("attr", key), Tok("punct", ":")], YamlValue(value), Token);
      return Token(Tok("attr", key)) + Token(Tok("punct", ":")) + b;
    }
    b := HighlightYAMLValue(s);
  }

  method HighlightYAMLLine(line: string) returns (b: string)
    ensures b == Render(YamlLine(line))
  {
    var trimmed := TrimLeft(line, IsSpace);
    var indent := line[..|line| - |trimmed|];
    if trimmed == "" {
      ConcatOne(Tok("", line), Token);
      return Token(Tok("", line));
    } else if "#" <= trimmed {
      ConcatOne(Tok("comment", line), Token);
      return Token(Tok("comment", line));
    } else if "---" <= trimmed {
      ConcatOne(Tok("kw", line), Token);
      return Token(Tok("kw", line));
    }
    b := HighlightYAMLItem(indent, trimmed);
  }

  /** A list item keeps its dash, then goes on like any other line. */
  method HighlightYAMLItem(indent: string, trimmed: string) returns (b: string)
    ensures b == Render(YamlItem(Tok("", indent), trimmed))
  {
    b := Token(Tok("", indent));
    if "- " <= trimmed {
      b := b + Token(Tok("punct", "- "));
      var rest := HighlightYAMLRest(trimmed[2..]);
      PrintTwo(Tok("", indent), Tok("punct", "- "));
      ConcatJoin([Tok("", indent), Tok("punct", "- ")], YamlRest(trimmed[2..]), Token);
      return b + rest;
    } else if trimmed == "-" {
      PrintTwo(Tok("", indent), Tok("punct", "-"));
      return b + Token(Tok("punct", "-"));
    }
    var rest := HighlightYAMLRest(trimmed);
    ConcatOne(Tok("", indent), Token);
    ConcatJoin([Tok("", indent)], YamlRest(trimmed), Token);
    return b + rest;
  }

  lemma YamlValueKeepsText(v: string)
    ensures Texts(YamlValue(v)) == v && KnownClasses(YamlValue(v))
  {
    var trimmed := TrimLeft(v, IsSpace);
    if trimmed == "" {
      ConcatOne(Tok("", v), TextOf);
    } else {
      ThreeParts(v, trimmed, CommentAt(trimmed), ScalarClass(trimmed[..CommentAt(trimmed)]));
    }
  }

  lemma ThreeParts(v: string, trimmed: string, i: nat, cls: string)
    requires |trimmed| <= |v| && v == v[..|v| - |trimmed|] + trimmed && i <= |trimmed|
    ensures Texts([Tok("", v[..|v| - |trimmed|]), Tok(cls, trimmed[..i]), Tok("comment", trimmed[i..])]) == v
  {
    PrintThree(Tok("", v[..|v| - |trimmed|]), Tok(cls, trimmed[..i]), Tok("comment", trimmed[i..]));
    Associative(v[..|v| - |trimmed|], trimmed[..i], trimmed[i..]);
    assert trimmed[..i] + trimmed[i..] == trimmed;
  }

  lemma YamlRestKeepsText(s: string)
    ensures Texts(YamlRest(s)) == s && KnownClasses(YamlRest(s))
  {
    if SplitKey(s).Some? {
      var (key, value) := SplitKey(s).value;
      YamlValueKeepsText(value);
      TwoThen(Tok("attr", key), Tok("punct", ":"), YamlValue(value));
    } else {
      YamlValueKeepsText(s);
    }
  }

  lemma TwoThen(a: Tok, b: Tok, rest: seq<Tok>)
    ensures Texts([a, b] + rest) == a.text + b.text + Texts(rest)
  {
    PrintTwo(a, b);
    ConcatJoin([a, b], rest, TextOf);
  }

  lemma DashItemKeepsText(indent: Tok, trimmed: string)
    requires KnownClass(indent.cls) && "- " <= trimmed
    ensures var toks := [indent, Tok("punct", "- ")] + YamlRest(trimmed[2..]);
            Texts(toks) == indent.text + trimmed && KnownClasses(toks)
  {
    YamlRestKeepsText(trimmed[2..]);
    TwoThen(indent, Tok("punct", "- "), YamlRest(trimmed[2..]));
    Associative(indent.text, "- ", trimmed[2..]);
    assert "- " + trimmed[2..] == trimmed;
  }

  lemma PlainItemKeepsText(indent: Tok, trimmed: string)
    requires KnownClass(indent.cls)
    ensures Texts([indent] + YamlRest(trimmed)) == indent.text + trimmed && KnownClasses([indent] + YamlRest(trimmed))
  {
    YamlRestKeepsText(trimmed);
    ConcatOne(indent, TextOf);
    ConcatJoin([indent], YamlRest(trimmed), TextOf);
  }

  lemma YamlItemKeepsText(indent: Tok, trimmed: string)
    requires KnownClass(indent.cls)
    ensures Texts(YamlItem(indent, trimmed)) == indent.text + trimmed && KnownClasses(YamlItem(indent, trimmed))
  {
    if "- " <= trimmed {
      DashItemKeepsText(indent, trimmed);
    } else if trimmed == "-" {
      PrintTwo(indent, Tok("punct", "-"));
    } else {
      PlainItemKeepsText(indent, trimmed);
    }
  }

  lemma OneToken(cls: string, line: string)
    requires KnownClass(cls)
    ensures Texts([Tok(cls, line)]) == line && KnownClasses([Tok(cls, line)])
  {
    ConcatOne(Tok(cls, line), TextOf);
  }

  lemma YamlLineKeepsText(line: string)
    ensures Texts(YamlLine(line)) == line && KnownClasses(YamlLine(line))
  {
    var trimmed := TrimLeft(line, IsSpace);
    if trimmed == "" {
      OneToken("", line);
    } else if "#" <= trimmed {
      OneToken("comment", line);
    } else if "---" <= trimmed {
      OneToken("kw", line);
    } else {
      YamlItemKeepsText(Tok("", line[..|line| - |trimmed|]), trimmed);
    }
  }

  // ---- whole texts ----

  const FORMAT_CRD := "crd"

  predicate NotNewline(c: char) { c != '\n' }

  /** The lines of a text; there is always at least one. */
  function Lines(src: string): (lines: seq<string>)
    ensures lines != []
    decreases |src|
  {
    var n := Span(src, NotNewline);
    if n == |src| then [src] else [src[..n]] + Lines(src[n + 1..])
  }

  function WithNewline(line: string): string { line + "\n" }

  /** Every line ends in a newline, the last one too. */
  lemma {:induction false} LinesKeepText(src: string)
    ensures Concat(Lines(src), WithNewline) == src + "\n"
    decreases |src|
  {
    var n := Span(src, NotNewline);
    if n == |src| {
      ConcatOne(src, WithNewline);
    } else {
      LinesKeepText(src[n + 1..]);
      assert Lines(src)[1..] == Lines(src[n + 1..]);
      CutAtNewline(src, n);
    }
  }

  lemma CutAtNewline(src: string, n: nat)
    requires n < |src| && src[n] == '\n'
    ensures WithNewline(src[..n]) + (src[n + 1..] + "\n") == src + "\n"
  {
  }

  function CrdLine(line: string): string { Render(YamlLine(line)) + "\n" }

  function TerraformLine(line: string): string { Render(HclLine(line)) + "\n" }

  function LineHtml(format: string, line: string): string {
    if format == FORMAT_CRD then CrdLine(line) else TerraformLine(line)
  }

  /** The whole text, line by line in its format. */
  function Highlighted(format: string, lines: seq<string>): string {
    if format == FORMAT_CRD then Concat(lines, CrdLine) else Concat(lines, TerraformLine)
  }

  lemma HighlightedMore(format: string, lines: seq<string>, line: string)
    ensures Highlighted(format, lines + [line]) == Highlighted(format, lines) + LineHtml(format, line)
  {
    ConcatMore(lines, line, CrdLine);
    ConcatMore(lines, line, TerraformLine);
  }

  method HighlightLine(format: string, line: string) returns (b: string)
    ensures b == LineHtml(format, line)
  {
    if format == FORMAT_CRD {
      b := HighlightYAMLLine(line);
    } else {
      b := HighlightHCLLine(line);
    }
    b := b + "\n";
  }

  method HighlightLines(format: string, lines: seq<string>) returns (b: string)
    ensures b == Highlighted(format, lines)
  {
    b := "";
    ghost var done: seq<string> := [];
    for i := 0 to |lines|
      invariant done == lines[..i]
      invariant b == Highlighted(format, done)
    {
      var line := HighlightLine(format, lines[i]);
      HighlightedMore(format, done, lines[i]);
      b, done := b + line, done + [lines[i]];
    }
    assert done == lines;
  }

  method Highlight(format: string, src: string) returns (b: string)
    ensures b == Highlighted(format, Lines(src))
    ensures Text(b) == src + "\n"
  {
    b := HighlightLines(format, Lines(src));
    HighlightingKeepsText(format, src);
  }

  lemma TextOfNewline(h: string)
    ensures Text("\n" + h) == "\n" + Text(h)
  {
  }

  lemma TextOfLine(toks: seq<Tok>, line: string, h: string)
    requires KnownClasses(toks) && Texts(toks) == line
    ensures Text(Render(toks) + "\n" + h) == WithNewline(line) + Text(h)
  {
    Associative(Render(toks), "\n", h);
    TextOfRendered(toks, "\n" + h);
    TextOfNewline(h);
    Associative(line, "\n", Text(h));
  }

  lemma CrdLinesKeepText(lines: seq<string>)
    ensures Text(Concat(lines, CrdLine) + "") == Concat(lines, WithNewline) + Text("")
  {
    forall line, h | line in lines ensures Text(CrdLine(line) + h) == WithNewline(line) + Text(h) {
      YamlLineKeepsText(line);
      TextOfLine(YamlLine(line), line, h);
    }
    ReadConcat(Text, lines, CrdLine, WithNewline, "");
  }

  lemma TerraformLinesKeepText(lines: seq<string>)
    ensures Text(Concat(lines, TerraformLine) + "") == Concat(lines, WithNewline) + Text("")
  {
    forall line, h | line in lines ensures Text(TerraformLine(line) + h) == WithNewline(line) + Text(h) {
      HclLineKeepsText(line);
      TextOfLine(HclLine(line), line, h);
    }
    ReadConcat(Text, lines, TerraformLine, WithNewline, "");
  }

  /** For every text, in both formats: what a reader of the highlighted page sees is the text and one newline. */
  lemma HighlightingKeepsText(format: string, src: string)
    ensures Text(Highlighted(format, Lines(src))) == src + "\n"
  {
    var b := Highlighted(format, Lines(src));
    CrdLinesKeepText(Lines(src));
    TerraformLinesKeepText(Lines(src));
    LinesKeepText(src);
    assert b + "" == b;
  }

  // ---- string literals ----

  /** What the replacer of hclString makes of the text at a position, and how much of it it takes. */
  function QuotedHead(s: string): (r: (string, nat))
    requires s != ""
    ensures 1 <= r.1 <= |s| && r.0 != ""
  {
    if s[0] == '\\' then ("\\\\", 1)
    else if s[0] == '"' then ("\\\"", 1)
    else if s[0] == '\n' then ("\\n", 1)
    else if s[0] == '\t' then ("\\t", 1)
    else if "${" <= s then ("$${", 2)
    else ([s[0]], 1)
  }

  function Quoted(s: string): string
    decreases |s|
  {
    if s == "" then "" else QuotedHead(s).0 + Quoted(s[QuotedHead(s).1..])
  }

  /** hclString. */
  function QuoteHcl(s: string): string { "\"" + Quoted(s) + "\"" }

  /** Inside a quoted literal the scanner goes on to the closing quote. */
  lemma {:induction false} ScanPassesQuoted(before: string, s: string, rest: string)
    requires rest != "" && rest[0] == '"'
    ensures StringEnd(before + (Quoted(s) + rest), |before|) == |before| + |Quoted(s)| + 1
    decreases |s|
  {
    if s == "" {
      assert (before + (Quoted(s) + rest))[|before|] == '"';
    } else {
      var tail := s[QuotedHead(s).1..];
      ScanPassesQuoted(before + QuotedHead(s).0, tail, rest);
      ScanPassesHead(before, QuotedHead(s).0, Quoted(tail), rest, s);
    }
  }

  lemma HeadIsThere(before: string, head: string, after: string)
    ensures forall i :: 0 <= i < |head| ==> (before + (head + after))[|before| + i] == head[i]
  {
  }

  /** None of what the replacer prints stops the scanner half way. */
  lemma ScanPassesHead(before: string, head: string, quoted: string, rest: string, s: string)
    requires s != "" && QuotedHead(s).0 == head
    ensures StringEnd(before + (head + quoted + rest), |before|) ==
            StringEnd(before + head + (quoted + rest), |before| + |head|)
  {
    var all, at := before + head + (quoted + rest), |before|;
    Associative(head, quoted, rest);
    Associative(before, head, quoted + rest);
    HeadIsThere(before, head, quoted + rest);
    if |head| == 3 {
      assert all[at] == head[0] && all[at + 1] == head[1] && all[at + 2] == head[2];
      assert StringEnd(all, at + 1) == StringEnd(all, at + 2) == StringEnd(all, at + 3);
    } else {
      assert all[at] == head[0];
    }
  }

  /** The scanner takes from the head of a line exactly the literal that was printed there, whatever follows. */
  lemma ScanReadsWhatWasPrinted(s: string, rest: string)
    ensures HclString(QuoteHcl(s) + rest) == QuoteHcl(s)
  {
    var all := QuoteHcl(s) + rest;
    assert all == "\"" + (Quoted(s) + ("\"" + rest));
    ScanPassesQuoted("\"", s, "\"" + rest);
    assert all[..|QuoteHcl(s)|] == QuoteHcl(s);
  }
}
