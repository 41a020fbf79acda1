/** What a printed string literal (hclString in internal/export/export.go) stands for to a reader of HCL. */
module Literals {
  import opened Types
  import opened Highlighting

  /** What a backslash and a character stand for. */
  function StandsFor(c: char): Option<char> {
    match c
    case 'n' => Some('\n')
    case 't' => Some('\t')
    case '"' => Some('"')
    case '\\' => Some('\\')
    case _ => None
  }

  function Prepend(head: string, tail: Option<string>): Option<string> {
    match tail
    case None => None
    case Some(t) => Some(head + t)
  }

  /** The text that the inside of a quoted literal stands for (HCL Native Syntax Specification, Template Expressions):
      escapes are resolved and doubled introducers read as themselves; single ones begin a template, which is no plain
      text. */
  function Unquoted(q: string): Option<string>
    decreases |q|
  {
    if q == "" then Some("")
    else if q[0] == '\\' then
      if |q| == 1 || StandsFor(q[1]).None? then None else Prepend([StandsFor(q[1]).value], Unquoted(q[2..]))
    else if "$${" <= q then Prepend("${", Unquoted(q[3..]))
    else if "%%{" <= q then Prepend("%{", Unquoted(q[3..]))
    else if "${" <= q || "%{" <= q then None
    else Prepend([q[0]], Unquoted(q[1..]))
  }

  /** The text has the introducer of a template directive, which the replacer does not know. */
  predicate HasDirective(s: string) { exists i :: 0 <= i < |s| - 1 && s[i] == '%' && s[i + 1] == '{' }

  lemma QuotedSplits(s: string)
    requires s != ""
    ensures Quoted(s) == QuotedHead(s).0 + Quoted(s[QuotedHead(s).1..])
  {
  }

  /** A percent sign or a brace is printed as it is. */
  lemma PlainSplits(s: string)
    requires s != "" && s[0] in {'%', '{'}
    ensures Quoted(s) == [s[0]] + Quoted(s[1..])
  {
  }

  lemma BraceFirst(s: string)
    ensures "{" <= Quoted(s) <==> "{" <= s
  {
    if s != "" { QuotedSplits(s); }
  }

  /** What is printed begins with a percent sign and a brace exactly when the text does; and never with the introducer
      of an interpolation. */
  lemma QuotedBegins(s: string)
    ensures "%{" <= Quoted(s) <==> "%{" <= s
    ensures !("${" <= Quoted(s))
  {
    if s != "" {
      var r := QuotedHead(s);
      var tail := s[r.1..];
      QuotedSplits(s);
      BraceFirst(tail);
      assert "${" <= s || r.1 == 1;
      if |r.0| == 1 {
        assert Quoted(s)[0] == s[0] && Quoted(s)[1..] == Quoted(tail);
        SecondIsBrace(s);
        SecondIsBrace(Quoted(s));
      } else {
        assert Quoted(s)[0] == r.0[0] && Quoted(s)[1] == r.0[1];
      }
    }
  }

  lemma SecondIsBrace(s: string)
    requires s != ""
    ensures "%{" <= s <==> s[0] == '%' && "{" <= s[1..]
    ensures "${" <= s <==> s[0] == '$' && "{" <= s[1..]
  {
  }

  lemma DirectiveInTail(s: string, n: nat)
    requires 1 <= n <= |s| && !("%{" <= s) && (n == 1 || "${" <= s) && n <= 2
    ensures HasDirective(s) <==> HasDirective(s[n..])
  {
    if HasDirective(s) {
      var i :| 0 <= i < |s| - 1 && s[i] == '%' && s[i + 1] == '{';
      assert s[n..][i - n] == '%' && s[n..][i - n + 1] == '{';
    }
    if HasDirective(s[n..]) {
      var i :| 0 <= i < |s[n..]| - 1 && s[n..][i] == '%' && s[n..][i + 1] == '{';
      assert s[i + n] == '%' && s[i + n + 1] == '{';
    }
  }

  /** Away from directives the reader takes what was printed of the head of a text for that head. */
  lemma ReadsHead(s: string)
    requires s != "" && !("%{" <= s) && !("%%{" <= s)
    ensures var n := QuotedHead(s).1; Unquoted(Quoted(s)) == Prepend(s[..n], Unquoted(Quoted(s[n..])))
  {
    var r := QuotedHead(s);
    var tail := Quoted(s[r.1..]);
    QuotedSplits(s);
    QuotedBegins(s[r.1..]);
    assert Quoted(s)[|r.0|..] == tail;
    assert r.1 == 1 ==> s[..1] == [s[0]];
    if |r.0| == 1 {
      assert Quoted(s)[0] == s[0];
      QuotedBegins(s);
    } else if |r.0| == 2 {
      assert Quoted(s)[0] == r.0[0] && Quoted(s)[1] == r.0[1];
    } else {
      assert Quoted(s)[0] == '$' && Quoted(s)[1] == '$' && Quoted(s)[2] == '{';
      assert s[..2] == "${";
    }
  }

  lemma DoubledSplits(s: string)
    requires |s| >= 3 && s[0] == '%' && s[1] == '%' && s[2] == '{'
    ensures Quoted(s) == "%%{" + Quoted(s[3..])
  {
    PlainSplits(s);
    PlainSplits(s[1..]);
    PlainSplits(s[2..]);
    assert s[1..][1..] == s[2..] && s[2..][1..] == s[3..];
    ThreeInFront('%', '%', '{', Quoted(s[3..]));
  }

  lemma ThreeInFront(x: char, y: char, z: char, rest: string)
    ensures [x] + ([y] + ([z] + rest)) == [x, y, z] + rest
  {
  }

  lemma ReadsDoubled(s: string)
    requires "%%{" <= s
    ensures Unquoted(Quoted(s)) == Prepend("%{", Unquoted(Quoted(s[3..])))
  {
    DoubledSplits(s);
    ReadsIntroducer(Quoted(s[3..]));
  }

  lemma ReadsIntroducer(q: string)
    ensures Unquoted("%%{" + q) == Prepend("%{", Unquoted(q))
  {
    var all := "%%{" + q;
    assert all[0] == '%' && all[1] == '%' && all[3..] == q;
  }

  lemma ReadsDirective(s: string)
    requires "%{" <= s
    ensures Unquoted(Quoted(s)) == None
  {
    QuotedBegins(s);
  }

  /** A printed literal stands for exactly the text it was printed from, exactly when that has no directive in it; one
      that has is no plain text, or reads shorter. */
  lemma {:induction false} LiteralReadsBackExactlyWhen(s: string)
    ensures Unquoted(Quoted(s)) == Some(s) <==> !HasDirective(s)
    ensures Unquoted(Quoted(s)).Some? ==> |Unquoted(Quoted(s)).value| <= |s|
    decreases |s|
  {
    if s == "" {
    } else if "%{" <= s {
      assert s[0] == '%' && s[1] == '{';
      ReadsDirective(s);
    } else if "%%{" <= s {
      assert s[1] == '%' && s[2] == '{';
      ReadsDoubled(s);
      LiteralReadsBackExactlyWhen(s[3..]);
    } else {
      var n := QuotedHead(s).1;
      assert s == s[..n] + s[n..];
      ReadsHead(s);
      DirectiveInTail(s, n);
      LiteralReadsBackExactlyWhen(s[n..]);
    }
  }

  /** Such a text. */
  lemma DirectiveDoesNotReadBack()
    ensures Unquoted(Quoted("%{ if x }")) == None
  {
    ReadsDirective("%{ if x }");
  }
}
