/** The pattern language of `Layout`: what the scanner reads, and how the read tokens print. */
module LogPattern {

  /** A slice of a pattern: literal text, or a directive with its parameter (empty when it has none). */
  datatype Token = Text(str: string) | Directive(letter: char, param: string)

  /** How a scan ends: cleanly, after a `%` with nothing behind it, or at a `{` that is not closed. */
  datatype End = Clean | Pending | Unclosed

  datatype Scan = Scan(tokens: seq<Token>, end: End)

  function Cons(t: Token, s: Scan): Scan { s.(tokens := [t] + s.tokens) }

  /** The first index at or after `from` that holds `c`, or the length. */
  function Find(p: string, c: char, from: nat): (k: nat)
    requires from <= |p|
    ensures from <= k <= |p|
    ensures forall i :: from <= i < k ==> p[i] != c
    ensures k < |p| ==> p[k] == c
    decreases |p| - from
  {
    if from == |p| || p[from] == c then from else Find(p, c, from + 1)
  }

  /** In state SCAN: text up to the next `%`, empty text included, but nothing at the end of the pattern. */
  function ScanText(p: string): Scan
    decreases |p|
  {
    if p == "" then Scan([], Clean)
    else
      var k := Find(p, '%', 0);
      if k == |p| then Scan([Text(p)], Clean) else Cons(Text(p[..k]), ScanDirective(p[k + 1..]))
  }

  /** In state CREATE: a letter and, behind a `{`, a parameter of at least one character. */
  function ScanDirective(p: string): Scan
    decreases |p|
  {
    if p == "" then Scan([], Pending)
    else if |p| == 1 || p[1] != '{' then Cons(Directive(p[0], ""), ScanText(p[1..]))
    else if |p| < 3 then Scan([], Unclosed)
    else
      var k := Find(p, '}', 3);
      if k == |p| then Scan([], Unclosed) else Cons(Directive(p[0], p[2..k]), ScanText(p[k + 1..]))
  }

  // ----- Printing -----

  function PrintToken(t: Token): string {
    match t
    case Text(s) => s
    case Directive(c, param) => if param == "" then ['%', c] else ['%', c, '{'] + param + ['}']
  }

  function Print(ts: seq<Token>): string {
    if ts == [] then "" else PrintToken(ts[0]) + Print(ts[1..])
  }

  predicate Free(s: string, c: char) {
    forall i :: 0 <= i < |s| ==> s[i] != c
  }

  /** Text without `%`, and parameters without `}` after their first character. */
  predicate TokenOk(t: Token) {
    match t
    case Text(s) => Free(s, '%')
    case Directive(_, param) => param != "" ==> Free(param[1..], '}')
  }

  predicate StartsWithBrace(s: string) { s != "" && s[0] == '{' }

  /** Text and directives alternate; the list starts with text and does not end in empty text,
      and no text that starts with `{` follows a directive without a parameter. */
  predicate TextFirst(ts: seq<Token>)
    decreases |ts|
  {
    ts == [] ||
    (ts[0].Text? && TokenOk(ts[0]) && (if |ts| == 1 then ts[0].str != "" else DirectiveFirst(ts[1..])))
  }

  predicate DirectiveFirst(ts: seq<Token>)
    decreases |ts|
  {
    ts != [] && ts[0].Directive? && TokenOk(ts[0]) && TextFirst(ts[1..])
    && (ts[0].param == "" && |ts| > 1 ==> !StartsWithBrace(ts[1].str))
  }

  // ----- The scanner and the printer undo each other -----

  /** How a scan prints, compared with the pattern it came from. */
  predicate Reassembles(s: Scan, p: string) {
    var printed := Print(s.tokens);
    match s.end
    case Clean => printed == p
    case Pending => printed + "%" == p
    case Unclosed => printed <= p
  }

  lemma ReassemblesCons(t: Token, s: Scan, head: string, p: string)
    requires PrintToken(t) == head && Reassembles(s, p)
    ensures Reassembles(Cons(t, s), head + p)
  {
    assert ([t] + s.tokens)[1..] == s.tokens;
    assert (head + Print(s.tokens)) + "%" == head + (Print(s.tokens) + "%");
  }

  lemma SplitParam(p: string, k: nat)
    requires 2 <= k < |p|
    ensures ['%'] + p == ['%', p[0], p[1]] + p[2..k] + [p[k]] + p[k + 1..]
  {
    var q := ['%', p[0], p[1]] + p[2..k] + [p[k]] + p[k + 1..];
    assert |q| == |p| + 1;
    forall i | 0 <= i < |q|
      ensures (['%'] + p)[i] == q[i]
    {
    }
  }

  lemma PrintedParam(c: char, param: string, rest: string)
    ensures (['%', c, '{'] + param + ['}'] + rest)[1..] == [c, '{'] + param + ['}'] + rest
  {
  }

  lemma {:induction false} TextReassembles(p: string)
    ensures Reassembles(ScanText(p), p)
    decreases |p|
  {
    if p != "" {
      var k := Find(p, '%', 0);
      if k == |p| {
        assert Print([Text(p)]) == p + Print([]);
      } else {
        DirectiveReassembles(p[k + 1..]);
        ReassemblesCons(Text(p[..k]), ScanDirective(p[k + 1..]), p[..k], ['%'] + p[k + 1..]);
        assert p == p[..k] + (['%'] + p[k + 1..]);
      }
    }
  }

  lemma {:induction false} DirectiveReassembles(p: string)
    ensures Reassembles(ScanDirective(p), ['%'] + p)
    decreases |p|
  {
    if p == "" {
      assert Print([]) + "%" == ['%'] + p;
    } else if |p| == 1 || p[1] != '{' {
      TextReassembles(p[1..]);
      ReassemblesCons(Directive(p[0], ""), ScanText(p[1..]), ['%', p[0]], p[1..]);
      assert ['%'] + p == ['%', p[0]] + p[1..];
    } else if |p| >= 3 && Find(p, '}', 3) < |p| {
      var k := Find(p, '}', 3);
      var head := ['%', p[0], '{'] + p[2..k] + ['}'];
      TextReassembles(p[k + 1..]);
      ReassemblesCons(Directive(p[0], p[2..k]), ScanText(p[k + 1..]), head, p[k + 1..]);
      SplitParam(p, k);
    }
  }

  lemma {:induction false} TextWellFormed(p: string)
    requires ScanText(p).end.Clean?
    ensures TextFirst(ScanText(p).tokens)
    ensures StartsWithBrace(p) <==> ScanText(p).tokens != [] && StartsWithBrace(ScanText(p).tokens[0].str)
    decreases |p|
  {
    if p != "" {
      var k := Find(p, '%', 0);
      if k < |p| {
        DirectiveWellFormed(p[k + 1..]);
        assert ScanText(p).tokens[1..] == ScanDirective(p[k + 1..]).tokens;
      }
    }
  }

  lemma {:induction false} DirectiveWellFormed(p: string)
    requires ScanDirective(p).end.Clean?
    ensures DirectiveFirst(ScanDirective(p).tokens)
    decreases |p|
  {
    if |p| == 1 || p[1] != '{' {
      TextWellFormed(p[1..]);
      assert ScanDirective(p).tokens[1..] == ScanText(p[1..]).tokens;
    } else {
      var k := Find(p, '}', 3);
      TextWellFormed(p[k + 1..]);
      assert ScanDirective(p).tokens[1..] == ScanText(p[k + 1..]).tokens;
    }
  }

  lemma FindIs(p: string, c: char, from: nat, k: nat)
    requires from <= k < |p| && p[k] == c && forall i :: from <= i < k ==> p[i] != c
    ensures Find(p, c, from) == k
  {
  }

  lemma {:induction false} TextRoundTrip(ts: seq<Token>)
    requires TextFirst(ts)
    ensures ScanText(Print(ts)) == Scan(ts, Clean)
    decreases |ts|
  {
    if ts != [] {
      var t, p := ts[0].str, Print(ts);
      if |ts| == 1 {
        assert Print(ts[1..]) == "" && p == t;
        assert [Text(t)] == ts;
      } else {
        DirectiveRoundTrip(ts[1..]);
        var rest := Print(ts[1..]);
        assert p[|t|] == '%' && p[|t| + 1..] == rest[1..] && p[..|t|] == t;
        FindIs(p, '%', 0, |t|);
        assert [ts[0]] + ts[1..] == ts;
      }
    }
  }

  lemma ScanBare(c: char, rest: string)
    requires !StartsWithBrace(rest)
    ensures ScanDirective([c] + rest) == Cons(Directive(c, ""), ScanText(rest))
  {
    assert ([c] + rest)[1..] == rest;
  }

  lemma ScanParam(c: char, param: string, rest: string)
    requires param != "" && Free(param[1..], '}')
    ensures ScanDirective([c, '{'] + param + ['}'] + rest) == Cons(Directive(c, param), ScanText(rest))
  {
    var p := [c, '{'] + param + ['}'] + rest;
    assert p[2..2 + |param|] == param && p[2 + |param| + 1..] == rest;
    forall i | 3 <= i < 2 + |param|
      ensures p[i] != '}'
    {
      assert p[i] == param[1..][i - 3];
    }
    FindIs(p, '}', 3, 2 + |param|);
  }

  lemma {:induction false} DirectiveRoundTrip(ts: seq<Token>)
    requires DirectiveFirst(ts)
    ensures |Print(ts)| > 0 && Print(ts)[0] == '%' && ScanDirective(Print(ts)[1..]) == Scan(ts, Clean)
    decreases |ts|
  {
    var rest := Print(ts[1..]);
    TextRoundTrip(ts[1..]);
    TextWellFormed(rest);
    PrintedDirective(ts[0], rest);
    assert [ts[0]] + ts[1..] == ts;
  }

  /** A printed directive in front of a pattern that does not start with a brace is read back. */
  lemma PrintedDirective(t: Token, rest: string)
    requires t.Directive? && TokenOk(t) && (t.param == "" ==> !StartsWithBrace(rest))
    ensures
      var p := PrintToken(t) + rest;
      p[0] == '%' && ScanDirective(p[1..]) == Cons(t, ScanText(rest))
  {
    var c, param := t.letter, t.param;
    if param == "" {
      assert (['%', c] + rest)[1..] == [c] + rest;
      ScanBare(c, rest);
    } else {
      PrintedParam(c, param, rest);
      ScanParam(c, param, rest);
    }
  }

  /** A list of tokens is the scan of a pattern exactly when it is well formed, and then of its print only. */
  lemma ScanIffPrint(p: string, ts: seq<Token>)
    ensures ScanText(p) == Scan(ts, Clean) <==> TextFirst(ts) && p == Print(ts)
  {
    if ScanText(p) == Scan(ts, Clean) {
      TextReassembles(p);
      TextWellFormed(p);
    }
    if TextFirst(ts) && p == Print(ts) {
      TextRoundTrip(ts);
    }
  }
}
