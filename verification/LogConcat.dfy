/** How the scan of two patterns, one behind the other, comes from the scans of the two. */
module LogConcat {
  import opened LogPattern

  /** The list ends in a directive without a parameter. */
  predicate EndsBare(ts: seq<Token>) {
    ts != [] && ts[|ts| - 1].Directive? && ts[|ts| - 1].param == ""
  }

  /** One list behind another; where text meets text, it runs together. */
  function Glue(a: seq<Token>, b: seq<Token>): seq<Token> {
    if a == [] then b
    else if |a| > 1 then [a[0]] + Glue(a[1..], b)
    else if b != [] && a[0].Text? && b[0].Text? then [Text(a[0].str + b[0].str)] + b[1..]
    else a + b
  }

  /** Two scans side by side. */
  function Joined(a: seq<Token>, b: Scan): Scan {
    Scan(Glue(a, b.tokens), b.end)
  }

  /** Where the parameter ends that a `{` at the start of `q` begins; at the end of `q` when it is not closed. */
  function ParamEnd(q: string): (k: nat)
    ensures k <= |q|
  {
    if |q| < 2 then |q| else Find(q, '}', 2)
  }

  /** The last directive of `a` takes the braces at the start of `q` for its parameter. */
  function Taken(a: seq<Token>, q: string): Scan
    requires EndsBare(a) && StartsWithBrace(q)
  {
    var front, k := a[..|a| - 1], ParamEnd(q);
    if k == |q| then Scan(front, Unclosed)
    else
      var rest := ScanText(q[k + 1..]);
      Scan(front + [Directive(a[|a| - 1].letter, q[1..k])] + rest.tokens, rest.end)
  }

  /** What the scan of `q` makes of the tokens before it. */
  function Behind(a: seq<Token>, q: string): Scan {
    if EndsBare(a) && StartsWithBrace(q) then Taken(a, q) else Joined(a, ScanText(q))
  }

  lemma GlueCons(t: Token, a: seq<Token>, b: seq<Token>)
    requires a != [] || t.Directive?
    ensures Glue([t] + a, b) == [t] + Glue(a, b)
  {
    assert ([t] + a)[1..] == a;
  }

  lemma BehindCons(t: Token, a: seq<Token>, q: string)
    requires a != [] || (t.Directive? && !(t.param == "" && StartsWithBrace(q)))
    ensures Behind([t] + a, q) == Cons(t, Behind(a, q))
  {
    GlueCons(t, a, ScanText(q).tokens);
    if a != [] {
      assert ([t] + a)[..|a|] == [t] + a[..|a| - 1];
      assert ([t] + a)[|a|] == a[|a| - 1];
    }
  }

  lemma FindAppend(p: string, q: string, c: char, from: nat)
    requires from <= |p| && Find(p, c, from) < |p|
    ensures Find(p + q, c, from) == Find(p, c, from)
  {
    FindIs(p + q, c, from, Find(p, c, from));
  }

  /** A search that starts in the second of two strings. */
  lemma FindShifted(p: string, q: string, c: char, from: nat)
    requires from <= |q|
    ensures Find(p + q, c, |p| + from) == |p| + Find(q, c, from)
    decreases |q| - from
  {
    if from < |q| && q[from] != c {
      FindShifted(p, q, c, from + 1);
    }
  }

  /** Cutting a concatenation inside its first part. */
  lemma CutAppend(p: string, q: string, from: nat, k: nat)
    requires from <= k < |p|
    ensures (p + q)[from..k] == p[from..k] && (p + q)[k + 1..] == p[k + 1..] + q
  {
  }

  lemma Associates(a: string, b: string, c: string)
    ensures a + b + c == a + (b + c)
  {
  }

  /** Cutting behind a first character. */
  lemma CutBehind(c: char, q: string, from: nat, to: nat)
    requires from <= to <= |q|
    ensures ([c] + q)[from + 1..to + 1] == q[from..to] && ([c] + q)[to + 1..] == q[to..]
  {
  }

  lemma ScanToDirective(p: string, text: string, rest: string)
    requires Free(text, '%') && p == text + ['%'] + rest
    ensures ScanText(p) == Cons(Text(text), ScanDirective(rest))
  {
    FindIs(p, '%', 0, |text|);
    assert p[..|text|] == text && p[|text| + 1..] == rest;
  }

  lemma ScanOneText(p: string)
    requires p != "" && Free(p, '%')
    ensures ScanText(p) == Scan([Text(p)], Clean)
  {
    assert Find(p, '%', 0) == |p|;
  }

  lemma JoinedText(x: string, y: string, d: Scan)
    ensures Joined([Text(x)], Cons(Text(y), d)) == Cons(Text(x + y), d)
  {
    assert ([Text(y)] + d.tokens)[1..] == d.tokens;
    assert [Text(x)][..0] == [];
  }

  lemma Regroup(p: string, text: string, rest: string)
    ensures p + (text + ['%'] + rest) == (p + text) + ['%'] + rest
  {
  }

  lemma TextMeetsDirective(p: string, text: string, rest: string)
    requires Free(p, '%') && Free(text, '%')
    ensures ScanText(p + (text + ['%'] + rest)) == Joined([Text(p)], ScanText(text + ['%'] + rest))
  {
    var d := ScanDirective(rest);
    ScanToDirective(text + ['%'] + rest, text, rest);
    Regroup(p, text, rest);
    ScanToDirective((p + text) + ['%'] + rest, p + text, rest);
    JoinedText(p, text, d);
  }

  lemma TextMeetsText(p: string, q: string)
    requires p != "" && Free(p, '%') && q != "" && Free(q, '%')
    ensures ScanText(p + q) == Joined([Text(p)], ScanText(q))
  {
    ScanOneText(q);
    ScanOneText(p + q);
    JoinedText(p, q, Scan([], Clean));
  }

  lemma TextMeetsNothing(p: string)
    requires p != "" && Free(p, '%')
    ensures ScanText(p + "") == Joined([Text(p)], ScanText(""))
  {
    assert p + "" == p;
    ScanOneText(p);
  }

  lemma SplitAt(q: string, k: nat)
    requires k < |q|
    ensures q == q[..k] + [q[k]] + q[k + 1..]
  {
  }

  /** Text that runs into the next pattern. */
  lemma TextRunsOn(p: string, q: string)
    requires p != "" && Free(p, '%')
    ensures ScanText(p + q) == Joined([Text(p)], ScanText(q))
  {
    var k := Find(q, '%', 0);
    if q == "" {
      TextMeetsNothing(p);
    } else if k == |q| {
      TextMeetsText(p, q);
    } else {
      SplitAt(q, k);
      TextMeetsDirective(p, q[..k], q[k + 1..]);
    }
  }

  /** A bare directive at the end of its pattern, and a brace behind it. */
  lemma BareMeetsBrace(c: char, q: string)
    requires StartsWithBrace(q)
    ensures ScanDirective([c] + q) == Taken([Directive(c, "")], q)
  {
    var p, k := [c] + q, ParamEnd(q);
    if |q| >= 2 {
      FindShifted([c], q, '}', 2);
      if k < |q| {
        CutBehind(c, q, 1, k);
        CutBehind(c, q, k, k + 1);
      }
    }
  }

  lemma TextThenDirective(text: string, rest: string, q: string)
    requires Free(text, '%') && ScanDirective(rest).tokens != []
    requires ScanDirective(rest + q) == Behind(ScanDirective(rest).tokens, q)
    ensures ScanText(text + ['%'] + rest + q) == Behind(ScanText(text + ['%'] + rest).tokens, q)
  {
    ScanToDirective(text + ['%'] + rest, text, rest);
    Associates(text + ['%'], rest, q);
    ScanToDirective(text + ['%'] + (rest + q), text, rest + q);
    BehindCons(Text(text), ScanDirective(rest).tokens, q);
  }

  lemma {:induction false} TextConcat(p: string, q: string)
    requires ScanText(p).end.Clean?
    ensures ScanText(p + q) == Behind(ScanText(p).tokens, q)
    decreases |p|
  {
    var k := Find(p, '%', 0);
    if p == "" {
      assert p + q == q;
    } else if k == |p| {
      ScanOneText(p);
      TextRunsOn(p, q);
    } else {
      SplitAt(p, k);
      DirectiveConcat(p[k + 1..], q);
      TextThenDirective(p[..k], p[k + 1..], q);
    }
  }

  lemma {:induction false} DirectiveConcat(p: string, q: string)
    requires ScanDirective(p).end.Clean?
    ensures ScanDirective(p).tokens != [] && ScanDirective(p + q) == Behind(ScanDirective(p).tokens, q)
    decreases |p|
  {
    var k := if |p| >= 3 then Find(p, '}', 3) else 0;
    if |p| == 1 && StartsWithBrace(q) {
      assert p == [p[0]] && p[1..] == "";
      BareMeetsBrace(p[0], q);
    } else if |p| == 1 || p[1] != '{' {
      TextConcat(p[1..], q);
      assert p == [p[0]] + p[1..];
      assert |p| == 1 ==> p[1..] + q == q;
      BareThenText(p[0], p[1..], q);
    } else {
      TextConcat(p[k + 1..], q);
      ParamThenText(p, k, q);
    }
  }

  lemma BareThenText(c: char, rest: string, q: string)
    requires !StartsWithBrace(rest) && !StartsWithBrace(rest + q)
    requires ScanText(rest + q) == Behind(ScanText(rest).tokens, q)
    requires ScanText(rest).tokens == [] ==> !StartsWithBrace(q)
    ensures ScanDirective([c] + rest + q) == Behind(ScanDirective([c] + rest).tokens, q)
  {
    ScanBare(c, rest);
    Associates([c], rest, q);
    ScanBare(c, rest + q);
    BehindCons(Directive(c, ""), ScanText(rest).tokens, q);
  }

  lemma ParamThenText(p: string, k: nat, q: string)
    requires |p| >= 3 && p[1] == '{' && k == Find(p, '}', 3) < |p|
    requires ScanText(p[k + 1..] + q) == Behind(ScanText(p[k + 1..]).tokens, q)
    ensures ScanDirective(p + q) == Behind(ScanDirective(p).tokens, q)
  {
    FindAppend(p, q, '}', 3);
    CutAppend(p, q, 2, k);
    BehindCons(Directive(p[0], p[2..k]), ScanText(p[k + 1..]).tokens, q);
  }

  /**
   * The scan of two patterns is their scans side by side exactly when the first does not end in a bare directive with a
   * brace behind it; otherwise that directive gains a parameter, or its brace is not closed.
   */
  lemma ScansSideBySide(p: string, q: string)
    requires ScanText(p).end.Clean?
    ensures ScanText(p + q) == Behind(ScanText(p).tokens, q)
    ensures ScanText(p + q) == Joined(ScanText(p).tokens, ScanText(q)) <==>
      !(EndsBare(ScanText(p).tokens) && StartsWithBrace(q))
  {
    TextConcat(p, q);
    var a := ScanText(p).tokens;
    if EndsBare(a) && StartsWithBrace(q) {
      TakenDiffers(a, q);
    }
  }

  lemma {:induction false} GlueAt(a: seq<Token>, b: seq<Token>)
    requires EndsBare(a)
    ensures |Glue(a, b)| >= |a| && Glue(a, b)[|a| - 1] == a[|a| - 1]
    decreases |a|
  {
    if |a| > 1 {
      GlueAt(a[1..], b);
    }
  }

  lemma TakenDiffers(a: seq<Token>, q: string)
    requires EndsBare(a) && StartsWithBrace(q)
    ensures Taken(a, q) != Joined(a, ScanText(q))
  {
    GlueAt(a, ScanText(q).tokens);
    if ParamEnd(q) < |q| {
      assert Taken(a, q).tokens[|a| - 1].param == q[1..ParamEnd(q)] != "";
    }
  }
}
