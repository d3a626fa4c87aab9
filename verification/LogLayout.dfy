/** The class `Layout`: `init` compiles a pattern into format items, `layout` renders an event with them. */
module LogLayout {
  import opened LogConcat
  import opened LogPattern

  datatype Level = UNKNOW | DEBUG | INFO | WARN | ERROR | FATAL

  /** A log event. Numbers are given as they print, and `date` is what `strftime` makes of a format. */
  datatype Event = Event(name: string, level: Level, fileName: string, line: string, elapse: string,
                         threadId: string, threadName: string, coroutineId: string, content: string,
                         date: string -> string)

  datatype Item =
    | TextItem(str: string)
    | NameItem
    | LevelItem
    | FileNameItem
    | LineItem
    | DateTimeItem(format: string)
    | ElapseItem
    | ThreadIdItem
    | ThreadNameItem
    | CoroutineIdItem
    | ContentItem
    | NewLineItem
    | PercentItem
    | TabItem

  function LevelToString(level: Level): string {
    match level
    case DEBUG => "DEBUG"
    case INFO => "INFO"
    case WARN => "WARN"
    case ERROR => "ERROR"
    case FATAL => "FATAL"
    case UNKNOW => "UNKNOWN"
  }

  function Format(item: Item, e: Event): string {
    match item
    case TextItem(str) => str
    case NameItem => e.name
    case LevelItem => LevelToString(e.level)
    case FileNameItem => e.fileName
    case LineItem => e.line
    case DateTimeItem(format) => e.date(format)
    case ElapseItem => e.elapse
    case ThreadIdItem => e.threadId
    case ThreadNameItem => e.threadName
    case CoroutineIdItem => e.coroutineId
    case ContentItem => e.content
    case NewLineItem => "\n"
    case PercentItem => "%"
    case TabItem => "\t"
  }

  const DEFAULT_DATE := "%Y-%m-%d %H:%M:%S"

  /** The item of a directive. Only text and date use the parameter; an unknown letter becomes an error text. */
  function Factory(letter: char, param: string): Item {
    if letter == 'o' then TextItem(param)
    else if letter == 'c' then NameItem
    else if letter == 'p' then LevelItem
    else if letter == 'f' then FileNameItem
    else if letter == 'l' then LineItem
    else if letter == 'd' then DateTimeItem(if param == "" then DEFAULT_DATE else param)
    else if letter == 'r' then ElapseItem
    else if letter == 'T' then ThreadIdItem
    else if letter == 'N' then ThreadNameItem
    else if letter == 'C' then CoroutineIdItem
    else if letter == 'm' then ContentItem
    else if letter == 'n' then NewLineItem
    else if letter == '%' then PercentItem
    else if letter == 't' then TabItem
    else TextItem("<error format>")
  }

  function Build(t: Token): Item {
    match t
    case Text(str) => TextItem(str)
    case Directive(letter, param) => Factory(letter, param)
  }

  function BuildAll(ts: seq<Token>): seq<Item> {
    seq(|ts|, i requires 0 <= i < |ts| => Build(ts[i]))
  }

  function Render(items: seq<Item>, e: Event): string {
    if items == [] then "" else Format(items[0], e) + Render(items[1..], e)
  }

  /** What a layout with this pattern prints for an event. */
  function Output(p: string, e: Event): string {
    Render(BuildAll(ScanText(p).tokens), e)
  }

  // ----- The class -----

  datatype Status = SCAN | CREATE

  /** What the scanner has yet to read at index `i`. */
  function Unread(p: string, i: nat, status: Status): Scan {
    if i > |p| then Scan([], Clean)
    else if status == SCAN then ScanText(p[i..]) else ScanDirective(p[i..])
  }

  function Prepend(ts: seq<Token>, s: Scan): Scan { s.(tokens := ts + s.tokens) }

  lemma PrependCons(ts: seq<Token>, t: Token, s: Scan)
    ensures Prepend(ts, Cons(t, s)) == Prepend(ts + [t], s)
  {
    assert ts + ([t] + s.tokens) == ts + [t] + s.tokens;
  }

  lemma PrependNothing(ts: seq<Token>, end: End)
    ensures Prepend(ts, Scan([], end)) == Scan(ts, end)
  {
    assert ts + [] == ts;
  }

  lemma UnreadEnd(p: string, i: nat, status: Status)
    requires i >= |p|
    ensures Unread(p, i, status).tokens == [] && !Unread(p, i, status).end.Unclosed?
  {
    if i == |p| {
      assert p[i..] == "";
    }
  }

  lemma BuildSnoc(ts: seq<Token>, t: Token)
    ensures BuildAll(ts + [t]) == BuildAll(ts) + [Build(t)]
  {
  }

  /** A search in the pattern is a search in what is left of it. */
  lemma FindInRest(p: string, i: nat, c: char, from: nat, k: nat)
    requires i <= from <= k <= |p| && (k < |p| ==> p[k] == c) && forall j :: from <= j < k ==> p[j] != c
    ensures Find(p[i..], c, from - i) == k - i
  {
    var r := p[i..];
    assert forall j :: from - i <= j < k - i ==> r[j] == p[j + i];
  }

  lemma UnreadText(p: string, i: nat, end: nat)
    requires i < |p| && i <= end <= |p| && (end < |p| ==> p[end] == '%') && forall j :: i <= j < end ==> p[j] != '%'
    ensures Unread(p, i, SCAN) == Cons(Text(p[i..end]), Unread(p, end + 1, if end < |p| then CREATE else SCAN))
  {
    var r := p[i..];
    FindInRest(p, i, '%', i, end);
    assert r[..end - i] == p[i..end];
    if end < |p| {
      assert r[end - i + 1..] == p[end + 1..];
    } else {
      assert r == p[i..end];
      assert [Text(r)] + [] == [Text(r)];
    }
  }

  lemma UnreadBare(p: string, i: nat)
    requires i < |p| && !(i + 1 < |p| && p[i + 1] == '{')
    ensures Unread(p, i, CREATE) == Cons(Directive(p[i], ""), Unread(p, i + 1, SCAN))
  {
    assert p[i..][1..] == p[i + 1..];
  }

  lemma CutRest(p: string, i: nat, from: nat, to: nat)
    requires i <= from <= to <= |p|
    ensures p[i..][from - i..to - i] == p[from..to] && p[i..][to - i..] == p[to..]
  {
  }

  lemma UnreadParam(p: string, i: nat, end: nat)
    requires i + 3 <= end < |p| && p[i + 1] == '{' && p[end] == '}' && forall j :: i + 3 <= j < end ==> p[j] != '}'
    ensures Unread(p, i, CREATE) == Cons(Directive(p[i], p[i + 2..end]), Unread(p, end + 1, SCAN))
  {
    var r := p[i..];
    FindInRest(p, i, '}', i + 3, end);
    CutRest(p, i, i + 2, end);
    CutRest(p, i, end, end + 1);
  }

  lemma UnreadUnclosed(p: string, i: nat)
    requires i + 1 < |p| && p[i + 1] == '{' && forall j :: i + 3 <= j < |p| ==> p[j] != '}'
    ensures Unread(p, i, CREATE) == Scan([], Unclosed)
  {
    if i + 3 <= |p| {
      FindInRest(p, i, '}', i + 3, |p|);
    }
  }

  class Layout {
    const pattern: string
    var items: seq<Item>

    constructor (pattern: string)
      ensures this.pattern == pattern && items == BuildAll(ScanText(pattern).tokens)
    {
      this.pattern := pattern;
      items := [];
      new;
      var ok := Init();
    }

    /** State SCAN: text up to the next `%`. */
    method ReadText(i: nat) returns (end: nat, ghost token: Token)
      requires i < |pattern|
      modifies this`items
      ensures i <= end <= |pattern| && items == old(items) + [Build(token)]
      ensures Unread(pattern, i, SCAN) ==
              Cons(token, Unread(pattern, end + 1, if end < |pattern| then CREATE else SCAN))
    {
      end := i;
      while end < |pattern| && pattern[end] != '%'
        invariant i <= end <= |pattern|
        invariant forall k :: i <= k < end ==> pattern[k] != '%'
      {
        end := end + 1;
      }
      items := items + [TextItem(pattern[i..end])];
      token := Text(pattern[i..end]);
      UnreadText(pattern, i, end);
    }

    /** State CREATE: a directive; `ok` is false when its `{` is not closed. */
    method ReadDirective(i: nat) returns (ok: bool, last: nat, ghost token: Token)
      requires i < |pattern|
      modifies this`items
      ensures if ok
              then && i <= last < |pattern| && items == old(items) + [Build(token)]
                   && Unread(pattern, i, CREATE) == Cons(token, Unread(pattern, last + 1, SCAN))
              else items == old(items) && Unread(pattern, i, CREATE) == Scan([], Unclosed)
    {
      var letter, param := pattern[i], "";
      ok, last, token := true, i, Text("");
      if i + 1 < |pattern| && pattern[i + 1] == '{' {
        var begin := i + 2;
        var end := begin + 1;
        while end < |pattern| && pattern[end] != '}'
          invariant begin + 1 <= end
          invariant forall k :: begin + 1 <= k < end && k < |pattern| ==> pattern[k] != '}'
          decreases |pattern| - end
        {
          end := end + 1;
        }
        if end >= |pattern| {
          UnreadUnclosed(pattern, i);
          ok := false;
          return;
        }
        UnreadParam(pattern, i, end);
        last := end;
        param := pattern[begin..end];
      } else {
        UnreadBare(pattern, i);
      }
      items := items + [Factory(letter, param)];
      token := Directive(letter, param);
    }

    /** `init`; `ok` is false when the error for an unclosed `{` was reported. */
    method Init() returns (ok: bool)
      requires items == []
      modifies this
      ensures items == BuildAll(ScanText(pattern).tokens)
      ensures ok <==> !ScanText(pattern).end.Unclosed?
    {
      var status := SCAN;
      ghost var read: seq<Token> := [];
      var i := 0;
      assert pattern[0..] == pattern;
      while i < |pattern|
        invariant i <= |pattern| + 1
        invariant i == |pattern| + 1 ==> status == SCAN
        invariant ScanText(pattern) == Prepend(read, Unread(pattern, i, status))
        invariant items == BuildAll(read)
        decreases |pattern| + 1 - i
      {
        ghost var token;
        match status {
        case SCAN =>
          i, token := ReadText(i);
          if i < |pattern| {
            status := CREATE;
          }
        case CREATE =>
          var closed;
          closed, i, token := ReadDirective(i);
          if !closed {
            PrependNothing(read, Unclosed);
            return false;
          }
          status := SCAN;
        }
        i := i + 1;
        PrependCons(read, token, Unread(pattern, i, status));
        BuildSnoc(read, token);
        read := read + [token];
      }
      UnreadEnd(pattern, i, status);
      PrependNothing(read, Unread(pattern, i, status).end);
      return true;
    }

    /** `layout`. */
    method Print(e: Event) returns (out: string)
      ensures out == Render(items, e)
    {
      out := "";
      for i := 0 to |items|
        invariant out + Render(items[i..], e) == Render(items, e)
      {
        out := out + Format(items[i], e);
        assert items[i..][1..] == items[i + 1..];
      }
    }
  }

  // ----- Rendering is compositional -----

  lemma RenderCons(t: Token, ts: seq<Token>, e: Event)
    ensures Render(BuildAll([t] + ts), e) == Format(Build(t), e) + Render(BuildAll(ts), e)
  {
    assert BuildAll([t] + ts)[1..] == BuildAll(ts);
  }

  lemma {:induction false} RenderConcat(a: seq<Token>, b: seq<Token>, e: Event)
    ensures Render(BuildAll(a + b), e) == Render(BuildAll(a), e) + Render(BuildAll(b), e)
    decreases |a|
  {
    if a == [] {
      assert a + b == b;
    } else {
      var first, rest := a[0], a[1..];
      assert a == [first] + rest && a + b == [first] + (rest + b);
      RenderConcat(rest, b, e);
      RenderCons(first, rest, e);
      RenderCons(first, rest + b, e);
      Associates(Format(Build(first), e), Render(BuildAll(rest), e), Render(BuildAll(b), e));
    }
  }

  /** Where text runs together, it prints the same. */
  lemma RenderTexts(x: string, y: string, rest: seq<Token>, e: Event)
    ensures Render(BuildAll([Text(x + y)] + rest), e) == x + Render(BuildAll([Text(y)] + rest), e)
  {
    RenderCons(Text(x + y), rest, e);
    RenderCons(Text(y), rest, e);
    Associates(x, y, Render(BuildAll(rest), e));
  }

  lemma {:induction false} RenderGlue(a: seq<Token>, b: seq<Token>, e: Event)
    ensures Render(BuildAll(Glue(a, b)), e) == Render(BuildAll(a), e) + Render(BuildAll(b), e)
    decreases |a|
  {
    if |a| > 1 {
      RenderGlue(a[1..], b, e);
      assert a == [a[0]] + a[1..];
      RenderCons(a[0], a[1..], e);
      RenderCons(a[0], Glue(a[1..], b), e);
      Associates(Format(Build(a[0]), e), Render(BuildAll(a[1..]), e), Render(BuildAll(b), e));
    } else if a != [] && b != [] && a[0].Text? && b[0].Text? {
      assert a == [Text(a[0].str)] && b == [Text(b[0].str)] + b[1..];
      RenderTexts(a[0].str, b[0].str, b[1..], e);
      RenderOne(a[0], e);
    } else {
      RenderConcat(a, b, e);
    }
  }

  lemma RenderOne(t: Token, e: Event)
    ensures Render(BuildAll([t]), e) == Format(Build(t), e)
  {
    RenderCons(t, [], e);
    assert [t] + [] == [t];
  }

  /**
   * Rendering `p + q` is rendering `p` and then `q`, unless the scan of `p` ends with an error, with a lone `%`, or
   * with a directive without a parameter to which a `{` at the start of `q` would belong.
   */
  lemma RenderingComposes(p: string, q: string, e: Event)
    requires ScanText(p).end.Clean? && !(EndsBare(ScanText(p).tokens) && StartsWithBrace(q))
    ensures Output(p + q, e) == Output(p, e) + Output(q, e)
    ensures ScanText(p + q).end == ScanText(q).end
  {
    ScansSideBySide(p, q);
    RenderGlue(ScanText(p).tokens, ScanText(q).tokens, e);
  }

  lemma RenderMiddle(front: seq<Token>, t: Token, rest: seq<Token>, e: Event)
    ensures Render(BuildAll(front + [t] + rest), e) ==
      Render(BuildAll(front), e) + (Format(Build(t), e) + Render(BuildAll(rest), e))
  {
    assert front + [t] + rest == front + ([t] + rest);
    RenderConcat(front, [t] + rest, e);
    RenderCons(t, rest, e);
  }

  /** The tokens before the last directive of a pattern. */
  function Front(p: string): seq<Token>
    requires EndsBare(ScanText(p).tokens)
  {
    ScanText(p).tokens[..|ScanText(p).tokens| - 1]
  }

  function LastLetter(p: string): char
    requires EndsBare(ScanText(p).tokens)
  {
    ScanText(p).tokens[|ScanText(p).tokens| - 1].letter
  }

  /**
   * What is printed in the excluded case: everything before the bare directive, then the directive with the braces
   * of `q` as its parameter, then what is left of `q`.
   */
  lemma BraceIsTaken(p: string, q: string, e: Event)
    requires ScanText(p).end.Clean? && EndsBare(ScanText(p).tokens) && StartsWithBrace(q) && ParamEnd(q) < |q|
    ensures Output(p + q, e) ==
      Render(BuildAll(Front(p)), e)
      + (Format(Factory(LastLetter(p), q[1..ParamEnd(q)]), e) + Output(q[ParamEnd(q) + 1..], e))
  {
    ScansSideBySide(p, q);
    var t, rest := Directive(LastLetter(p), q[1..ParamEnd(q)]), ScanText(q[ParamEnd(q) + 1..]).tokens;
    assert ScanText(p + q).tokens == Front(p) + [t] + rest;
    RenderMiddle(Front(p), t, rest, e);
  }

  /** When the brace is not closed, nothing is printed from the directive on. */
  lemma BraceIsOpen(p: string, q: string, e: Event)
    requires ScanText(p).end.Clean? && EndsBare(ScanText(p).tokens) && StartsWithBrace(q) && ParamEnd(q) == |q|
    ensures Output(p + q, e) == Render(BuildAll(Front(p)), e) && ScanText(p + q).end.Unclosed?
  {
    ScansSideBySide(p, q);
  }

  // ----- What the directives print -----

  /** A pattern that is one printed directive has the scan of that directive behind empty text. */
  lemma OneDirective(t: Token, e: Event)
    requires t.Directive? && TokenOk(t)
    ensures ScanText(PrintToken(t)).end.Clean? && Output(PrintToken(t), e) == Format(Build(t), e)
  {
    var p := PrintToken(t);
    PrintedDirective(t, "");
    assert p + "" == p;
    FindIs(p, '%', 0, 0);
    assert p[..0] == "";
    var d := Cons(t, ScanText(""));
    assert ScanText(p) == Cons(Text(""), d);
    RenderCons(Text(""), d.tokens, e);
    assert d.tokens == [t];
    RenderOne(t, e);
  }

  lemma OneBraced(c: char, param: string, e: Event)
    requires param != "" && Free(param[1..], '}')
    ensures
      var p := ['%', c, '{'] + param + ['}'];
      ScanText(p).end.Clean? && Output(p, e) == Format(Factory(c, param), e)
  {
    OneDirective(Directive(c, param), e);
  }

  lemma OneBare(c: char, e: Event)
    ensures ScanText(['%', c]).end.Clean? && Output(['%', c], e) == Format(Factory(c, ""), e)
  {
    OneDirective(Directive(c, ""), e);
  }

  /** What each directive prints on its own; a letter without a meaning prints an error text. */
  lemma DirectivePrints(c: char, e: Event)
    ensures ScanText(['%', c]).end.Clean?
    ensures
      var out := Output(['%', c], e);
      && (c == 'm' ==> out == e.content)
      && (c == 'c' ==> out == e.name)
      && (c == 'p' && e.level == DEBUG ==> out == "DEBUG")
      && (c == 'p' && e.level == INFO ==> out == "INFO")
      && (c == 'p' && e.level == WARN ==> out == "WARN")
      && (c == 'p' && e.level == ERROR ==> out == "ERROR")
      && (c == 'p' && e.level == FATAL ==> out == "FATAL")
      && (c == 'p' && e.level == UNKNOW ==> out == "UNKNOWN")
      && (c == 'f' ==> out == e.fileName)
      && (c == 'l' ==> out == e.line)
      && (c == 'd' ==> out == e.date("%Y-%m-%d %H:%M:%S"))
      && (c == 'r' ==> out == e.elapse)
      && (c == 'T' ==> out == e.threadId)
      && (c == 'N' ==> out == e.threadName)
      && (c == 'C' ==> out == e.coroutineId)
      && (c == 'n' ==> out == "\n")
      && (c == 't' ==> out == "\t")
      && (c == '%' ==> out == "%")
      && (c == 'o' ==> out == "")
      && (c !in "mcpfldrTNCnt%o" ==> out == "<error format>")
  {
    OneBare(c, e);
  }

  /** A parameter is the format of a date or the text of `%o`; every other directive prints what it prints without. */
  lemma ParameterPrints(c: char, param: string, e: Event)
    requires param != "" && Free(param[1..], '}')
    ensures
      var out := Output(['%', c, '{'] + param + ['}'], e);
      && (c == 'd' ==> out == e.date(param))
      && (c == 'o' ==> out == param)
      && (c != 'd' && c != 'o' ==> out == Output(['%', c], e))
  {
    OneBraced(c, param, e);
    OneBare(c, e);
  }

  // ----- Escaping -----

  function EscapeChar(c: char): string {
    if c == '%' then "%%" else if c == '{' then "%o{{}" else [c]
  }

  /** A pattern for a literal string. */
  function Escape(s: string): string {
    if s == "" then "" else EscapeChar(s[0]) + Escape(s[1..])
  }

  lemma EscapedChar(c: char, e: Event)
    ensures ScanText(EscapeChar(c)).end.Clean? && Output(EscapeChar(c), e) == [c]
  {
    if c == '%' {
      OneBare('%', e);
    } else if c == '{' {
      OneBraced('o', "{", e);
      assert "%o{{}" == ['%', 'o', '{'] + "{" + ['}'];
    } else {
      ScanOneText([c]);
      RenderOne(Text([c]), e);
    }
  }

  /** Every string has a pattern that renders exactly it, for every event. */
  lemma {:induction false} EscapeIsLiteral(s: string, e: Event)
    ensures ScanText(Escape(s)).end.Clean? && Output(Escape(s), e) == s
    decreases |s|
  {
    if s != "" {
      EscapedChar(s[0], e);
      EscapeIsLiteral(s[1..], e);
      assert !StartsWithBrace(Escape(s[1..]));
      RenderingComposes(EscapeChar(s[0]), Escape(s[1..]), e);
      assert s == [s[0]] + s[1..];
    }
  }
}
