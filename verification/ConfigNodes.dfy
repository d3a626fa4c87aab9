/** YAML trees, the values that configuration variables hold, and the conversions between them. */
module ConfigNodes {

  datatype Option<+T> = None | Some(value: T)

  /** A YAML node. The entries of a map keep their order, and a key may occur twice. */
  datatype Node = Null | Scalar(text: string) | Sequence(items: seq<Node>) | Map(entries: seq<(string, Node)>)

  /** The type of a variable. The flags tell a vector from a list and an ordered container from a hashed one. */
  datatype Kind =
    | TextKind
    | IntKind
    | ListKind(linked: bool, elem: Kind)
    | SetKind(hashed: bool, elem: Kind)
    | MapKind(hashed: bool, elem: Kind)

  datatype Value =
    | Text(text: string)
    | Int(n: int)
    | List(items: seq<Value>)
    | Set(elems: set<Value>)
    | Table(entries: map<string, Value>)

  predicate IsInt32(n: int) { -0x8000_0000 <= n < 0x8000_0000 }

  ghost predicate Typed(v: Value, k: Kind) {
    match v
    case Text(_) => k == TextKind
    case Int(n) => k == IntKind && IsInt32(n)
    case List(items) => k.ListKind? && forall i :: 0 <= i < |items| ==> Typed(items[i], k.elem)
    case Set(elems) => k.SetKind? && forall x :: x in elems ==> Typed(x, k.elem)
    case Table(entries) => k.MapKind? && forall key :: key in entries ==> Typed(entries[key], k.elem)
  }

  /** No container is empty, at any depth. */
  ghost predicate Full(v: Value) {
    match v
    case Text(_) => true
    case Int(_) => true
    case List(items) => items != [] && forall i :: 0 <= i < |items| ==> Full(items[i])
    case Set(elems) => elems != {} && forall x :: x in elems ==> Full(x)
    case Table(entries) => entries != map[] && forall key :: key in entries ==> Full(entries[key])
  }

  // ----- Decimal numbers -----

  function Digit(d: nat): char
    requires d < 10
  {
    "0123456789"[d]
  }

  predicate IsDigit(c: char) { '0' <= c <= '9' }

  function ShowNat(n: nat): (s: string)
    ensures s != "" && forall i :: 0 <= i < |s| ==> IsDigit(s[i])
  {
    if n < 10 then [Digit(n)] else ShowNat(n / 10) + [Digit(n % 10)]
  }

  function ShowInt(n: int): string {
    if n < 0 then "-" + ShowNat(-n) else ShowNat(n)
  }

  function ReadNat(s: string): Option<nat> {
    if s == "" || !IsDigit(s[|s| - 1]) then None
    else
      var d := (s[|s| - 1] as int - '0' as int) as nat;
      if |s| == 1 then Some(d)
      else match ReadNat(s[..|s| - 1]) case None => None case Some(high) => Some(10 * high + d)
  }

  function ReadInt(s: string): Option<int> {
    if s != "" && s[0] == '-' then (match ReadNat(s[1..]) case None => None case Some(n) => Some(-(n as int)))
    else match ReadNat(s) case None => None case Some(n) => Some(n)
  }

  /** Digits, with at most one minus sign in front of them. */
  predicate Numeral(s: string) {
    Digits(s) != "" && forall i :: 0 <= i < |Digits(s)| ==> IsDigit(Digits(s)[i])
  }

  function Digits(s: string): string {
    if s != "" && s[0] == '-' then s[1..] else s
  }

  function PowerOfTen(n: nat): nat {
    if n == 0 then 1 else 10 * PowerOfTen(n - 1)
  }

  /** The sum of the digits, each times the power of ten of its position. */
  function Weighted(digits: string): int {
    if digits == "" then 0
    else (digits[0] as int - '0' as int) * PowerOfTen(|digits| - 1) + Weighted(digits[1..])
  }

  /** The number that a numeral denotes. */
  function Number(s: string): int {
    if s != "" && s[0] == '-' then -Weighted(s[1..]) else Weighted(s)
  }

  lemma {:induction false} WeightedSnoc(digits: string, last: char)
    ensures Weighted(digits + [last]) == 10 * Weighted(digits) + (last as int - '0' as int)
    decreases |digits|
  {
    var all := digits + [last];
    if digits == "" {
      assert all[1..] == "";
    } else {
      assert all[1..] == digits[1..] + [last];
      WeightedSnoc(digits[1..], last);
      ShiftedDigit(digits[0] as int - '0' as int, |digits| - 1);
    }
  }

  lemma ShiftedDigit(d: int, n: nat)
    ensures d * PowerOfTen(n + 1) == 10 * (d * PowerOfTen(n))
  {
  }

  lemma {:induction false} ReadNatIffDigits(s: string)
    ensures ReadNat(s).Some? <==> s != "" && forall i :: 0 <= i < |s| ==> IsDigit(s[i])
    ensures ReadNat(s).Some? ==> ReadNat(s).value == Weighted(s)
    decreases |s|
  {
    if s != "" {
      var front, last := s[..|s| - 1], s[|s| - 1];
      assert s == front + [last];
      WeightedSnoc(front, last);
      ReadNatIffDigits(front);
      assert forall i :: 0 <= i < |front| ==> front[i] == s[i];
    }
  }

  lemma ReadIntIffNumeral(s: string)
    ensures ReadInt(s) == if Numeral(s) then Some(Number(s)) else None
  {
    ReadNatIffDigits(s);
    ReadNatIffDigits(Digits(s));
  }

  lemma {:induction false} NatRoundTrip(n: nat)
    ensures ReadNat(ShowNat(n)) == Some(n)
  {
    if n >= 10 {
      NatRoundTrip(n / 10);
      var s := ShowNat(n);
      assert s[..|s| - 1] == ShowNat(n / 10);
    }
  }

  lemma ReadsSign(s: string, n: nat)
    requires s != "" && IsDigit(s[0]) && ReadNat(s) == Some(n)
    ensures ReadInt(s) == Some(n) && ReadInt("-" + s) == Some(-(n as int))
  {
    assert ("-" + s)[1..] == s;
  }

  lemma IntRoundTrip(n: int)
    ensures ReadInt(ShowInt(n)) == Some(n)
  {
    var size := if n < 0 then -n else n;
    NatRoundTrip(size);
    ReadsSign(ShowNat(size), size);
  }

  // ----- What encoding and decoding compute -----

  /** The sequence lists each element of the set once: an order in which a loop may visit it. */
  ghost predicate Orders<T(!new)>(order: seq<T>, s: set<T>) {
    && (forall i, j :: 0 <= i < j < |order| ==> order[i] != order[j])
    && (forall x :: x in order <==> x in s)
  }

  /** The node is what `encode` makes of the value for some order of iteration. A loop that never runs leaves
      the node null. */
  ghost predicate Encodes(v: Value, n: Node)
    decreases v, 1
  {
    match v
    case Text(s) => n == Scalar(s)
    case Int(i) => n == Scalar(ShowInt(i))
    case List(items) =>
      if items == [] then n == Null
      else n.Sequence? && |n.items| == |items| && forall i :: 0 <= i < |items| ==> Encodes(items[i], n.items[i])
    case Set(elems) =>
      if elems == {} then n == Null
      else n.Sequence? && exists order :: Orders(order, elems) && |order| == |n.items| && EncodesEach(v, order, n.items)
    case Table(entries) =>
      if entries == map[] then n == Null
      else n.Map? && Orders(Keys(n.entries), entries.Keys) && EncodesEntries(v, n.entries)
  }

  ghost predicate EncodesEach(v: Value, order: seq<Value>, nodes: seq<Node>)
    requires v.Set? && |order| == |nodes|
    decreases v, 0
  {
    forall i :: 0 <= i < |order| ==> order[i] in v.elems && Encodes(order[i], nodes[i])
  }

  ghost predicate EncodesEntries(v: Value, nodes: seq<(string, Node)>)
    requires v.Table?
    decreases v, 0
  {
    forall i :: 0 <= i < |nodes| ==> nodes[i].0 in v.entries && Encodes(v.entries[nodes[i].0], nodes[i].1)
  }

  function Keys(entries: seq<(string, Node)>): (keys: seq<string>)
    ensures |keys| == |entries| && forall i :: 0 <= i < |keys| ==> keys[i] == entries[i].0
  {
    seq(|entries|, i requires 0 <= i < |entries| => entries[i].0)
  }

  function Elements(vs: seq<Value>): set<Value> {
    set x | x in vs
  }

  /** What `decode` makes of a node; `None` is the failed conversion, an exception in the program. */
  function Decode(k: Kind, n: Node): Option<Value>
    decreases k, 0
  {
    match k
    case TextKind => (match n case Scalar(s) => Some(Text(s)) case Null => Some(Text("null")) case _ => None)
    case IntKind =>
      (match n
       case Scalar(s) => (match ReadInt(s) case None => None case Some(i) => if IsInt32(i) then Some(Int(i)) else None)
       case _ => None)
    case ListKind(_, elem) =>
      if !n.Sequence? then None
      else (match DecodeAll(elem, n.items) case None => None case Some(vs) => Some(List(vs)))
    case SetKind(_, elem) =>
      if !n.Sequence? then None
      else (match DecodeAll(elem, n.items) case None => None case Some(vs) => Some(Set(Elements(vs))))
    case MapKind(_, elem) =>
      if !n.Map? then None
      else (match DecodeEntries(elem, n.entries) case None => None case Some(m) => Some(Table(m)))
  }

  function DecodeAll(k: Kind, items: seq<Node>): (r: Option<seq<Value>>)
    ensures r.Some? ==> |r.value| == |items|
    decreases k, 1 + |items|
  {
    if items == [] then Some([])
    else
      match Decode(k, items[0])
      case None => None
      case Some(v) => match DecodeAll(k, items[1..]) case None => None case Some(vs) => Some([v] + vs)
  }

  /** The first of several values for one key is kept. */
  function DecodeEntries(k: Kind, entries: seq<(string, Node)>): Option<map<string, Value>>
    decreases k, 1 + |entries|
  {
    if entries == [] then Some(map[])
    else
      match Decode(k, entries[0].1)
      case None => None
      case Some(v) => match DecodeEntries(k, entries[1..]) case None => None case Some(m) => Some(m[entries[0].0 := v])
  }

  // ----- The loops of `encode` and `decode` -----

  function PushBack(n: Node, item: Node): Node {
    if n.Sequence? then Sequence(n.items + [item]) else Sequence([item])
  }

  /** Assignment to a key of a node: a null node becomes a map, and a key already there is overwritten. */
  function Assign(n: Node, key: string, item: Node): Node {
    Map(Put(Entries(n), key, item))
  }

  function Entries(n: Node): seq<(string, Node)> {
    if n.Map? then n.entries else []
  }

  function Put(entries: seq<(string, Node)>, key: string, item: Node): seq<(string, Node)> {
    if entries == [] then [(key, item)]
    else if entries[0].0 == key then [(key, item)] + entries[1..]
    else [entries[0]] + Put(entries[1..], key, item)
  }

  lemma {:induction false} PutNew(entries: seq<(string, Node)>, key: string, item: Node)
    requires key !in Keys(entries)
    ensures Put(entries, key, item) == entries + [(key, item)]
    ensures Keys(Put(entries, key, item)) == Keys(entries) + [key]
    decreases |entries|
  {
    if entries != [] {
      assert Keys(entries)[0] == entries[0].0;
      assert Keys(entries)[1..] == Keys(entries[1..]);
      PutNew(entries[1..], key, item);
      assert entries == [entries[0]] + entries[1..];
    }
  }

  lemma OrdersOneMore<T(!new)>(order: seq<T>, s: set<T>, x: T)
    requires Orders(order, s) && x !in s
    ensures Orders(order + [x], s + {x})
  {
  }

  method EncodeValue(v: Value) returns (n: Node)
    ensures Encodes(v, n)
    decreases v, 1
  {
    match v
    case Text(s) => n := Scalar(s);
    case Int(i) => n := Scalar(ShowInt(i));
    case List(_) => n := EncodeList(v);
    case Set(_) => n := EncodeSet(v);
    case Table(_) => n := EncodeTable(v);
  }

  method EncodeList(v: Value) returns (n: Node)
    requires v.List?
    ensures Encodes(v, n)
    decreases v, 0
  {
    n := Null;
    for i := 0 to |v.items|
      invariant i == 0 ==> n == Null
      invariant i > 0 ==> n.Sequence? && |n.items| == i && forall j :: 0 <= j < i ==> Encodes(v.items[j], n.items[j])
    {
      var item := EncodeValue(v.items[i]);
      n := PushBack(n, item);
    }
  }

  /** The loop over a set has visited the elements of `done`, in this order. */
  ghost predicate SetPart(v: Value, done: set<Value>, order: seq<Value>, n: Node)
    requires v.Set?
  {
    && done <= v.elems
    && Orders(order, done)
    && (order == [] ==> n == Null)
    && (order != [] ==> n.Sequence? && |n.items| == |order| && EncodesEach(v, order, n.items))
  }

  lemma SetPartNext(v: Value, done: set<Value>, order: seq<Value>, n: Node, x: Value, item: Node)
    requires v.Set? && SetPart(v, done, order, n)
    requires x in v.elems - done && Encodes(x, item)
    ensures SetPart(v, done + {x}, order + [x], PushBack(n, item))
  {
    OrdersOneMore(order, done, x);
  }

  method EncodeSet(v: Value) returns (n: Node)
    requires v.Set?
    ensures Encodes(v, n)
    decreases v, 0
  {
    n := Null;
    var done: set<Value> := {};
    ghost var order: seq<Value> := [];
    while done != v.elems
      invariant SetPart(v, done, order, n)
      decreases |v.elems - done|
    {
      var x :| x in v.elems - done;
      var item := EncodeValue(x);
      SetPartNext(v, done, order, n, x, item);
      assert v.elems - (done + {x}) < v.elems - done;
      n, done, order := PushBack(n, item), done + {x}, order + [x];
    }
    SetPartAll(v, order, n);
  }

  lemma SetPartAll(v: Value, order: seq<Value>, n: Node)
    requires v.Set? && SetPart(v, v.elems, order, n)
    ensures Encodes(v, n)
  {
    if order != [] {
      assert order[0] in v.elems;
    }
  }

  /** The loop over a table has visited the keys of `done`. */
  ghost predicate TablePart(v: Value, done: set<string>, n: Node)
    requires v.Table?
  {
    && done <= v.entries.Keys
    && Orders(Keys(Entries(n)), done)
    && (if n.Map? then EncodesEntries(v, n.entries) else n == Null)
  }

  lemma TablePartNext(v: Value, done: set<string>, n: Node, key: string, item: Node)
    requires v.Table? && TablePart(v, done, n)
    requires key in v.entries && key !in done && Encodes(v.entries[key], item)
    ensures TablePart(v, done + {key}, Assign(n, key, item))
  {
    PutNew(Entries(n), key, item);
    OrdersOneMore(Keys(Entries(n)), done, key);
  }

  method EncodeTable(v: Value) returns (n: Node)
    requires v.Table?
    ensures Encodes(v, n)
    decreases v, 0
  {
    n := Null;
    var done: set<string> := {};
    while done != v.entries.Keys
      invariant TablePart(v, done, n)
      invariant done != {} <==> n.Map?
      decreases |v.entries.Keys - done|
    {
      var key :| key in v.entries.Keys - done;
      var item := EncodeValue(v.entries[key]);
      TablePartNext(v, done, n, key, item);
      assert v.entries.Keys - (done + {key}) < v.entries.Keys - done;
      n, done := Assign(n, key, item), done + {key};
    }
    TablePartAll(v, n);
  }

  lemma TablePartAll(v: Value, n: Node)
    requires v.Table? && TablePart(v, v.entries.Keys, n)
    requires v.entries.Keys != {} <==> n.Map?
    ensures Encodes(v, n)
  {
    assert v.entries == map[] <==> v.entries.Keys == {};
  }

  ghost function Prepend(vs: seq<Value>, r: Option<seq<Value>>): (all: Option<seq<Value>>)
    ensures vs == [] ==> all == r
    ensures r == Some([]) ==> all == Some(vs)
  {
    match r case None => None case Some(rest) => assert [] + rest == rest && vs + [] == vs; Some(vs + rest)
  }

  lemma PrependNext(k: Kind, items: seq<Node>, i: nat, vs: seq<Value>)
    requires i < |items|
    ensures Prepend(vs, DecodeAll(k, items[i..])) ==
      match Decode(k, items[i]) case None => None case Some(v) => Prepend(vs + [v], DecodeAll(k, items[i + 1..]))
  {
    assert items[i..][1..] == items[i + 1..];
    match Decode(k, items[i])
    case None =>
    case Some(v) =>
      match DecodeAll(k, items[i + 1..])
      case None =>
      case Some(rest) => assert vs + ([v] + rest) == vs + [v] + rest;
  }

  method DecodeValue(k: Kind, n: Node) returns (r: Option<Value>)
    ensures r == Decode(k, n)
    decreases k, 0
  {
    match k {
      case TextKind =>
        match n {
          case Scalar(text) => r := Some(Text(text));
          case Null => r := Some(Text("null"));
          case _ => r := None;
        }
      case IntKind =>
        if !n.Scalar? { return None; }
        var i := ReadInt(n.text);
        r := if i.None? || !IsInt32(i.value) then None else Some(Int(i.value));
      case ListKind(_, elem) =>
        if !n.Sequence? { return None; }
        var vs := DecodeItems(elem, n.items);
        r := if vs.None? then None else Some(List(vs.value));
      case SetKind(_, elem) =>
        if !n.Sequence? { return None; }
        var vs := DecodeItems(elem, n.items);
        r := if vs.None? then None else Some(Set(Elements(vs.value)));
      case MapKind(_, elem) =>
        if !n.Map? { return None; }
        var m := DecodeTable(elem, n.entries);
        r := if m.None? then None else Some(Table(m.value));
    }
  }

  method DecodeItems(k: Kind, items: seq<Node>) returns (r: Option<seq<Value>>)
    ensures r == DecodeAll(k, items)
    decreases k, 1
  {
    var vs: seq<Value> := [];
    assert items[0..] == items;
    for i := 0 to |items|
      invariant DecodeAll(k, items) == Prepend(vs, DecodeAll(k, items[i..]))
    {
      PrependNext(k, items, i, vs);
      var v := DecodeValue(k, items[i]);
      if v.None? { return None; }
      vs := vs + [v.value];
    }
    r := Some(vs);
  }

  /** The values already emplaced win over those of the entries that are still to come. */
  ghost function Under(r: Option<map<string, Value>>, m: map<string, Value>): (all: Option<map<string, Value>>)
    ensures m == map[] ==> all == r
    ensures r == Some(map[]) ==> all == Some(m)
  {
    match r case None => None case Some(rest) => assert rest + map[] == rest && map[] + m == m; Some(rest + m)
  }

  lemma UnderNext(k: Kind, entries: seq<(string, Node)>, i: nat, m: map<string, Value>)
    requires i < |entries|
    ensures Under(DecodeEntries(k, entries[i..]), m) ==
      match Decode(k, entries[i].1)
      case None => None
      case Some(v) => Under(DecodeEntries(k, entries[i + 1..]), if entries[i].0 in m then m else m[entries[i].0 := v])
  {
    assert entries[i..][1..] == entries[i + 1..];
    match Decode(k, entries[i].1)
    case None =>
    case Some(v) =>
      match DecodeEntries(k, entries[i + 1..])
      case None =>
      case Some(rest) =>
        var key := entries[i].0;
        assert rest[key := v] + m == rest + (if key in m then m else m[key := v]);
  }

  method DecodeTable(k: Kind, entries: seq<(string, Node)>) returns (r: Option<map<string, Value>>)
    ensures r == DecodeEntries(k, entries)
    decreases k, 1
  {
    var m: map<string, Value> := map[];
    assert entries[0..] == entries;
    for i := 0 to |entries|
      invariant DecodeEntries(k, entries) == Under(DecodeEntries(k, entries[i..]), m)
    {
      UnderNext(k, entries, i, m);
      var v := DecodeValue(k, entries[i].1);
      if v.None? { return None; }
      if entries[i].0 !in m {
        m := m[entries[i].0 := v.value];
      }
    }
    r := Some(m);
  }

  // ----- What a node means -----

  /**
   * The node denotes this value of this type. A text is a scalar, and a null node is the text "null"; an integer is
   * a numeral in range; a list or a set is a sequence of nodes that denote its elements; a table is a map, in which
   * the first entry for a key gives its value and all later ones denote something, too.
   */
  ghost predicate Denotes(k: Kind, n: Node, v: Value)
    decreases k, 0
  {
    match k
    case TextKind => v.Text? && (n == Scalar(v.text) || (n == Null && v.text == "null"))
    case IntKind => v.Int? && IsInt32(v.n) && n.Scalar? && Numeral(n.text) && v.n == Number(n.text)
    case ListKind(_, elem) => n.Sequence? && v.List? && DenoteAll(elem, n.items, v.items)
    case SetKind(_, elem) =>
      n.Sequence? && v.Set? && exists vs :: DenoteAll(elem, n.items, vs) && v.elems == Elements(vs)
    case MapKind(_, elem) =>
      && n.Map? && v.Table?
      && exists vs :: DenoteAll(elem, Nodes(n.entries), vs) && FirstWins(Keys(n.entries), vs, v.entries)
  }

  ghost predicate DenoteAll(k: Kind, items: seq<Node>, vs: seq<Value>)
    decreases k, 1
  {
    |vs| == |items| && forall i :: 0 <= i < |items| ==> Denotes(k, items[i], vs[i])
  }

  function Nodes(entries: seq<(string, Node)>): (nodes: seq<Node>)
    ensures |nodes| == |entries| && forall i :: 0 <= i < |nodes| ==> nodes[i] == entries[i].1
  {
    seq(|entries|, i requires 0 <= i < |entries| => entries[i].1)
  }

  /** The table of the keys, each with the first of the values listed for it. */
  ghost predicate FirstWins(keys: seq<string>, vs: seq<Value>, m: map<string, Value>) {
    && |keys| == |vs|
    && m.Keys == (set key | key in keys)
    && forall i :: 0 <= i < |keys| && keys[i] !in keys[..i] ==> m[keys[i]] == vs[i]
  }

  lemma {:induction false} FirstIndex(keys: seq<string>, key: string) returns (i: nat)
    requires key in keys
    ensures i < |keys| && keys[i] == key && key !in keys[..i]
    decreases |keys|
  {
    var front := keys[..|keys| - 1];
    if key in front {
      i := FirstIndex(front, key);
      assert front[..i] == keys[..i];
    } else {
      i := |keys| - 1;
    }
  }

  lemma FirstWinsUnique(keys: seq<string>, vs: seq<Value>, m: map<string, Value>, m': map<string, Value>)
    requires FirstWins(keys, vs, m) && FirstWins(keys, vs, m')
    ensures m == m'
  {
    forall key | key in m
      ensures key in m' && m[key] == m'[key]
    {
      var i := FirstIndex(keys, key);
    }
  }

  lemma FirstWinsCons(key: string, v: Value, keys: seq<string>, vs: seq<Value>, m: map<string, Value>)
    requires FirstWins(keys, vs, m)
    ensures FirstWins([key] + keys, [v] + vs, m[key := v])
  {
    var all, allVs, m' := [key] + keys, [v] + vs, m[key := v];
    forall i | 0 <= i < |all| && all[i] !in all[..i]
      ensures m'[all[i]] == allVs[i]
    {
      if i > 0 {
        assert all[..i] == [key] + keys[..i - 1];
        assert all[..i][0] == key;
        assert keys[i - 1] !in keys[..i - 1];
      }
    }
  }

  lemma {:induction false} DecodeAllParts(k: Kind, items: seq<Node>, vs: seq<Value>)
    requires DecodeAll(k, items) == Some(vs)
    ensures |vs| == |items| && forall i :: 0 <= i < |items| ==> Decode(k, items[i]) == Some(vs[i])
    decreases |items|
  {
    if items != [] {
      DecodeAllParts(k, items[1..], vs[1..]);
    }
  }

  lemma NodesCons(entries: seq<(string, Node)>)
    requires entries != []
    ensures Nodes(entries) == [entries[0].1] + Nodes(entries[1..])
    ensures Keys(entries) == [entries[0].0] + Keys(entries[1..])
  {
    var nodes, keys := [entries[0].1] + Nodes(entries[1..]), [entries[0].0] + Keys(entries[1..]);
    forall i | 0 <= i < |entries|
      ensures nodes[i] == entries[i].1 && keys[i] == entries[i].0
    {
      if i > 0 {
        assert entries[i] == entries[1..][i - 1];
      }
    }
  }

  lemma DecodeAllCons(k: Kind, node: Node, rest: seq<Node>)
    ensures DecodeAll(k, [node] + rest) ==
      if Decode(k, node).None? || DecodeAll(k, rest).None? then None
      else Some([Decode(k, node).value] + DecodeAll(k, rest).value)
  {
    assert ([node] + rest)[1..] == rest;
  }

  /** The decoded items and the decoded table of one list of entries. */
  ghost predicate Agree(keys: seq<string>, vs: Option<seq<Value>>, m: Option<map<string, Value>>) {
    match vs case None => m == None case Some(values) => m.Some? && FirstWins(keys, values, m.value)
  }

  /** The loop over a map decodes all its nodes, and keeps the first value of a key. */
  lemma {:induction false} EntriesAreItems(k: Kind, entries: seq<(string, Node)>)
    ensures Agree(Keys(entries), DecodeAll(k, Nodes(entries)), DecodeEntries(k, entries))
    decreases |entries|
  {
    if entries != [] {
      var key, node, rest := entries[0].0, entries[0].1, entries[1..];
      EntriesAreItems(k, rest);
      NodesCons(entries);
      DecodeAllCons(k, node, Nodes(rest));
      var vs, m := DecodeAll(k, Nodes(rest)), DecodeEntries(k, rest);
      if Decode(k, node).Some? && vs.Some? {
        FirstWinsCons(key, Decode(k, node).value, Keys(rest), vs.value, m.value);
      }
    }
  }

  /** Decoding succeeds exactly on the nodes that denote a value of the type, and with that value. */
  lemma {:induction false} DecodeIffDenotes(k: Kind, n: Node, v: Value)
    ensures Decode(k, n) == Some(v) <==> Denotes(k, n, v)
    decreases k, 0
  {
    match k
    case TextKind =>
    case IntKind =>
      if n.Scalar? {
        ReadIntIffNumeral(n.text);
      }
    case ListKind(_, elem) =>
      if n.Sequence? && v.List? {
        DecodeAllIffDenoteAll(elem, n.items, v.items);
      }
    case SetKind(_, elem) =>
      if n.Sequence? && v.Set? {
        SetIffDenotes(elem, n.items, v.elems);
      }
    case MapKind(_, elem) =>
      if n.Map? && v.Table? {
        TableIffDenotes(elem, n.entries, v.entries);
      }
  }

  lemma {:induction false} DecodeAllIffDenoteAll(k: Kind, items: seq<Node>, vs: seq<Value>)
    ensures DecodeAll(k, items) == Some(vs) <==> DenoteAll(k, items, vs)
    decreases k, 1
  {
    forall i | 0 <= i < |items| && i < |vs|
      ensures Decode(k, items[i]) == Some(vs[i]) <==> Denotes(k, items[i], vs[i])
    {
      DecodeIffDenotes(k, items[i], vs[i]);
    }
    if DecodeAll(k, items) == Some(vs) {
      DecodeAllParts(k, items, vs);
    }
    if DenoteAll(k, items, vs) {
      DecodeAllIs(k, items, vs);
    }
  }

  lemma {:induction false} SetIffDenotes(k: Kind, items: seq<Node>, elems: set<Value>)
    ensures
      (DecodeAll(k, items).Some? && elems == Elements(DecodeAll(k, items).value)) <==>
      exists vs :: DenoteAll(k, items, vs) && elems == Elements(vs)
    decreases k, 2
  {
    forall vs
      ensures DecodeAll(k, items) == Some(vs) <==> DenoteAll(k, items, vs)
    {
      DecodeAllIffDenoteAll(k, items, vs);
    }
  }

  lemma {:induction false} TableIffDenotes(k: Kind, entries: seq<(string, Node)>, m: map<string, Value>)
    ensures
      DecodeEntries(k, entries) == Some(m) <==>
      exists vs :: DenoteAll(k, Nodes(entries), vs) && FirstWins(Keys(entries), vs, m)
    decreases k, 2
  {
    EntriesAreItems(k, entries);
    forall vs
      ensures DecodeAll(k, Nodes(entries)) == Some(vs) <==> DenoteAll(k, Nodes(entries), vs)
    {
      DecodeAllIffDenoteAll(k, Nodes(entries), vs);
    }
    if DecodeEntries(k, entries) == Some(m) {
      assert DenoteAll(k, Nodes(entries), DecodeAll(k, Nodes(entries)).value);
    }
    forall vs | DenoteAll(k, Nodes(entries), vs) && FirstWins(Keys(entries), vs, m)
      ensures DecodeEntries(k, entries) == Some(m)
    {
      FirstWinsUnique(Keys(entries), vs, m, DecodeEntries(k, entries).value);
    }
  }

  // ----- Encoding, then decoding -----

  lemma {:induction false} DecodeAllIs(k: Kind, items: seq<Node>, vs: seq<Value>)
    requires |vs| == |items| && forall i :: 0 <= i < |items| ==> Decode(k, items[i]) == Some(vs[i])
    ensures DecodeAll(k, items) == Some(vs)
    decreases |items|
  {
    if items != [] {
      DecodeAllIs(k, items[1..], vs[1..]);
      assert [vs[0]] + vs[1..] == vs;
    }
  }

  lemma {:induction false} DecodeAllFails(k: Kind, items: seq<Node>, i: nat)
    requires i < |items| && Decode(k, items[i]) == None
    ensures DecodeAll(k, items) == None
    decreases |items|
  {
    if i > 0 {
      DecodeAllFails(k, items[1..], i - 1);
    }
  }

  ghost function Restrict(m: map<string, Value>, keys: seq<string>): map<string, Value> {
    map key | key in m && key in keys :: m[key]
  }

  lemma RestrictOneMore(m: map<string, Value>, first: string, keys: seq<string>)
    requires first in m
    ensures Restrict(m, [first] + keys) == Restrict(m, keys)[first := m[first]]
  {
  }

  lemma {:induction false} DecodeEntriesIs(k: Kind, entries: seq<(string, Node)>, m: map<string, Value>)
    requires forall i :: 0 <= i < |entries| ==> entries[i].0 in m && Decode(k, entries[i].1) == Some(m[entries[i].0])
    ensures DecodeEntries(k, entries) == Some(Restrict(m, Keys(entries)))
    decreases |entries|
  {
    if entries != [] {
      DecodeEntriesIs(k, entries[1..], m);
      RestrictOneMore(m, entries[0].0, Keys(entries[1..]));
      assert Keys(entries) == [entries[0].0] + Keys(entries[1..]);
    }
  }

  lemma {:induction false} DecodeEntriesFails(k: Kind, entries: seq<(string, Node)>, i: nat)
    requires i < |entries| && Decode(k, entries[i].1) == None
    ensures DecodeEntries(k, entries) == None
    decreases |entries|
  {
    if i > 0 {
      DecodeEntriesFails(k, entries[1..], i - 1);
    }
  }

  lemma SameElements(order: seq<Value>, elems: set<Value>)
    requires Orders(order, elems)
    ensures Elements(order) == elems
  {
  }

  lemma {:induction false} FullRoundTrip(v: Value, n: Node, k: Kind)
    requires Typed(v, k) && Full(v) && Encodes(v, n)
    ensures Decode(k, n) == Some(v)
    decreases v
  {
    match v
    case Text(_) =>
    case Int(i) => IntRoundTrip(i);
    case List(items) =>
      forall i | 0 <= i < |items|
        ensures Decode(k.elem, n.items[i]) == Some(items[i])
      {
        FullRoundTrip(items[i], n.items[i], k.elem);
      }
      DecodeAllIs(k.elem, n.items, items);
    case Set(elems) =>
      var order :| Orders(order, elems) && |order| == |n.items| && EncodesEach(v, order, n.items);
      forall i | 0 <= i < |order|
        ensures Decode(k.elem, n.items[i]) == Some(order[i])
      {
        FullRoundTrip(order[i], n.items[i], k.elem);
      }
      DecodeAllIs(k.elem, n.items, order);
      SameElements(order, elems);
    case Table(entries) =>
      forall i | 0 <= i < |n.entries|
        ensures Decode(k.elem, n.entries[i].1) == Some(entries[n.entries[i].0])
      {
        FullRoundTrip(entries[n.entries[i].0], n.entries[i].1, k.elem);
      }
      DecodeEntriesIs(k.elem, n.entries, entries);
      assert Restrict(entries, Keys(n.entries)) == entries;
  }

  lemma {:induction false} EmptyFails(v: Value, n: Node, k: Kind)
    requires Typed(v, k) && !Full(v) && Encodes(v, n)
    ensures Decode(k, n) == None
    decreases v
  {
    match v
    case List(items) =>
      if items != [] {
        var i :| 0 <= i < |items| && !Full(items[i]);
        EmptyFails(items[i], n.items[i], k.elem);
        DecodeAllFails(k.elem, n.items, i);
      }
    case Set(elems) =>
      if elems != {} {
        var order :| Orders(order, elems) && |order| == |n.items| && EncodesEach(v, order, n.items);
        var x :| x in elems && !Full(x);
        assert x in order;
        var i :| 0 <= i < |order| && order[i] == x;
        EmptyFails(x, n.items[i], k.elem);
        DecodeAllFails(k.elem, n.items, i);
      }
    case Table(entries) =>
      if entries != map[] {
        var key :| key in entries && !Full(entries[key]);
        assert key in Keys(n.entries);
        var i :| 0 <= i < |n.entries| && Keys(n.entries)[i] == key;
        EmptyFails(entries[key], n.entries[i].1, k.elem);
        DecodeEntriesFails(k.elem, n.entries, i);
      }
  }

  /**
   * Whatever the order of iteration, a value comes back from its node exactly when none of its containers is empty;
   * otherwise decoding fails.
   */
  lemma RoundTripIffFull(v: Value, n: Node, k: Kind)
    requires Typed(v, k) && Encodes(v, n)
    ensures Decode(k, n) == (if Full(v) then Some(v) else None)
  {
    if Full(v) {
      FullRoundTrip(v, n, k);
    } else {
      EmptyFails(v, n, k);
    }
  }

  /** Only an empty container is written as a null node. */
  lemma NullIffEmpty(v: Value, n: Node)
    requires Encodes(v, n)
    ensures n == Null <==> v in {List([]), Set({}), Table(map[])}
  {
  }

  /** Decoding yields values of the type asked for. */
  lemma {:induction false} DecodeTyped(k: Kind, n: Node)
    requires Decode(k, n).Some?
    ensures Typed(Decode(k, n).value, k)
    decreases k, 0
  {
    match k
    case TextKind =>
    case IntKind =>
    case ListKind(_, elem) => DecodeAllTyped(elem, n.items);
    case SetKind(_, elem) => DecodeAllTyped(elem, n.items);
    case MapKind(_, elem) => DecodeEntriesTyped(elem, n.entries);
  }

  lemma {:induction false} DecodeAllTyped(k: Kind, items: seq<Node>)
    requires DecodeAll(k, items).Some?
    ensures forall i :: 0 <= i < |items| ==> Typed(DecodeAll(k, items).value[i], k)
    decreases k, 1 + |items|
  {
    if items != [] {
      DecodeTyped(k, items[0]);
      DecodeAllTyped(k, items[1..]);
    }
  }

  lemma {:induction false} DecodeEntriesTyped(k: Kind, entries: seq<(string, Node)>)
    requires DecodeEntries(k, entries).Some?
    ensures forall key :: key in DecodeEntries(k, entries).value ==> Typed(DecodeEntries(k, entries).value[key], k)
    decreases k, 1 + |entries|
  {
    if entries != [] {
      DecodeTyped(k, entries[0].1);
      DecodeEntriesTyped(k, entries[1..]);
    }
  }
}
