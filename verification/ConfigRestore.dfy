/** Exporting all variables to one tree and loading that tree again later. */
module ConfigRestore {
  import opened ConfigNodes
  import opened ConfigTree

  /** The node lists the values of the named variables, each once, in some order. */
  ghost predicate Lists(vars: Vars, names: set<string>, n: Node) {
    && names <= vars.Keys
    && (n.Map? || n == Null)
    && Orders(Keys(Entries(n)), names)
    && forall i :: 0 <= i < |Entries(n)| ==>
         Keys(Entries(n))[i] in names && Encodes(vars[Keys(Entries(n))[i]].value, Entries(n)[i].1)
  }

  /** The node is an export of the variables: a map with one entry for each, or null when there are none. */
  ghost predicate Exports(vars: Vars, n: Node) {
    Lists(vars, vars.Keys, n)
  }

  lemma ListOneMore(vars: Vars, names: set<string>, n: Node, name: string, item: Node)
    requires Lists(vars, names, n) && name in vars && name !in names && Encodes(vars[name].value, item)
    ensures Lists(vars, names + {name}, Assign(n, name, item))
  {
    PutNew(Entries(n), name, item);
    OrdersOneMore(Keys(Entries(n)), names, name);
  }

  /** No name extends another by a dot. */
  ghost predicate Apart(names: set<string>) {
    forall a, b :: a in names && b in names ==> !(a + "." <= b)
  }

  ghost predicate SameKinds(saved: Vars, now: Vars) {
    saved.Keys == now.Keys && forall name :: name in saved ==> saved[name].kind == now[name].kind
  }

  lemma PrefixTrans(a: string, b: string, c: string)
    requires a <= b && b <= c
    ensures a <= c
  {
  }

  /** Below a named node, every name extends the node's by a dot. */
  lemma {:induction false} NamesExtend(prefix: string, node: Node)
    requires prefix != ""
    ensures forall e :: e in Flatten(prefix, node) ==> e.0 == prefix || prefix + "." <= e.0
    decreases node, 1
  {
    if node.Map? {
      EntryNamesExtend(prefix, node, 0);
    }
  }

  lemma {:induction false} EntryNamesExtend(prefix: string, node: Node, i: nat)
    requires prefix != "" && node.Map? && i <= |node.entries|
    ensures forall e :: e in FlattenEntries(prefix, node, i) ==> prefix + "." <= e.0
    decreases node, 0, |node.entries| - i
  {
    if i < |node.entries| {
      var key, child := node.entries[i].0, node.entries[i].1;
      var name := Path(prefix, key);
      NamesExtend(name, child);
      EntryNamesExtend(prefix, node, i + 1);
      assert prefix + "." <= name <= name + ".";
      forall e | e in FlattenEntries(prefix, node, i)
        ensures prefix + "." <= e.0
      {
        if e in Flatten(name, child) && e.0 != name {
          PrefixTrans(name, name + ".", e.0);
          PrefixTrans(prefix + ".", name, e.0);
        }
      }
    }
  }

  /** What a restored variable holds: its value at the export, unless a container in that value was empty. */
  ghost function Restored(saved: Vars, now: Vars, name: string): Value
    requires name in saved && name in now
  {
    if Full(saved[name].value) then saved[name].value else now[name].value
  }

  /** After any changes of value, loading any export of `saved` restores the variable. */
  ghost predicate AlwaysRestored(saved: Vars, name: string)
    requires name in saved
  {
    forall n, now :: Exports(saved, n) && Registered(now) && SameKinds(saved, now) ==>
      ApplyAll(now, Flatten("", n))[name].value == Restored(saved, now, name)
  }

  /** The exported subtree `m` of variable `a` gives the variable `name` a value that is not its exported one. */
  ghost predicate Overwrites(saved: Vars, a: string, m: Node, name: string)
    requires name in saved
  {
    && a in saved && a != name && Encodes(saved[a].value, m)
    && LastWritten(name, saved[name].kind, Flatten(a, m)).Some?
    && (Full(saved[name].value) ==> LastWritten(name, saved[name].kind, Flatten(a, m)) != Some(saved[name].value))
  }

  ghost predicate Without(name: string, nodes: seq<(string, Node)>) {
    forall e :: e in nodes ==> e.0 != name
  }

  lemma {:induction false} WithoutWrites(name: string, kind: Kind, nodes: seq<(string, Node)>)
    requires Without(name, nodes)
    ensures LastWritten(name, kind, nodes) == None
    decreases |nodes|
  {
    if nodes != [] {
      WithoutWrites(name, kind, nodes[..|nodes| - 1]);
    }
  }

  ghost function Exported(v: Value): Option<Value> {
    if Full(v) then Some(v) else None
  }

  /** A variable's own subtree gives it its exported value, through the root only. */
  lemma OwnSubtree(saved: Vars, name: string, m: Node)
    requires Registered(saved) && name in saved && Encodes(saved[name].value, m)
    ensures LastWritten(name, saved[name].kind, Flatten(name, m)) == Exported(saved[name].value)
  {
    var kind, below := saved[name].kind, if m.Map? then FlattenEntries(name, m, 0) else [];
    if m.Map? {
      EntryNamesExtend(name, m, 0);
    }
    WithoutWrites(name, kind, below);
    LastWrittenConcat(name, kind, [(name, m)], below);
    RoundTripIffFull(saved[name].value, m, kind);
    NullIffEmpty(saved[name].value, m);
  }

  /** When nothing overwrites `name`, the subtree of any variable gives it no value or its exported one. */
  lemma SubtreeWrites(saved: Vars, key: string, m: Node, name: string)
    requires Registered(saved) && name in saved && key in saved && Encodes(saved[key].value, m)
    requires !Overwrites(saved, key, m, name)
    ensures LastWritten(name, saved[name].kind, Flatten(key, m)) in {None, Exported(saved[name].value)}
    ensures key == name ==> LastWritten(name, saved[name].kind, Flatten(key, m)) == Exported(saved[name].value)
  {
    if key == name {
      OwnSubtree(saved, name, m);
    }
  }

  /** Nothing overwrites the variable. */
  ghost predicate Undisturbed(saved: Vars, name: string)
    requires name in saved
  {
    forall a, m :: !Overwrites(saved, a, m, name)
  }

  /** What the subtree of entry `j` writes. */
  ghost function EntryWritten(n: Node, j: nat, name: string, kind: Kind): Option<Value>
    requires n.Map? && j < |n.entries|
  {
    LastWritten(name, kind, Flatten(n.entries[j].0, n.entries[j].1))
  }

  /** The entries from `i` on write what the later ones write, or else what entry `i` writes. */
  lemma EntryWrites(n: Node, i: nat, name: string, kind: Kind)
    requires n.Map? && i < |n.entries|
    ensures
      var later := LastWritten(name, kind, FlattenEntries("", n, i + 1));
      LastWritten(name, kind, FlattenEntries("", n, i)) ==
        if later.Some? then later else EntryWritten(n, i, name, kind)
  {
    LastWrittenConcat(name, kind, Flatten(n.entries[i].0, n.entries[i].1), FlattenEntries("", n, i + 1));
  }

  lemma ExportedEntry(saved: Vars, n: Node, i: nat)
    requires Exports(saved, n) && n.Map? && i < |n.entries|
    ensures n.entries[i].0 in saved && Encodes(saved[n.entries[i].0].value, n.entries[i].1)
  {
    assert Keys(n.entries)[i] == n.entries[i].0;
  }

  /** When every entry writes nothing or `v`, and entry `own` writes `v`, then so do all together. */
  lemma {:induction false} EntriesWrite(n: Node, i: nat, own: nat, name: string, kind: Kind, v: Option<Value>)
    returns (written: Option<Value>)
    requires n.Map? && i <= |n.entries| && own < |n.entries| && EntryWritten(n, own, name, kind) == v
    requires forall j :: i <= j < |n.entries| ==>
      EntryWritten(n, j, name, kind) == None || EntryWritten(n, j, name, kind) == v
    ensures written == LastWritten(name, kind, FlattenEntries("", n, i))
    ensures (written == None || written == v) && (i <= own ==> written == v)
    decreases |n.entries| - i
  {
    if i == |n.entries| {
      assert FlattenEntries("", n, i) == [];
      written := None;
    } else {
      var later := EntriesWrite(n, i + 1, own, name, kind, v);
      EntryWrites(n, i, name, kind);
      written := if later.Some? then later else EntryWritten(n, i, name, kind);
    }
  }

  /** The root entry of an exported tree has no name. */
  lemma RootWritesNothing(n: Node, name: string, kind: Kind)
    requires n.Map?
    ensures LastWritten(name, kind, Flatten("", n)) == LastWritten(name, kind, FlattenEntries("", n, 0))
  {
    LastWrittenConcat(name, kind, [("", n)], FlattenEntries("", n, 0));
    assert LastWritten(name, kind, [("", n)]) == None;
  }

  lemma UndisturbedIsRestored(saved: Vars, name: string, n: Node, now: Vars)
    requires Registered(saved) && name in saved && Exports(saved, n) && SameKinds(saved, now)
    requires Undisturbed(saved, name)
    ensures ApplyAll(now, Flatten("", n))[name].value == Restored(saved, now, name)
  {
    assert name in Keys(Entries(n));
    var own :| 0 <= own < |Keys(Entries(n))| && Keys(Entries(n))[own] == name;
    forall j | 0 <= j < |n.entries|
      ensures EntryWritten(n, j, name, saved[name].kind) in {None, Exported(saved[name].value)}
      ensures j == own ==> EntryWritten(n, j, name, saved[name].kind) == Exported(saved[name].value)
    {
      ExportedEntry(saved, n, j);
      SubtreeWrites(saved, n.entries[j].0, n.entries[j].1, name);
    }
    var written := EntriesWrite(n, 0, own, name, saved[name].kind, Exported(saved[name].value));
    RootWritesNothing(n, name, saved[name].kind);
    LoadedValue(now, Flatten("", n), name);
  }

  // ----- An export that lists one variable last -----

  /** The elements of a set in some order. */
  ghost function Enumerate<T(!new)>(s: set<T>): (order: seq<T>)
    ensures Orders(order, s)
  {
    if s == {} then []
    else
      var x :| x in s;
      OrdersOneMore(Enumerate(s - {x}), s - {x}, x);
      assert s - {x} + {x} == s;
      Enumerate(s - {x}) + [x]
  }

  /** Every value has an encoding. */
  ghost function SomeEncoding(v: Value): (n: Node)
    ensures Encodes(v, n)
    decreases v
  {
    match v
    case Text(s) => Scalar(s)
    case Int(i) => Scalar(ShowInt(i))
    case List(items) =>
      if items == [] then Null else Sequence(seq(|items|, i requires 0 <= i < |items| => SomeEncoding(items[i])))
    case Set(elems) =>
      if elems == {} then Null
      else
        var order := Enumerate(elems);
        var nodes := seq(|order|, i requires 0 <= i < |order| => assert order[i] in order; SomeEncoding(order[i]));
        assert order == [] ==> elems == {};
        assert EncodesEach(v, order, nodes);
        Sequence(nodes)
    case Table(entries) =>
      if entries == map[] then Null
      else
        var keys := Enumerate(entries.Keys);
        var nodes := seq(|keys|, i requires 0 <= i < |keys| =>
          assert keys[i] in keys; (keys[i], SomeEncoding(entries[keys[i]])));
        assert Keys(nodes) == keys;
        assert EncodesEntries(v, nodes);
        Map(nodes)
  }

  lemma {:induction false} ListExists(saved: Vars, names: set<string>) returns (n: Node)
    requires names <= saved.Keys
    ensures Lists(saved, names, n)
    decreases |names|
  {
    if names == {} {
      n := Null;
    } else {
      var name :| name in names;
      var rest := ListExists(saved, names - {name});
      var item := SomeEncoding(saved[name].value);
      ListOneMore(saved, names - {name}, rest, name, item);
      assert names - {name} + {name} == names;
      n := Assign(rest, name, item);
    }
  }

  /** The last entry decides whenever its subtree writes at all. */
  lemma {:induction false} LastEntryWrites(n: Node, i: nat, name: string, kind: Kind)
    requires n.Map? && i < |n.entries|
    requires var (a, m) := n.entries[|n.entries| - 1]; LastWritten(name, kind, Flatten(a, m)).Some?
    ensures
      var (a, m) := n.entries[|n.entries| - 1];
      LastWritten(name, kind, FlattenEntries("", n, i)) == LastWritten(name, kind, Flatten(a, m))
    decreases |n.entries| - i
  {
    EntryWrites(n, i, name, kind);
    if i == |n.entries| - 1 {
      assert FlattenEntries("", n, i + 1) == [];
    } else {
      LastEntryWrites(n, i + 1, name, kind);
    }
  }

  lemma ListedLast(saved: Vars, a: string, m: Node) returns (n: Node)
    requires a in saved && Encodes(saved[a].value, m)
    ensures Exports(saved, n) && n.Map? && n.entries != [] && n.entries[|n.entries| - 1] == (a, m)
  {
    var rest := ListExists(saved, saved.Keys - {a});
    ListOneMore(saved, saved.Keys - {a}, rest, a, m);
    assert saved.Keys - {a} + {a} == saved.Keys;
    PutNew(Entries(rest), a, m);
    n := Assign(rest, a, m);
  }

  function Plain(k: Kind): Value {
    match k
    case TextKind => Text("")
    case IntKind => Int(0)
    case ListKind(_, _) => List([])
    case SetKind(_, _) => Set({})
    case MapKind(_, _) => Table(map[])
  }

  /** Every type has a value other than `x`. */
  lemma AnotherValue(k: Kind, x: Value) returns (other: Value)
    ensures Typed(other, k) && other != x
  {
    if x != Plain(k) {
      other := Plain(k);
    } else {
      match k
      case TextKind => other := Text("x");
      case IntKind => other := Int(1);
      case ListKind(_, elem) => other := List([Plain(elem)]);
      case SetKind(_, elem) => other := Set({Plain(elem)});
        assert Plain(elem) in other.elems;
      case MapKind(_, elem) => other := Table(map["k" := Plain(elem)]);
        assert "k" in other.entries;
    }
  }

  /** An export that lists `a` last, with the subtree `m`, gives the variable the value that `m` writes. */
  lemma ListedLastWins(saved: Vars, a: string, m: Node, name: string, now: Vars) returns (n: Node)
    requires name in saved && Overwrites(saved, a, m, name) && SameKinds(saved, now)
    ensures Exports(saved, n)
    ensures Some(ApplyAll(now, Flatten("", n))[name].value) == LastWritten(name, saved[name].kind, Flatten(a, m))
  {
    n := ListedLast(saved, a, m);
    LastEntryWrites(n, 0, name, saved[name].kind);
    RootWritesNothing(n, name, saved[name].kind);
    LoadedValue(now, Flatten("", n), name);
  }

  lemma WithValue(saved: Vars, name: string, value: Value) returns (now: Vars)
    requires Registered(saved) && name in saved && Typed(value, saved[name].kind)
    ensures Registered(now) && SameKinds(saved, now) && now[name].value == value
  {
    now := saved[name := saved[name].(value := value)];
  }

  lemma OverwrittenIsLost(saved: Vars, a: string, m: Node, name: string)
    requires Registered(saved) && name in saved && Overwrites(saved, a, m, name)
    ensures !AlwaysRestored(saved, name)
  {
    var now := saved;
    if !Full(saved[name].value) {
      var other := AnotherValue(saved[name].kind, LastWritten(name, saved[name].kind, Flatten(a, m)).value);
      now := WithValue(saved, name, other);
    }
    var n := ListedLastWins(saved, a, m, name, now);
    assert ApplyAll(now, Flatten("", n))[name].value != Restored(saved, now, name);
  }

  /**
   * Loading an earlier export always gives a variable its value at the export (or leaves it, when a container in
   * that value was empty) exactly when no other variable has an encoding whose flattened subtree gives it another
   * value.
   */
  lemma RestoredIffUndisturbed(saved: Vars, name: string)
    requires Registered(saved) && name in saved
    ensures AlwaysRestored(saved, name) <==> Undisturbed(saved, name)
  {
    if a, m :| Overwrites(saved, a, m, name) {
      OverwrittenIsLost(saved, a, m, name);
    } else {
      forall n, now | Exports(saved, n) && Registered(now) && SameKinds(saved, now)
        ensures ApplyAll(now, Flatten("", n))[name].value == Restored(saved, now, name)
      {
        UndisturbedIsRestored(saved, name, n, now);
      }
    }
  }

  /** When no name extends another, nothing is ever overwritten. */
  lemma ApartIsUndisturbed(saved: Vars, a: string, m: Node, name: string)
    requires Registered(saved) && Apart(saved.Keys) && name in saved
    ensures !Overwrites(saved, a, m, name)
  {
    if a in saved && a != name {
      NamesExtend(a, m);
      WithoutWrites(name, saved[name].kind, Flatten(a, m));
    }
  }

  /**
   * So, when no name extends another, loading an earlier export after any changes gives each variable its value at
   * the export if no container in that value was empty, and leaves the variable as it is otherwise.
   */
  lemma ExportThenLoad(saved: Vars, n: Node, now: Vars, name: string)
    requires Registered(saved) && Apart(saved.Keys) && SameKinds(saved, now) && Exports(saved, n) && name in saved
    ensures ApplyAll(now, Flatten("", n))[name].value == Restored(saved, now, name)
    ensures ApplyAll(now, Flatten("", n))[name].value == saved[name].value <==>
      Full(saved[name].value) || now[name].value == saved[name].value
  {
    forall a, m
      ensures !Overwrites(saved, a, m, name)
    {
      ApartIsUndisturbed(saved, a, m, name);
    }
    UndisturbedIsRestored(saved, name, n, now);
  }

  lemma SingleEntry(k: string, x: int)
    ensures Encodes(Table(map[k := Int(x)]), Map([(k, Scalar(ShowInt(x)))]))
  {
    var table, entries := map[k := Int(x)], [(k, Scalar(ShowInt(x)))];
    assert table.Keys == {k} && k in table;
    assert Keys(entries) == [k];
    assert Encodes(Int(x), entries[0].1);
    assert EncodesEntries(Table(table), entries);
  }

  /** A table `a` that maps a key `k` to `x`, and a variable `a.k` that holds `y`. */
  ghost function Overlapping(a: string, k: string, x: int, y: int): Vars {
    map[
      a := Var(MapKind(false, IntKind), Table(map[k := Int(x)]), false, []),
      a + "." + k := Var(IntKind, Int(y), false, [])]
  }

  ghost function TableLast(a: string, k: string, x: int, y: int): Node {
    Map([(a + "." + k, Scalar(ShowInt(y))), (a, Map([(k, Scalar(ShowInt(x)))]))])
  }

  lemma OverlappingExport(a: string, k: string, x: int, y: int)
    requires a != "" && ValidName(a) && ValidName(k) && IsInt32(x) && IsInt32(y)
    ensures Overlapping(a, k, x, y).Keys == {a, a + "." + k}
    ensures Registered(Overlapping(a, k, x, y)) && Exports(Overlapping(a, k, x, y), TableLast(a, k, x, y))
  {
    SingleEntry(k, x);
    assert Keys(TableLast(a, k, x, y).entries) == [a + "." + k, a];
  }

  lemma OverlappingFlattened(a: string, k: string, x: int, y: int)
    requires a != "" && ValidName(a) && ValidName(k)
    ensures
      var n := TableLast(a, k, x, y);
      Flatten("", n) == [("", n), n.entries[0], n.entries[1], (a + "." + k, Scalar(ShowInt(x)))]
  {
    var n := TableLast(a, k, x, y);
    var table := n.entries[1].1;
    assert FlattenEntries(a, table, 0) == Flatten(a + "." + k, table.entries[0].1) + FlattenEntries(a, table, 1);
    assert FlattenEntries("", n, 0) == Flatten(a + "." + k, n.entries[0].1) + FlattenEntries("", n, 1);
    assert FlattenEntries("", n, 1) == Flatten(a, table) + FlattenEntries("", n, 2);
  }

  lemma OverlapLoaded(a: string, k: string, x: int, y: int)
    requires a != "" && ValidName(a) && ValidName(k) && IsInt32(x) && IsInt32(y)
    ensures ApplyAll(Overlapping(a, k, x, y), Flatten("", TableLast(a, k, x, y)))[a + "." + k].value == Int(x)
  {
    OverlappingExport(a, k, x, y);
    OverlappingFlattened(a, k, x, y);
    IntRoundTrip(x);
    LastWriterWins(Overlapping(a, k, x, y), Flatten("", TableLast(a, k, x, y)), a + "." + k, 3);
  }

  /**
   * A variable that is not always restored: when a table `a` has a key `k` and there is also a variable `a.k`, an
   * export that happens to list `a` last overwrites `a.k` as soon as it is loaded.
   */
  lemma ExtendedNameIsLost(a: string, k: string, x: int, y: int)
    requires a != "" && ValidName(a) && ValidName(k) && IsInt32(x) && IsInt32(y) && x != y
    ensures
      var vars, n := Overlapping(a, k, x, y), TableLast(a, k, x, y);
      && Registered(vars) && Exports(vars, n) && a + "." + k in vars && vars[a + "." + k].value == Int(y)
      && ApplyAll(vars, Flatten("", n))[a + "." + k].value == Int(x)
      && !AlwaysRestored(vars, a + "." + k)
  {
    OverlappingExport(a, k, x, y);
    OverlapLoaded(a, k, x, y);
    var vars, n := Overlapping(a, k, x, y), TableLast(a, k, x, y);
    assert ApplyAll(vars, Flatten("", n))[a + "." + k].value != Restored(vars, vars, a + "." + k);
  }
}
