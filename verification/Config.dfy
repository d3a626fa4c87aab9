/** The registry of configuration variables. */
module Config {
  import opened ConfigNodes
  import opened ConfigTree
  import opened ConfigRestore

  /** The list to which the traversal appends. */
  class NodeList {
    var items: seq<(string, Node)>

    constructor ()
      ensures items == []
    {
      items := [];
    }
  }

  class ConfigVar {
    const name: string
    const kind: Kind
    var value: Value
    var listening: bool
    // The calls that the listener has received.
    var calls: seq<(Value, Value)>

    ghost function Abs(): Var
      reads this
    {
      Var(kind, value, listening, calls)
    }

    constructor (name: string, kind: Kind, value: Value)
      ensures this.name == name && Abs() == Var(kind, value, false, [])
    {
      this.name, this.kind, this.value, listening, calls := name, kind, value, false, [];
    }

    method SetListener()
      modifies this
      ensures Abs() == old(Abs()).(listening := true)
    {
      listening := true;
    }

    method RemoveListener()
      modifies this
      ensures Abs() == old(Abs()).(listening := false)
    {
      listening := false;
    }

    method SetValue(v: Value)
      modifies this
      ensures Abs() == SetVar(old(Abs()), v)
    {
      if value == v {
        return;
      }
      if listening {
        calls := calls + [(value, v)];
      }
      value := v;
    }

    method FromNode(node: Node)
      modifies this
      ensures
        var decoded := Decode(kind, node);
        Abs() == if decoded.Some? then SetVar(old(Abs()), decoded.value) else old(Abs())
    {
      var v := DecodeValue(kind, node);
      if v.Some? {
        SetValue(v.value);
      }
    }

    method ToNode() returns (node: Node)
      ensures Encodes(value, node)
    {
      node := EncodeValue(value);
    }
  }

  lemma OneChanged(before: Vars, after: Vars, name: string, node: Node)
    requires Registered(before) && after.Keys == before.Keys && name in before && name != "" && node != Null
    requires forall other :: other in before && other != name ==> after[other] == before[other]
    requires
      var decoded := Decode(before[name].kind, node);
      after[name] == if decoded.Some? then SetVar(before[name], decoded.value) else before[name]
    ensures after == Apply(before, name, node) && Registered(after)
  {
    ApplyKeepsTypes(before, name, node);
    assert after == before[name := after[name]];
  }

  lemma OneFewer(names: set<string>, done: set<string>, name: string)
    requires name in names - done
    ensures |names - (done + {name})| < |names - done|
  {
    assert names - done == (names - (done + {name})) + {name};
  }

  lemma Assoc<T>(a: seq<T>, b: seq<T>, c: seq<T>)
    ensures a + (b + c) == a + b + c
  {
  }

  class Config {
    var vars: map<string, ConfigVar>

    /** What the variables hold. */
    ghost function Abs(): Vars
      reads this, vars.Values
    {
      map name | name in vars :: vars[name].Abs()
    }

    ghost predicate Valid()
      reads this, vars.Values
    {
      && (forall name :: name in vars ==> vars[name].name == name)
      && Registered(Abs())
    }

    constructor ()
      ensures Valid() && Abs() == map[]
    {
      vars := map[];
    }

    method Create(name: string, kind: Kind, value: Value) returns (v: ConfigVar?)
      requires Valid() && Typed(value, kind)
      modifies this
      ensures Valid()
      ensures v == null <==> name == "" || !ValidName(name) || (name in old(vars) && old(vars[name]).kind != kind)
      ensures v != null && name in old(vars) ==> v == old(vars[name])
      ensures v != null && name !in old(vars) ==>
                fresh(v) && vars == old(vars)[name := v] && v.Abs() == Var(kind, value, false, [])
      ensures v == null || name in old(vars) ==> vars == old(vars)
      ensures Abs() == if v != null && name !in old(vars) then old(Abs())[name := Var(kind, value, false, [])]
          else old(Abs())
    {
      if name == "" {
        return null;
      }
      if !ValidName(name) {
        return null;
      }
      if name in vars {
        if vars[name].kind == kind {
          return vars[name];
        }
        return null;
      }
      var created := new ConfigVar(name, kind, value);
      vars := vars[name := created];
      v := created;
      assert Abs() == old(Abs())[name := Var(kind, value, false, [])];
    }

    method LookupBase(name: string) returns (v: ConfigVar?)
      ensures v == if name in vars then vars[name] else null
    {
      v := if name in vars then vars[name] else null;
    }

    static method TraversalYaml(prefix: string, node: Node, nodes: NodeList)
      modifies nodes
      ensures nodes.items == old(nodes.items) + Flatten(prefix, node)
      decreases node
    {
      if !ValidName(prefix) {
        return;
      }
      Assoc(nodes.items, [(prefix, node)], if node.Map? then FlattenEntries(prefix, node, 0) else []);
      nodes.items := nodes.items + [(prefix, node)];
      if node.Map? {
        for i := 0 to |node.entries|
          invariant nodes.items + FlattenEntries(prefix, node, i) == old(nodes.items) + Flatten(prefix, node)
        {
          var (key, child) := node.entries[i];
          Assoc(nodes.items, Flatten(Path(prefix, key), child), FlattenEntries(prefix, node, i + 1));
          TraversalYaml(if prefix == "" then key else prefix + "." + key, child, nodes);
        }
      }
    }

    /** The body of the loading loop. */
    method LoadEntry(key: string, node: Node)
      requires Valid()
      modifies vars.Values
      ensures Valid() && Abs() == Apply(old(Abs()), key, node)
    {
      if key == "" {
        return;
      }
      var v := LookupBase(key);
      if v != null {
        if node == Null {
          return;
        }
        ghost var before := Abs();
        v.FromNode(node);
        OneChanged(before, Abs(), key, node);
      }
    }

    method LoadFromYaml(root: Node)
      requires Valid()
      modifies vars.Values
      ensures Valid() && Abs() == ApplyAll(old(Abs()), Flatten("", root))
    {
      ghost var before := Abs();
      var nodes := new NodeList();
      TraversalYaml("", root, nodes);
      assert Abs() == before && nodes.items == Flatten("", root);
      LoadEntries(nodes.items);
    }

    /** The loading loop. */
    method LoadEntries(items: seq<(string, Node)>)
      requires Valid()
      modifies vars.Values
      ensures Valid() && Abs() == ApplyAll(old(Abs()), items)
    {
      ghost var before := Abs();
      assert items[0..] == items;
      for i := 0 to |items|
        invariant Valid() && ApplyAll(Abs(), items[i..]) == ApplyAll(before, items)
      {
        var (key, node) := items[i];
        assert items[i..][1..] == items[i + 1..];
        LoadEntry(key, node);
      }
    }

    /** Visits the variables in some order. */
    method GetConfig() returns (root: Node)
      requires Valid()
      ensures Exports(Abs(), root)
    {
      root := Null;
      var done: set<string> := {};
      ghost var all := Abs();
      var names := vars.Keys;
      assert names == all.Keys;
      while done != names
        invariant Lists(all, done, root)
        decreases |names - done|
      {
        var name :| name in names - done;
        var node := vars[name].ToNode();
        ListOneMore(all, done, root, name, node);
        OneFewer(names, done, name);
        root := Assign(root, vars[name].name, node);
        done := done + {name};
      }
      assert Exports(all, root);
    }
  }
}
