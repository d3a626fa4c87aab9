/** The flattening of a YAML tree to dotted names, and what loading a flattened tree does to the variables. */
module ConfigTree {
  import opened ConfigNodes

  // ----- Flattening -----

  predicate NameChar(c: char) {
    'a' <= c <= 'z' || 'A' <= c <= 'Z' || '0' <= c <= '9' || c == '.' || c == '_'
  }

  predicate ValidName(name: string) {
    forall i :: 0 <= i < |name| ==> NameChar(name[i])
  }

  /** The characters allowed are those that the source lists. */
  lemma NameCharIff(c: char)
    ensures NameChar(c) <==> c in {
      'a', 'b', 'c', 'd', 'e', 'f', 'g', 'h', 'i', 'j', 'k', 'l', 'm',
      'n', 'o', 'p', 'q', 'r', 's', 't', 'u', 'v', 'w', 'x', 'y', 'z',
      'A', 'B', 'C', 'D', 'E', 'F', 'G', 'H', 'I', 'J', 'K', 'L', 'M',
      'N', 'O', 'P', 'Q', 'R', 'S', 'T', 'U', 'V', 'W', 'X', 'Y', 'Z',
      '0', '1', '2', '3', '4', '5', '6', '7', '8', '9', '.', '_'
    }
  {
  }

  function Path(prefix: string, key: string): string {
    if prefix == "" then key else prefix + "." + key
  }

  /** The pairs that the traversal appends, in its order: a node first, then what lies below it. */
  ghost function Flatten(prefix: string, node: Node): seq<(string, Node)>
    decreases node, 1
  {
    if !ValidName(prefix) then []
    else [(prefix, node)] + (if node.Map? then FlattenEntries(prefix, node, 0) else [])
  }

  ghost function FlattenEntries(prefix: string, node: Node, i: nat): seq<(string, Node)>
    requires node.Map? && i <= |node.entries|
    decreases node, 0, |node.entries| - i
  {
    if i == |node.entries| then []
    else Flatten(Path(prefix, node.entries[i].0), node.entries[i].1) + FlattenEntries(prefix, node, i + 1)
  }

  /** The child positions `p` lead from `node` to `target`, which is called `name`; all the names on the way
      are valid. */
  ghost predicate Leads(prefix: string, node: Node, p: seq<nat>, name: string, target: Node)
    decreases |p|
  {
    && ValidName(prefix)
    && if p == [] then name == prefix && target == node
       else
         && node.Map? && p[0] < |node.entries|
         && Leads(Path(prefix, node.entries[p[0]].0), node.entries[p[0]].1, p[1..], name, target)
  }

  /** Preorder: ancestors come before their descendants, and subtrees in the order of their roots. */
  ghost predicate Before(p: seq<nat>, q: seq<nat>)
    decreases |p|
  {
    q != [] && (p == [] || p[0] < q[0] || (p[0] == q[0] && Before(p[1..], q[1..])))
  }

  ghost predicate Preordered(ps: seq<seq<nat>>) {
    forall j, k :: 0 <= j < k < |ps| ==> Before(ps[j], ps[k])
  }

  ghost function Below(i: nat, ps: seq<seq<nat>>): (below: seq<seq<nat>>)
    ensures |below| == |ps| && forall k :: 0 <= k < |ps| ==> below[k] == [i] + ps[k]
  {
    seq(|ps|, k requires 0 <= k < |ps| => [i] + ps[k])
  }

  /** Each position leads to the pair listed with it. */
  ghost predicate Finds(prefix: string, node: Node, ps: seq<seq<nat>>, pairs: seq<(string, Node)>) {
    |ps| == |pairs| && forall k :: 0 <= k < |ps| ==> Leads(prefix, node, ps[k], pairs[k].0, pairs[k].1)
  }

  /** No node that can be reached is missing. */
  ghost predicate Complete(prefix: string, node: Node, ps: seq<seq<nat>>) {
    forall p, name, target :: Leads(prefix, node, p, name, target) ==> p in ps
  }

  /**
   * The flattened tree lists, in preorder and each once, exactly the nodes that can be reached from the root
   * through valid names, and each of them under its dotted name.
   */
  lemma {:induction false} FlattenIsPreorder(prefix: string, node: Node) returns (ps: seq<seq<nat>>)
    ensures Preordered(ps)
    ensures Finds(prefix, node, ps, Flatten(prefix, node))
    ensures Complete(prefix, node, ps)
    decreases node, 1
  {
    if !ValidName(prefix) {
      ps := [];
    } else if !node.Map? {
      ps := [[]];
    } else {
      var below := EntriesArePreorder(prefix, node, 0);
      ps := [[]] + below;
    }
  }

  /** A child is reached under its parent's name, a dot and its key, and a child of a nameless node under its key. */
  lemma {:induction false} ChildName(prefix: string, node: Node, p: seq<nat>, name: string, target: Node, i: nat)
    requires Leads(prefix, node, p, name, target) && target.Map? && i < |target.entries|
    ensures
      var (key, child) := target.entries[i];
      var below := if name == "" then key else name + "." + key;
      ValidName(below) ==> Leads(prefix, node, p + [i], below, child)
    decreases |p|
  {
    var q := p + [i];
    if p == [] {
      assert q[1..] == [];
    } else {
      assert q[1..] == p[1..] + [i];
      ChildName(Path(prefix, node.entries[p[0]].0), node.entries[p[0]].1, p[1..], name, target, i);
    }
  }

  lemma {:induction false} EntriesArePreorder(prefix: string, node: Node, i: nat) returns (ps: seq<seq<nat>>)
    requires ValidName(prefix) && node.Map? && i <= |node.entries|
    ensures Preordered(ps) && forall k :: 0 <= k < |ps| ==> ps[k] != [] && ps[k][0] >= i
    ensures Finds(prefix, node, ps, FlattenEntries(prefix, node, i))
    ensures forall p, name, target :: Leads(prefix, node, p, name, target) && p != [] && p[0] >= i ==> p in ps
    decreases node, 0, |node.entries| - i
  {
    if i == |node.entries| {
      ps := [];
    } else {
      var name, child := Path(prefix, node.entries[i].0), node.entries[i].1;
      var positions := FlattenIsPreorder(name, child);
      var rest := EntriesArePreorder(prefix, node, i + 1);
      BelowFinds(prefix, node, i, positions, Flatten(name, child));
      FindsConcat(prefix, node, Below(i, positions), Flatten(name, child), rest, FlattenEntries(prefix, node, i + 1));
      ps := Below(i, positions) + rest;
      forall p, name, target | Leads(prefix, node, p, name, target) && p != [] && p[0] >= i
        ensures p in ps
      {
        if p[0] == i {
          BelowCompletes(prefix, node, i, positions, p, name, target);
        }
      }
    }
  }

  lemma FindsConcat(
      prefix: string, node: Node,
      ps: seq<seq<nat>>, pairs: seq<(string, Node)>, morePs: seq<seq<nat>>, morePairs: seq<(string, Node)>)
    requires Finds(prefix, node, ps, pairs) && Finds(prefix, node, morePs, morePairs)
    ensures Finds(prefix, node, ps + morePs, pairs + morePairs)
  {
    var all, allPairs := ps + morePs, pairs + morePairs;
    forall k | 0 <= k < |all|
      ensures Leads(prefix, node, all[k], allPairs[k].0, allPairs[k].1)
    {
      if k >= |ps| {
        assert all[k] == morePs[k - |ps|] && allPairs[k] == morePairs[k - |ps|];
      }
    }
  }

  lemma BelowFinds(prefix: string, node: Node, i: nat, ps: seq<seq<nat>>, pairs: seq<(string, Node)>)
    requires ValidName(prefix) && node.Map? && i < |node.entries|
    requires Preordered(ps) && Finds(Path(prefix, node.entries[i].0), node.entries[i].1, ps, pairs)
    ensures Preordered(Below(i, ps)) && Finds(prefix, node, Below(i, ps), pairs)
  {
    forall k | 0 <= k < |ps|
      ensures Below(i, ps)[k][1..] == ps[k]
    {
    }
  }

  lemma BelowCompletes(
      prefix: string, node: Node, i: nat, ps: seq<seq<nat>>, p: seq<nat>, name: string, target: Node)
    requires ValidName(prefix) && node.Map? && i < |node.entries|
    requires Complete(Path(prefix, node.entries[i].0), node.entries[i].1, ps)
    requires Leads(prefix, node, p, name, target) && p != [] && p[0] == i
    ensures p in Below(i, ps)
  {
    assert Leads(Path(prefix, node.entries[i].0), node.entries[i].1, p[1..], name, target);
    var k :| 0 <= k < |ps| && ps[k] == p[1..];
    assert p == [i] + p[1..] == Below(i, ps)[k];
  }

  // ----- Loading -----

  /** A variable, and the calls of its listener so far, as pairs of the old and the new value. */
  datatype Var = Var(kind: Kind, value: Value, listening: bool, calls: seq<(Value, Value)>)

  type Vars = map<string, Var>

  /** What registration guarantees of every variable. */
  ghost predicate Registered(vars: Vars) {
    forall name :: name in vars ==> name != "" && ValidName(name) && Typed(vars[name].value, vars[name].kind)
  }

  /** Setting an equal value does nothing; otherwise the listener is called before the value changes. */
  function SetVar(v: Var, value: Value): Var {
    if v.value == value then v
    else v.(value := value, calls := if v.listening then v.calls + [(v.value, value)] else v.calls)
  }

  /** What one entry of the flattened tree does: a nameless, unknown or null entry, and one that does not
      decode, nothing. */
  function Apply(vars: Vars, name: string, node: Node): Vars {
    if name == "" || name !in vars || node == Null then vars
    else
      match Decode(vars[name].kind, node)
      case None => vars
      case Some(value) => vars[name := SetVar(vars[name], value)]
  }

  function ApplyAll(vars: Vars, nodes: seq<(string, Node)>): (r: Vars)
    ensures r.Keys == vars.Keys
    ensures forall name :: name in vars ==> r[name].kind == vars[name].kind && r[name].listening == vars[name].listening
    decreases |nodes|
  {
    if nodes == [] then vars else ApplyAll(Apply(vars, nodes[0].0, nodes[0].1), nodes[1..])
  }

  lemma {:induction false} ApplyAllConcat(vars: Vars, first: seq<(string, Node)>, second: seq<(string, Node)>)
    ensures ApplyAll(vars, first + second) == ApplyAll(ApplyAll(vars, first), second)
    decreases |first|
  {
    if first == [] {
      assert first + second == second;
    } else {
      assert (first + second)[1..] == first[1..] + second;
      ApplyAllConcat(Apply(vars, first[0].0, first[0].1), first[1..], second);
    }
  }

  /** This entry of the flattened tree gives the variable a value. */
  predicate Writes(name: string, kind: Kind, entry: (string, Node)) {
    name != "" && entry.0 == name && entry.1 != Null && Decode(kind, entry.1).Some?
  }

  /** A variable to which no entry gives a value is untouched: neither its value nor its listener's calls change. */
  lemma {:induction false} UnwrittenUntouched(vars: Vars, nodes: seq<(string, Node)>, name: string)
    requires name in vars
    requires forall i :: 0 <= i < |nodes| ==> !Writes(name, vars[name].kind, nodes[i])
    ensures ApplyAll(vars, nodes)[name] == vars[name]
    decreases |nodes|
  {
    if nodes != [] {
      UnwrittenUntouched(Apply(vars, nodes[0].0, nodes[0].1), nodes[1..], name);
    }
  }

  /** A variable is untouched by entries that denote no value of its type. */
  lemma MeaninglessUntouched(vars: Vars, nodes: seq<(string, Node)>, name: string)
    requires name in vars
    requires forall i, v :: 0 <= i < |nodes| && nodes[i].0 == name ==> !Denotes(vars[name].kind, nodes[i].1, v)
    ensures ApplyAll(vars, nodes)[name] == vars[name]
  {
    forall i | 0 <= i < |nodes|
      ensures !Writes(name, vars[name].kind, nodes[i])
    {
      if Writes(name, vars[name].kind, nodes[i]) {
        DecodeIffDenotes(vars[name].kind, nodes[i].1, Decode(vars[name].kind, nodes[i].1).value);
      }
    }
    UnwrittenUntouched(vars, nodes, name);
  }

  /** A scalar that reads as a 32-bit integer. */
  predicate Integral(node: Node) {
    node.Scalar? && Numeral(node.text) && IsInt32(Number(node.text))
  }

  /** An entry sets an integer variable, to the number it denotes, exactly when it is a numeral in range. */
  lemma IntegerEntry(vars: Vars, name: string, node: Node)
    requires name in vars && name != "" && vars[name].kind == IntKind
    ensures
      Apply(vars, name, node) ==
      if Integral(node) then vars[name := SetVar(vars[name], Int(Number(node.text)))] else vars
  {
    if Integral(node) {
      DecodeIffDenotes(IntKind, node, Int(Number(node.text)));
    } else if Decode(IntKind, node).Some? {
      DecodeIffDenotes(IntKind, node, Decode(IntKind, node).value);
    }
  }

  /** Of the entries that give a variable a value, the last in preorder decides. */
  lemma {:induction false} LastWriterWins(vars: Vars, nodes: seq<(string, Node)>, name: string, last: nat)
    requires name in vars && last < |nodes| && Writes(name, vars[name].kind, nodes[last])
    requires forall i :: last < i < |nodes| ==> !Writes(name, vars[name].kind, nodes[i])
    ensures ApplyAll(vars, nodes)[name].value == Decode(vars[name].kind, nodes[last].1).value
    decreases |nodes|
  {
    var next := Apply(vars, nodes[0].0, nodes[0].1);
    if last == 0 {
      UnwrittenUntouched(next, nodes[1..], name);
    } else {
      LastWriterWins(next, nodes[1..], name, last - 1);
    }
  }

  /** The value that a list of entries gives a variable, if any. */
  function LastWritten(name: string, kind: Kind, nodes: seq<(string, Node)>): Option<Value> {
    if nodes == [] then None
    else
      var last := nodes[|nodes| - 1];
      if Writes(name, kind, last) then Decode(kind, last.1) else LastWritten(name, kind, nodes[..|nodes| - 1])
  }

  lemma {:induction false} LastWrittenConcat(name: string, kind: Kind, a: seq<(string, Node)>, b: seq<(string, Node)>)
    ensures LastWritten(name, kind, a + b) ==
      if LastWritten(name, kind, b).Some? then LastWritten(name, kind, b) else LastWritten(name, kind, a)
    decreases |b|
  {
    if b == [] {
      assert a + b == a;
    } else {
      assert (a + b)[..|a + b| - 1] == a + b[..|b| - 1];
      LastWrittenConcat(name, kind, a, b[..|b| - 1]);
    }
  }

  /** Loading gives a variable the value written last, and leaves it when none is written. */
  lemma {:induction false} LoadedValue(vars: Vars, nodes: seq<(string, Node)>, name: string)
    requires name in vars
    ensures
      var written := LastWritten(name, vars[name].kind, nodes);
      ApplyAll(vars, nodes)[name].value == if written.Some? then written.value else vars[name].value
    decreases |nodes|
  {
    if nodes != [] {
      var front, last := nodes[..|nodes| - 1], nodes[|nodes| - 1];
      assert nodes == front + [last];
      LoadedValue(vars, front, name);
      ApplyAllConcat(vars, front, [last]);
      assert ApplyAll(ApplyAll(vars, front), [last]) == Apply(ApplyAll(vars, front), last.0, last.1);
    }
  }

  /** Pairs of an old and a new value that lead from one value to another, each old value being the new one
      before it. */
  ghost predicate Chain(calls: seq<(Value, Value)>, from: Value, to: Value)
    decreases |calls|
  {
    if calls == [] then from == to
    else calls[0].0 == from && calls[0].1 != from && Chain(calls[1..], calls[0].1, to)
  }

  /** The listener's calls during a load lead from the value before it to the value after it, never repeating a
      value. */
  lemma {:induction false} ListenerCallsChain(vars: Vars, nodes: seq<(string, Node)>, name: string)
    requires name in vars
    ensures
      var before, after := vars[name], ApplyAll(vars, nodes)[name];
      && before.calls <= after.calls
      && if before.listening then Chain(after.calls[|before.calls|..], before.value, after.value)
         else after.calls == before.calls
    decreases |nodes|
  {
    if nodes != [] {
      var next := Apply(vars, nodes[0].0, nodes[0].1);
      ListenerCallsChain(next, nodes[1..], name);
      var before, middle, after := vars[name], next[name], ApplyAll(vars, nodes)[name];
      if before != middle && before.listening {
        assert after.calls[|before.calls|..] == [(before.value, middle.value)] + after.calls[|middle.calls|..];
      }
    }
  }

  lemma ApplyKeepsTypes(vars: Vars, name: string, node: Node)
    requires Registered(vars)
    ensures Registered(Apply(vars, name, node))
  {
    if name in vars && Decode(vars[name].kind, node).Some? {
      DecodeTyped(vars[name].kind, node);
    }
  }
}
