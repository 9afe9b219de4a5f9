/** The DRAM timing tree, as a value. */
module DramTree {

  /** Command `cmd` must wait `val` clocks after the `dist`-th most recent issue; a sibling
      entry applies to the nodes beside the addressed one. */
  datatype TimingEntry = TimingEntry(cmd: nat, dist: nat, val: int, sibling: bool)

  /** `levels` is the level of rows, which are not nodes; `count[l]` is the number of nodes that
      a node of level `l-1` has below it, zero for none. */
  datatype Spec = Spec(commands: nat, levels: nat, bank: nat, count: seq<nat>,
                       timing: seq<seq<seq<TimingEntry>>>, scope: seq<nat>)

  predicate EntriesOk(spec: Spec, ts: seq<TimingEntry>) {
    forall i :: 0 <= i < |ts| ==>
      && ts[i].cmd < spec.commands && 1 <= ts[i].dist
      && (ts[i].sibling ==> ts[i].dist == 1)
  }

  predicate SpecOk(spec: Spec) {
    && |spec.timing| == spec.levels <= |spec.count|
    && |spec.scope| == spec.commands
    && forall l :: 0 <= l < spec.levels ==>
      && |spec.timing[l]| == spec.commands
      && forall c :: 0 <= c < spec.commands ==> EntriesOk(spec, spec.timing[l][c])
  }

  /** For every command a node keeps the earliest clock at which it may be issued, and a bounded
      history of issues. The spec tables are arbitrary. `DramNode` updates the tree in place. */
  datatype Tree = Node(id: int, level: nat, next: seq<int>, prev: seq<seq<int>>, serving: int,
                       children: seq<Tree>)

  function Max(a: int, b: int): int {
    if a >= b then a else b
  }

  // ----- Construction ----------------------------------------------------------------------

  function MaxDist(ts: seq<TimingEntry>, n: nat): (d: nat)
    requires n <= |ts|
    ensures forall i :: 0 <= i < n ==> ts[i].dist <= d
  {
    if n == 0 then 0 else
      var d := MaxDist(ts, n - 1);
      if ts[n - 1].dist > d then ts[n - 1].dist else d
  }

  function Empty(n: nat): seq<int> {
    seq(n, i => -1)
  }

  function NewPrev(spec: Spec, level: nat): seq<seq<int>>
    requires SpecOk(spec) && level < spec.levels
  {
    seq(spec.commands, c requires 0 <= c < spec.commands =>
      Empty(MaxDist(spec.timing[level][c], |spec.timing[level][c]|)))
  }

  function NewTree(spec: Spec, level: nat, id: int): Tree
    requires SpecOk(spec) && level < spec.levels
    decreases spec.levels - level
  {
    Node(id, level, Empty(spec.commands), NewPrev(spec, level), 0,
      if level + 1 == spec.levels then []
      else seq(spec.count[level + 1], i => NewTree(spec, level + 1, i)))
  }

  // ----- Shape -----------------------------------------------------------------------------

  predicate TablesOk(spec: Spec, level: nat, next: seq<int>, prev: seq<seq<int>>)
    requires SpecOk(spec) && level < spec.levels
  {
    && |next| == |prev| == spec.commands
    && forall c :: 0 <= c < spec.commands ==>
      |prev[c]| == MaxDist(spec.timing[level][c], |spec.timing[level][c]|)
  }

  predicate Shape(spec: Spec, t: Tree)
    requires SpecOk(spec)
    decreases t
  {
    && t.level < spec.levels
    && TablesOk(spec, t.level, t.next, t.prev)
    && |t.children| == (if t.level + 1 == spec.levels then 0 else spec.count[t.level + 1])
    && forall i :: 0 <= i < |t.children| ==>
      t.children[i].id == i && t.children[i].level == t.level + 1 && Shape(spec, t.children[i])
  }

  lemma {:induction false} NewTreeShape(spec: Spec, level: nat, id: int)
    requires SpecOk(spec) && level < spec.levels
    ensures Shape(spec, NewTree(spec, level, id))
    decreases spec.levels - level
  {
    if level + 1 < spec.levels {
      var kids := NewTree(spec, level, id).children;
      forall i | 0 <= i < |kids| ensures Shape(spec, kids[i]) {
        NewTreeShape(spec, level + 1, i);
      }
    }
  }

  // ----- Updating one node -------------------------------------------------------------------

  /** The sibling entries among the first `n` raise the earliest clocks. */
  function RaiseSiblings(next: seq<int>, ts: seq<TimingEntry>, clk: int, n: nat): (r: seq<int>)
    requires n <= |ts| && forall i :: 0 <= i < n ==> ts[i].cmd < |next|
    ensures |r| == |next|
  {
    if n == 0 then next else
      var r := RaiseSiblings(next, ts, clk, n - 1);
      var t := ts[n - 1];
      if !t.sibling then r else r[t.cmd := Max(r[t.cmd], clk + t.val)]
  }

  /** The other entries among the first `n` raise them from the history of the issued command. */
  function RaiseTargets(next: seq<int>, ts: seq<TimingEntry>, past: seq<int>, n: nat): (r: seq<int>)
    requires n <= |ts|
    requires forall i :: 0 <= i < n ==> ts[i].cmd < |next| && 1 <= ts[i].dist <= |past|
    ensures |r| == |next|
  {
    if n == 0 then next else
      var r := RaiseTargets(next, ts, past, n - 1);
      var t := ts[n - 1];
      if t.sibling || past[t.dist - 1] < 0 then r
      else r[t.cmd := Max(r[t.cmd], past[t.dist - 1] + t.val)]
  }

  /** The oldest issue drops out of the history, the new one comes in front. */
  function Shift(past: seq<int>, clk: int): (r: seq<int>)
    ensures |r| == |past|
  {
    if past == [] then past else [clk] + past[..|past| - 1]
  }

  function AsSibling(spec: Spec, t: Tree, cmd: nat, clk: int): Tree
    requires SpecOk(spec) && t.level < spec.levels && TablesOk(spec, t.level, t.next, t.prev) && cmd < spec.commands
  {
    var ts := spec.timing[t.level][cmd];
    assert EntriesOk(spec, ts);
    t.(next := RaiseSiblings(t.next, ts, clk, |ts|))
  }

  function AsTarget(spec: Spec, t: Tree, cmd: nat, clk: int): Tree
    requires SpecOk(spec) && t.level < spec.levels && TablesOk(spec, t.level, t.next, t.prev) && cmd < spec.commands
  {
    var ts := spec.timing[t.level][cmd];
    var past := Shift(t.prev[cmd], clk);
    assert EntriesOk(spec, ts);
    t.(prev := t.prev[cmd := past], next := RaiseTargets(t.next, ts, past, |ts|))
  }

  // ----- The operations on the tree -------------------------------------------------------------

  /** An address names a node id per level; a negative id leaves the rest open. */
  predicate AddrOk(spec: Spec, addr: seq<int>) {
    spec.levels < |addr|
  }

  function Update(spec: Spec, t: Tree, cmd: nat, addr: seq<int>, clk: int): Tree
    requires SpecOk(spec) && Shape(spec, t) && cmd < spec.commands && AddrOk(spec, addr)
    decreases t
  {
    if t.id != addr[t.level] then AsSibling(spec, t, cmd, clk)
    else AsTarget(spec, t, cmd, clk).(children :=
      seq(|t.children|, i requires 0 <= i < |t.children| => Update(spec, t.children[i], cmd, addr, clk)))
  }

  /** The address leads to existing nodes as far as it leads. */
  predicate Leads(spec: Spec, t: Tree, addr: seq<int>)
    requires SpecOk(spec) && Shape(spec, t) && AddrOk(spec, addr)
    decreases t
  {
    0 <= addr[t.level + 1] && t.children != [] ==>
      addr[t.level + 1] < |t.children| && Leads(spec, t.children[addr[t.level + 1]], addr)
  }

  predicate ReadyHere(t: Tree, cmd: nat, clk: int)
    requires cmd < |t.next|
  {
    t.next[cmd] == -1 || t.next[cmd] <= clk
  }

  predicate Stops(spec: Spec, t: Tree, cmd: nat, addr: seq<int>)
    requires SpecOk(spec) && Shape(spec, t) && cmd < spec.commands && AddrOk(spec, addr)
  {
    addr[t.level + 1] < 0 || t.level == spec.scope[cmd] || t.children == []
  }

  predicate Check(spec: Spec, t: Tree, cmd: nat, addr: seq<int>, clk: int)
    requires SpecOk(spec) && Shape(spec, t) && cmd < spec.commands && AddrOk(spec, addr) && Leads(spec, t, addr)
    decreases t
  {
    ReadyHere(t, cmd, clk) &&
    (Stops(spec, t, cmd, addr) || Check(spec, t.children[addr[t.level + 1]], cmd, addr, clk))
  }

  /** One more, or one fewer, request is served by the nodes on the way down to the bank. */
  function Serve(spec: Spec, t: Tree, addr: seq<int>, delta: int): Tree
    requires SpecOk(spec) && Shape(spec, t) && AddrOk(spec, addr) && Leads(spec, t, addr)
    decreases t
  {
    var c := addr[t.level + 1];
    var u := t.(serving := t.serving + delta);
    if c < 0 || t.children == [] || t.level > spec.bank then u
    else u.(children := t.children[c := Serve(spec, t.children[c], addr, delta)])
  }

  // ----- Nodes by path ----------------------------------------------------------------------------

  predicate HasPath(t: Tree, path: seq<int>)
    decreases |path|
  {
    path == [] || (0 <= path[0] < |t.children| && HasPath(t.children[path[0]], path[1..]))
  }

  function At(t: Tree, path: seq<int>): Tree
    requires HasPath(t, path)
    decreases |path|
  {
    if path == [] then t else At(t.children[path[0]], path[1..])
  }

  lemma {:induction false} AtShape(spec: Spec, t: Tree, path: seq<int>)
    requires SpecOk(spec) && Shape(spec, t) && HasPath(t, path)
    ensures Shape(spec, At(t, path)) && At(t, path).level == t.level + |path|
    decreases |path|
  {
    if path != [] {
      AtShape(spec, t.children[path[0]], path[1..]);
    }
  }

  datatype Role = Target | Sibling | Away

  /** What an issue at `addr` is to the node reached from a node `id` of level `level` by `path`. */
  function RoleOf(id: int, level: nat, path: seq<int>, addr: seq<int>): Role
    requires level + |path| < |addr|
    decreases |path|
  {
    if id != addr[level] then (if path == [] then Sibling else Away)
    else if path == [] then Target
    else RoleOf(path[0], level + 1, path[1..], addr)
  }

  function Touch(spec: Spec, t: Tree, role: Role, cmd: nat, clk: int): Tree
    requires SpecOk(spec) && t.level < spec.levels && TablesOk(spec, t.level, t.next, t.prev) && cmd < spec.commands
  {
    match role
    case Target => AsTarget(spec, t, cmd, clk)
    case Sibling => AsSibling(spec, t, cmd, clk)
    case Away => t
  }

  lemma {:induction false} UpdateShape(spec: Spec, t: Tree, cmd: nat, addr: seq<int>, clk: int)
    requires SpecOk(spec) && Shape(spec, t) && cmd < spec.commands && AddrOk(spec, addr)
    ensures var u := Update(spec, t, cmd, addr, clk);
      Shape(spec, u) && u.id == t.id && u.level == t.level && |u.children| == |t.children|
    decreases t
  {
    forall i | 0 <= i < |t.children|
      ensures var u := Update(spec, t.children[i], cmd, addr, clk);
        Shape(spec, u) && u.id == i && u.level == t.level + 1
    {
      UpdateShape(spec, t.children[i], cmd, addr, clk);
    }
  }

  /** An update touches the node at a path in its role and in no other way. */
  lemma {:induction false} UpdateAt(spec: Spec, t: Tree, path: seq<int>, cmd: nat, addr: seq<int>, clk: int)
    requires SpecOk(spec) && Shape(spec, t) && HasPath(t, path) && cmd < spec.commands && AddrOk(spec, addr)
    ensures var u := Update(spec, t, cmd, addr, clk);
      && HasPath(u, path)
      && At(t, path).level == t.level + |path| < spec.levels
      && TablesOk(spec, At(t, path).level, At(t, path).next, At(t, path).prev)
      && var v := Touch(spec, At(t, path), RoleOf(t.id, t.level, path, addr), cmd, clk);
        At(u, path).next == v.next && At(u, path).prev == v.prev
    decreases |path|
  {
    AtShape(spec, t, path);
    if path != [] {
      UpdateAt(spec, t.children[path[0]], path[1..], cmd, addr, clk);
    }
  }

  lemma {:induction false} UpdateLeads(spec: Spec, t: Tree, cmd: nat, addr: seq<int>, clk: int, to: seq<int>)
    requires SpecOk(spec) && Shape(spec, t) && cmd < spec.commands && AddrOk(spec, addr) && AddrOk(spec, to)
    ensures Shape(spec, Update(spec, t, cmd, addr, clk))
    ensures Leads(spec, Update(spec, t, cmd, addr, clk), to) <==> Leads(spec, t, to)
    decreases t
  {
    UpdateShape(spec, t, cmd, addr, clk);
    var c := to[t.level + 1];
    if 0 <= c < |t.children| {
      UpdateLeads(spec, t.children[c], cmd, addr, clk, to);
    }
  }

  // ----- Requests in service -----------------------------------------------------------------------

  lemma {:induction false} ServeShape(spec: Spec, t: Tree, addr: seq<int>, delta: int)
    requires SpecOk(spec) && Shape(spec, t) && AddrOk(spec, addr) && Leads(spec, t, addr)
    ensures var u := Serve(spec, t, addr, delta);
      Shape(spec, u) && u.id == t.id && u.level == t.level && |u.children| == |t.children|
    decreases t
  {
    var c := addr[t.level + 1];
    if 0 <= c < |t.children| && t.level <= spec.bank {
      ServeShape(spec, t.children[c], addr, delta);
    }
  }

  lemma {:induction false} ServeLeads(spec: Spec, t: Tree, addr: seq<int>, delta: int, to: seq<int>)
    requires SpecOk(spec) && Shape(spec, t) && AddrOk(spec, addr) && Leads(spec, t, addr) && AddrOk(spec, to)
    ensures Shape(spec, Serve(spec, t, addr, delta))
    ensures Leads(spec, Serve(spec, t, addr, delta), to) <==> Leads(spec, t, to)
    decreases t
  {
    ServeShape(spec, t, addr, delta);
    var c := addr[t.level + 1];
    if 0 <= c < |t.children| && c == to[t.level + 1] {
      ServeLeads(spec, t.children[c], addr, delta, to);
    }
  }

  /** The address passes through the node that `path` leads to from a node of level `level`. */
  predicate Passes(level: nat, path: seq<int>, addr: seq<int>)
    decreases |path|
  {
    path == [] || (level + 1 < |addr| && path[0] == addr[level + 1] && Passes(level + 1, path[1..], addr))
  }

  /** Exactly the nodes the address passes through count the request, down to the level below the bank. */
  lemma {:induction false} ServeAt(spec: Spec, t: Tree, addr: seq<int>, delta: int, path: seq<int>)
    requires SpecOk(spec) && Shape(spec, t) && AddrOk(spec, addr) && Leads(spec, t, addr)
    requires HasPath(t, path)
    ensures var u := Serve(spec, t, addr, delta);
      var counted := path == [] || t.level + |path| <= spec.bank + 1;
      && HasPath(u, path)
      && At(u, path).serving == At(t, path).serving + (if Passes(t.level, path, addr) && counted then delta else 0)
    decreases |path|
  {
    if path != [] && path[0] == addr[t.level + 1] {
      ServeAt(spec, t.children[path[0]], addr, delta, path[1..]);
    }
  }

  lemma {:induction false} ServePaths(spec: Spec, t: Tree, addr: seq<int>, delta: int, path: seq<int>)
    requires SpecOk(spec) && Shape(spec, t) && AddrOk(spec, addr) && Leads(spec, t, addr)
    ensures HasPath(Serve(spec, t, addr, delta), path) <==> HasPath(t, path)
    decreases |path|
  {
    if path != [] && path[0] == addr[t.level + 1] && 0 <= path[0] < |t.children| {
      ServePaths(spec, t.children[path[0]], addr, delta, path[1..]);
    }
  }

  lemma {:induction false} UpdateServingAt(spec: Spec, t: Tree, cmd: nat, addr: seq<int>, clk: int, path: seq<int>)
    requires SpecOk(spec) && Shape(spec, t) && cmd < spec.commands && AddrOk(spec, addr)
    ensures var u := Update(spec, t, cmd, addr, clk);
      HasPath(u, path) <==> HasPath(t, path)
    ensures HasPath(t, path) ==> At(Update(spec, t, cmd, addr, clk), path).serving == At(t, path).serving
    decreases |path|
  {
    if path != [] && 0 <= path[0] < |t.children| {
      UpdateServingAt(spec, t.children[path[0]], cmd, addr, clk, path[1..]);
    }
  }

  lemma {:induction false} NewTreeServing(spec: Spec, level: nat, id: int, path: seq<int>)
    requires SpecOk(spec) && level < spec.levels && HasPath(NewTree(spec, level, id), path)
    ensures At(NewTree(spec, level, id), path).serving == 0
    decreases |path|
  {
    if path != [] {
      NewTreeServing(spec, level + 1, path[0], path[1..]);
    }
  }

  // ----- The timing part of a tree --------------------------------------------------------------------

  /** The tree with its service counters cleared. */
  function Bare(t: Tree): Tree
    decreases t
  {
    t.(serving := 0, children := seq(|t.children|, i requires 0 <= i < |t.children| => Bare(t.children[i])))
  }

  lemma {:induction false} BareShape(spec: Spec, t: Tree)
    requires SpecOk(spec) && Shape(spec, t)
    ensures Shape(spec, Bare(t)) && Bare(t).id == t.id && Bare(t).level == t.level
    decreases t
  {
    forall i | 0 <= i < |t.children| ensures Shape(spec, Bare(t.children[i])) {
      BareShape(spec, t.children[i]);
    }
  }

  lemma {:induction false} BareUpdate(spec: Spec, t: Tree, cmd: nat, addr: seq<int>, clk: int)
    requires SpecOk(spec) && Shape(spec, t) && cmd < spec.commands && AddrOk(spec, addr)
    ensures Shape(spec, Bare(t)) && Bare(Update(spec, t, cmd, addr, clk)) == Update(spec, Bare(t), cmd, addr, clk)
    decreases t
  {
    BareShape(spec, t);
    forall i | 0 <= i < |t.children|
      ensures Bare(Update(spec, t.children[i], cmd, addr, clk)) == Update(spec, Bare(t).children[i], cmd, addr, clk)
    {
      BareUpdate(spec, t.children[i], cmd, addr, clk);
    }
  }

  lemma {:induction false} BareServe(spec: Spec, t: Tree, addr: seq<int>, delta: int)
    requires SpecOk(spec) && Shape(spec, t) && AddrOk(spec, addr) && Leads(spec, t, addr)
    ensures Bare(Serve(spec, t, addr, delta)) == Bare(t)
    decreases t
  {
    var c := addr[t.level + 1];
    if 0 <= c < |t.children| && t.level <= spec.bank {
      BareServe(spec, t.children[c], addr, delta);
    }
  }

  lemma {:induction false} BareCheck(spec: Spec, t: Tree, cmd: nat, addr: seq<int>, clk: int)
    requires SpecOk(spec) && Shape(spec, t) && cmd < spec.commands && AddrOk(spec, addr) && Leads(spec, t, addr)
    ensures Shape(spec, Bare(t)) && Leads(spec, Bare(t), addr)
    ensures Check(spec, Bare(t), cmd, addr, clk) <==> Check(spec, t, cmd, addr, clk)
    decreases t
  {
    BareShape(spec, t);
    var c := addr[t.level + 1];
    if 0 <= c < |t.children| {
      BareCheck(spec, t.children[c], cmd, addr, clk);
    }
  }

  lemma {:induction false} BareNew(spec: Spec, level: nat, id: int)
    requires SpecOk(spec) && level < spec.levels
    ensures Bare(NewTree(spec, level, id)) == NewTree(spec, level, id)
    decreases spec.levels - level
  {
    var kids := NewTree(spec, level, id).children;
    forall i | 0 <= i < |kids| ensures Bare(kids[i]) == kids[i] {
      BareNew(spec, level + 1, i);
    }
  }
}
