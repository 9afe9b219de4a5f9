/** The timing tree as linked nodes that are updated in place. The links never change after
    construction, so the shape of a tree is a fact about constants. */
module DramNodes {
  import opened DramTree

  class DramNode {
    const spec: Spec
    const id: int
    const level: nat
    const children: seq<DramNode>
    ghost const repr: set<DramNode>
    ghost const height: nat

    var clk: int // clock of the last update
    var next: seq<int>
    var prev: seq<seq<int>>
    var serving: int

    ghost predicate Linked()
      decreases height
    {
      && SpecOk(spec) && level < spec.levels
      && this in repr
      && (forall i :: 0 <= i < |children| ==>
            && children[i].height < height && children[i].repr <= repr && this !in children[i].repr
            && children[i].spec == spec && children[i].id == i && children[i].level == level + 1
            && children[i].Linked())
      && (forall i, j :: 0 <= i < j < |children| ==> children[i].repr !! children[j].repr)
    }

    ghost function View(): (t: Tree)
      requires Linked()
      reads repr
      ensures t.id == id && t.level == level && t.next == next && t.prev == prev && t.serving == serving
      ensures |t.children| == |children|
      ensures forall i :: 0 <= i < |children| ==> t.children[i] == children[i].View()
      decreases height
    {
      Node(id, level, next, prev, serving,
        seq(|children|, i requires 0 <= i < |children| reads repr => children[i].View()))
    }

    ghost predicate Valid()
      reads repr
    {
      Linked() && Shape(spec, View())
    }

    constructor (spec: Spec, level: nat, id: int)
      requires SpecOk(spec) && level < spec.levels
      ensures fresh(repr) && this.spec == spec && this.level == level && this.id == id
      ensures Valid() && View() == NewTree(spec, level, id) && clk == 0
      decreases spec.levels - level, 1
    {
      var kids, union, tall := NewChildren(spec, level);
      this.spec, this.level, this.id := spec, level, id;
      children := kids;
      repr := {this} + union;
      height := tall;
      clk := 0;
      next := Empty(spec.commands);
      prev := NewPrev(spec, level);
      serving := 0;
      new;
      assert View().children == NewTree(spec, level, id).children;
      NewTreeShape(spec, level, id);
    }

    static method NewChildren(spec: Spec, level: nat)
      returns (kids: seq<DramNode>, ghost union: set<DramNode>, ghost tall: nat)
      requires SpecOk(spec) && level < spec.levels
      ensures |kids| == |NewTree(spec, level, 0).children| && fresh(union)
      ensures forall j :: 0 <= j < |kids| ==>
        && kids[j].Linked() && kids[j].repr <= union && kids[j].height < tall
        && kids[j].spec == spec && kids[j].id == j && kids[j].level == level + 1
        && kids[j].View() == NewTree(spec, level + 1, j)
      ensures forall j, k :: 0 <= j < k < |kids| ==> kids[j].repr !! kids[k].repr
      decreases spec.levels - level, 0
    {
      kids, union, tall := [], {}, 0;
      if level + 1 < spec.levels {
        var i := 0;
        while i < spec.count[level + 1]
          invariant i <= spec.count[level + 1] && |kids| == i
          invariant fresh(union)
          invariant forall j :: 0 <= j < i ==>
            && kids[j].Linked() && kids[j].repr <= union && kids[j].height < tall
            && kids[j].spec == spec && kids[j].id == j && kids[j].level == level + 1
            && kids[j].View() == NewTree(spec, level + 1, j)
          invariant forall j, k :: 0 <= j < k < i ==> kids[j].repr !! kids[k].repr
        {
          var kid := new DramNode(spec, level + 1, i);
          kids := kids + [kid];
          union := union + kid.repr;
          tall := tall + kid.height + 1;
          i := i + 1;
        }
      }
    }

    /** Whether the command may be issued at the address. */
    function Ready(cmd: nat, addr: seq<int>, clk: int): (ok: bool)
      requires Valid() && cmd < spec.commands && AddrOk(spec, addr) && Leads(spec, View(), addr)
      reads repr
      ensures ok == Check(spec, View(), cmd, addr, clk)
      decreases height
    {
      if next[cmd] != -1 && clk < next[cmd] then false
      else
        var child := addr[level + 1];
        if child < 0 || level == spec.scope[cmd] || |children| == 0 then true
        else children[child].Ready(cmd, addr, clk)
    }

    /** The earliest clock for the command: from the last update on, the command is ready at a
        clock if and only if the clock is not before it. */
    method GetNext(cmd: nat, addr: seq<int>) returns (earliest: int)
      requires Valid() && cmd < spec.commands && AddrOk(spec, addr) && Leads(spec, View(), addr)
      requires level <= spec.scope[cmd] && 0 <= clk
      ensures clk <= earliest
      ensures forall c :: clk <= c ==> (Check(spec, View(), cmd, addr, c) <==> earliest <= c)
    {
      earliest := Max(clk, next[cmd]);
      var node := this;
      var l := level;
      while l < spec.scope[cmd] && |node.children| != 0 && addr[l + 1] >= 0
        invariant node.Valid() && node.spec == spec && node.level == l <= spec.scope[cmd]
        invariant Leads(spec, node.View(), addr) && clk <= earliest
        invariant forall c :: clk <= c ==>
          (Check(spec, View(), cmd, addr, c) <==>
            earliest <= c && (Stops(spec, node.View(), cmd, addr)
              || Check(spec, node.View().children[addr[l + 1]], cmd, addr, c)))
        decreases node.height
      {
        var child := node.children[addr[l + 1]];
        assert node.View().children[addr[l + 1]] == child.View();
        assert child.Valid() && TablesOk(spec, child.level, child.next, child.prev);
        node := child;
        earliest := Max(earliest, node.next[cmd]);
        l := l + 1;
      }
    }

    method Update(cmd: nat, addr: seq<int>, clk: int)
      requires Valid() && cmd < spec.commands && AddrOk(spec, addr)
      modifies repr
      ensures Valid() && View() == DramTree.Update(spec, old(View()), cmd, addr, clk)
      ensures this.clk == clk
    {
      this.clk := clk;
      assert View() == old(View());
      UpdateTiming(cmd, addr, clk);
    }

    method UpdateTiming(cmd: nat, addr: seq<int>, clk: int)
      requires Valid() && cmd < spec.commands && AddrOk(spec, addr)
      modifies repr
      ensures Valid() && View() == DramTree.Update(spec, old(View()), cmd, addr, clk)
      ensures this.clk == old(this.clk)
      decreases height
    {
      ghost var t := View();
      UpdateShape(spec, t, cmd, addr, clk);
      var ts := spec.timing[level][cmd];
      assert EntriesOk(spec, ts);
      if id != addr[level] {
        RaiseFromSiblings(ts, clk);
        return;
      }
      if |prev[cmd]| > 0 {
        prev := prev[cmd := [clk] + prev[cmd][..|prev[cmd]| - 1]];
      }
      RaiseFromHistory(ts, prev[cmd]);
      UpdateChildren(t, cmd, addr, clk);
      assert View().children == DramTree.Update(spec, t, cmd, addr, clk).children;
    }

    method RaiseFromSiblings(ts: seq<TimingEntry>, clk: int)
      requires Linked() && forall i :: 0 <= i < |ts| ==> ts[i].cmd < |next| && (ts[i].sibling ==> ts[i].dist == 1)
      modifies `next
      ensures next == RaiseSiblings(old(next), ts, clk, |ts|)
    {
      for i := 0 to |ts|
        invariant next == RaiseSiblings(old(next), ts, clk, i)
      {
        if ts[i].sibling {
          assert ts[i].dist == 1;
          var future := clk + ts[i].val;
          next := next[ts[i].cmd := Max(next[ts[i].cmd], future)];
        }
      }
    }

    method RaiseFromHistory(ts: seq<TimingEntry>, history: seq<int>)
      requires Linked() && forall i :: 0 <= i < |ts| ==> ts[i].cmd < |next| && 1 <= ts[i].dist <= |history|
      modifies `next
      ensures next == RaiseTargets(old(next), ts, history, |ts|)
    {
      for i := 0 to |ts|
        invariant next == RaiseTargets(old(next), ts, history, i)
      {
        if !ts[i].sibling {
          var past := history[ts[i].dist - 1];
          if past >= 0 {
            var future := past + ts[i].val;
            next := next[ts[i].cmd := Max(next[ts[i].cmd], future)];
          }
        }
      }
    }

    method UpdateChildren(ghost t: Tree, cmd: nat, addr: seq<int>, clk: int)
      requires Linked() && Shape(spec, t) && cmd < spec.commands && AddrOk(spec, addr)
      requires |t.children| == |children|
      requires forall i :: 0 <= i < |children| ==> children[i].View() == t.children[i]
      modifies repr - {this}
      ensures forall i :: 0 <= i < |children| ==>
        children[i].View() == DramTree.Update(spec, t.children[i], cmd, addr, clk)
      decreases height, 0
    {
      for i := 0 to |children|
        invariant forall j :: 0 <= j < i ==>
          children[j].View() == DramTree.Update(spec, t.children[j], cmd, addr, clk)
        invariant forall j :: i <= j < |children| ==> children[j].View() == t.children[j]
      {
        children[i].UpdateTiming(cmd, addr, clk);
      }
    }

    /** One more, or one fewer, request in service on the way down to the bank. */
    method UpdateServing(addr: seq<int>, delta: int)
      requires Valid() && AddrOk(spec, addr) && Leads(spec, View(), addr)
      modifies repr
      ensures Valid() && View() == Serve(spec, old(View()), addr, delta) && clk == old(clk)
      decreases height
    {
      ghost var t := View();
      ServeShape(spec, t, addr, delta);
      serving := serving + delta;
      var child := addr[level + 1];
      if child < 0 || |children| == 0 || level > spec.bank {
        assert View().children == t.children;
        return;
      }
      assert children[child].View() == t.children[child];
      children[child].UpdateServing(addr, delta);
      assert View().children == Serve(spec, t, addr, delta).children;
    }
  }
}
