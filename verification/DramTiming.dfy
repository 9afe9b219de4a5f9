/** What the timing tree guarantees over whole runs of issued commands. */
module DramTiming {
  import opened DramTree

  datatype Issue = Issue(cmd: nat, addr: seq<int>, clk: int)

  predicate IssuesOk(spec: Spec, run: seq<Issue>) {
    && (forall i :: 0 <= i < |run| ==> run[i].cmd < spec.commands && AddrOk(spec, run[i].addr) && 0 <= run[i].clk)
    && (forall i, j :: 0 <= i < j < |run| ==> run[i].clk <= run[j].clk)
  }

  function Front(run: seq<Issue>): seq<Issue>
    requires run != []
  {
    run[..|run| - 1]
  }

  function Last(run: seq<Issue>): Issue
    requires run != []
  {
    run[|run| - 1]
  }

  /** The tree of channel `id` after the commands of the run have been issued. */
  function After(spec: Spec, id: int, run: seq<Issue>): (t: Tree)
    requires SpecOk(spec) && 0 < spec.levels && IssuesOk(spec, run)
    ensures Shape(spec, t) && t.id == id && t.level == 0
  {
    NewTreeShape(spec, 0, id);
    if run == [] then NewTree(spec, 0, id)
    else
      var t := After(spec, id, Front(run));
      UpdateShape(spec, t, Last(run).cmd, Last(run).addr, Last(run).clk);
      Update(spec, t, Last(run).cmd, Last(run).addr, Last(run).clk)
  }

  // ----- The specification: the history of a node ------------------------------------------------

  /** Clocks, latest first, at which command `cmd` was issued in the given role of the node. */
  function Times(id: int, path: seq<int>, cmd: nat, role: Role, run: seq<Issue>): seq<int>
    requires forall i :: 0 <= i < |run| ==> |path| < |run[i].addr|
  {
    if run == [] then []
    else
      var rest := Times(id, path, cmd, role, Front(run));
      if Last(run).cmd == cmd && RoleOf(id, 0, path, Last(run).addr) == role then [Last(run).clk] + rest else rest
  }

  /** The wait entry `t` of command `past` asks for at the node is over at clock `clk`. */
  predicate WaitOver(t: TimingEntry, past: nat, id: int, path: seq<int>, run: seq<Issue>, clk: int)
    requires 1 <= t.dist && forall i :: 0 <= i < |run| ==> |path| < |run[i].addr|
  {
    var times := Times(id, path, past, if t.sibling then Sibling else Target, run);
    t.dist <= |times| ==> times[t.dist - 1] + t.val <= clk
  }

  /** Every timing constraint on `cmd` at the node is met at clock `clk`: it comes at least `val`
      after the `dist`-th most recent constraining command there. */
  ghost predicate Allowed(spec: Spec, id: int, path: seq<int>, run: seq<Issue>, cmd: nat, clk: int)
    requires SpecOk(spec) && |path| < spec.levels && IssuesOk(spec, run)
  {
    forall c, j :: 0 <= c < spec.commands && 0 <= j < |spec.timing[|path|][c]|
                   && spec.timing[|path|][c][j].cmd == cmd ==>
      WaitOver(spec.timing[|path|][c][j], c, id, path, run, clk)
  }

  // ----- One node ----------------------------------------------------------------------------------

  /** The bounded history holds the latest issues, padded with -1. */
  ghost predicate Remembers(past: seq<int>, times: seq<int>) {
    forall d :: 0 <= d < |past| ==> past[d] == if d < |times| then times[d] else -1
  }

  /** Latest first, none before clock 0 and none behind `clk`. */
  ghost predicate LatestFirst(times: seq<int>, clk: int) {
    && (forall d :: 0 <= d < |times| ==> 0 <= times[d] <= clk)
    && (forall d, e :: 0 <= d < e < |times| ==> times[e] <= times[d])
  }

  predicate Chronological(run: seq<Issue>) {
    && (forall i :: 0 <= i < |run| ==> 0 <= run[i].clk)
    && (forall i, j :: 0 <= i < j < |run| ==> run[i].clk <= run[j].clk)
  }

  lemma {:induction false} TimesLatestFirst(id: int, path: seq<int>, cmd: nat, role: Role, run: seq<Issue>, clk: int)
    requires forall i :: 0 <= i < |run| ==> |path| < |run[i].addr|
    requires Chronological(run) && (run != [] ==> Last(run).clk <= clk)
    ensures LatestFirst(Times(id, path, cmd, role, run), clk)
  {
    if run != [] {
      var now := Last(run).clk;
      var rest := Times(id, path, cmd, role, Front(run));
      assert Front(run) != [] ==> Last(Front(run)).clk <= now;
      TimesLatestFirst(id, path, cmd, role, Front(run), now);
      assert LatestFirst(rest, clk);
      assert LatestFirst([now] + rest, clk);
    }
  }

  lemma {:induction false} RaiseTargetsMeaning(next: seq<int>, ts: seq<TimingEntry>, past: seq<int>, n: nat, cmd: nat,
                                               clk: int)
    requires n <= |ts| && cmd < |next| && 0 <= clk
    requires forall i :: 0 <= i < n ==> ts[i].cmd < |next| && 1 <= ts[i].dist <= |past|
    ensures RaiseTargets(next, ts, past, n)[cmd] <= clk <==>
      next[cmd] <= clk && forall i :: 0 <= i < n && ts[i].cmd == cmd && !ts[i].sibling && 0 <= past[ts[i].dist - 1] ==>
        past[ts[i].dist - 1] + ts[i].val <= clk
  {
    if n > 0 {
      RaiseTargetsMeaning(next, ts, past, n - 1, cmd, clk);
    }
  }

  lemma {:induction false} RaiseSiblingsMeaning(next: seq<int>, ts: seq<TimingEntry>, at: int, n: nat, cmd: nat,
                                                clk: int)
    requires n <= |ts| && cmd < |next| && 0 <= clk
    requires forall i :: 0 <= i < n ==> ts[i].cmd < |next|
    ensures RaiseSiblings(next, ts, at, n)[cmd] <= clk <==>
      next[cmd] <= clk && forall i :: 0 <= i < n && ts[i].cmd == cmd && ts[i].sibling ==> at + ts[i].val <= clk
  {
    if n > 0 {
      RaiseSiblingsMeaning(next, ts, at, n - 1, cmd, clk);
    }
  }

  /** The node's tables say exactly what its history says. */
  ghost predicate NodeExact(spec: Spec, id: int, path: seq<int>, run: seq<Issue>, next: seq<int>, prev: seq<seq<int>>)
    requires SpecOk(spec) && |path| < spec.levels && IssuesOk(spec, run) && TablesOk(spec, |path|, next, prev)
  {
    && (forall c :: 0 <= c < spec.commands ==> Remembers(prev[c], Times(id, path, c, Target, run)))
    && (forall c, clk :: 0 <= c < spec.commands && 0 <= clk ==>
          (next[c] <= clk <==> Allowed(spec, id, path, run, c, clk)))
  }

  /** How one more issue changes what an entry waits for. */
  lemma WaitStep(t: TimingEntry, past: nat, id: int, path: seq<int>, run: seq<Issue>, clk: int)
    requires 1 <= t.dist && (t.sibling ==> t.dist == 1) && run != []
    requires forall i :: 0 <= i < |run| ==> |path| < |run[i].addr|
    requires Chronological(run)
    ensures var role := if t.sibling then Sibling else Target;
      var hit := Last(run).cmd == past && RoleOf(id, 0, path, Last(run).addr) == role;
      var times := Times(id, path, past, role, run);
      && (!hit ==> (WaitOver(t, past, id, path, run, clk) <==> WaitOver(t, past, id, path, Front(run), clk)))
      && (hit ==> times == [Last(run).clk] + Times(id, path, past, role, Front(run)))
      && (WaitOver(t, past, id, path, run, clk) ==> WaitOver(t, past, id, path, Front(run), clk))
  {
    var role := if t.sibling then Sibling else Target;
    TimesLatestFirst(id, path, past, role, run, Last(run).clk);
    if t.dist <= |Times(id, path, past, role, Front(run))| {
      LaterIsLater(Times(id, path, past, role, Front(run)), Times(id, path, past, role, run), Last(run).clk, t.dist);
    }
  }

  /** The `dist`-th most recent issue only ever moves to a later clock. */
  lemma LaterIsLater(rest: seq<int>, times: seq<int>, clk: int, dist: nat)
    requires times == rest || times == [clk] + rest
    requires LatestFirst(times, clk) && 1 <= dist <= |rest|
    ensures rest[dist - 1] <= times[dist - 1]
  {
    if times != rest {
      assert times[dist] == rest[dist - 1];
      assert times[dist] <= times[dist - 1];
    }
  }

  /** An entry of the issued command, seen from its target. */
  lemma TargetEntry(t: TimingEntry, c: nat, id: int, path: seq<int>, run: seq<Issue>, past: seq<int>, clk: int)
    requires 1 <= t.dist <= |past| && (t.sibling ==> t.dist == 1) && run != []
    requires forall i :: 0 <= i < |run| ==> |path| < |run[i].addr|
    requires Chronological(run) && RoleOf(id, 0, path, Last(run).addr) == Target
    requires Last(run).cmd == c ==> Remembers(past, Times(id, path, c, Target, run))
    ensures WaitOver(t, c, id, path, run, clk) <==>
      WaitOver(t, c, id, path, Front(run), clk)
      && (Last(run).cmd == c && !t.sibling && 0 <= past[t.dist - 1] ==> past[t.dist - 1] + t.val <= clk)
  {
    WaitStep(t, c, id, path, run, clk);
    if Last(run).cmd == c && !t.sibling {
      var times := Times(id, path, c, Target, run);
      TimesLatestFirst(id, path, c, Target, run, Last(run).clk);
      assert past[t.dist - 1] == if t.dist - 1 < |times| then times[t.dist - 1] else -1;
    }
  }

  /** The same, seen from a sibling of the target. */
  lemma SiblingEntry(t: TimingEntry, c: nat, id: int, path: seq<int>, run: seq<Issue>, clk: int)
    requires 1 <= t.dist && (t.sibling ==> t.dist == 1) && run != []
    requires forall i :: 0 <= i < |run| ==> |path| < |run[i].addr|
    requires Chronological(run) && RoleOf(id, 0, path, Last(run).addr) == Sibling
    ensures WaitOver(t, c, id, path, run, clk) <==>
      WaitOver(t, c, id, path, Front(run), clk)
      && (Last(run).cmd == c && t.sibling ==> Last(run).clk + t.val <= clk)
  {
    WaitStep(t, c, id, path, run, clk);
  }

  /** The tables of the node one issue later. */
  lemma TargetStep(spec: Spec, id: int, path: seq<int>, run: seq<Issue>, t: Tree, c: nat, clk: int)
    requires SpecOk(spec) && |path| < spec.levels && IssuesOk(spec, run) && run != []
    requires t.level == |path| && TablesOk(spec, |path|, t.next, t.prev) && c < spec.commands && 0 <= clk
    requires IssuesOk(spec, Front(run)) && NodeExact(spec, id, path, Front(run), t.next, t.prev)
    requires RoleOf(id, 0, path, Last(run).addr) == Target
    ensures AsTarget(spec, t, Last(run).cmd, Last(run).clk).next[c] <= clk <==> Allowed(spec, id, path, run, c, clk)
  {
    var cmd := Last(run).cmd;
    var ts := spec.timing[|path|][cmd];
    assert EntriesOk(spec, ts);
    var past := Shift(t.prev[cmd], Last(run).clk);
    RaiseTargetsMeaning(t.next, ts, past, |ts|, c, clk);
    assert t.next[c] <= clk <==> Allowed(spec, id, path, Front(run), c, clk);
    if AsTarget(spec, t, cmd, Last(run).clk).next[c] <= clk {
      forall d, j | 0 <= d < spec.commands && 0 <= j < |spec.timing[|path|][d]| && spec.timing[|path|][d][j].cmd == c
        ensures WaitOver(spec.timing[|path|][d][j], d, id, path, run, clk)
      {
        TargetEntryAt(spec, id, path, run, past, d, j, clk);
      }
    }
    if Allowed(spec, id, path, run, c, clk) {
      forall d, j | 0 <= d < spec.commands && 0 <= j < |spec.timing[|path|][d]| && spec.timing[|path|][d][j].cmd == c
        ensures WaitOver(spec.timing[|path|][d][j], d, id, path, Front(run), clk)
      {
        TargetEntryAt(spec, id, path, run, past, d, j, clk);
      }
      forall i | 0 <= i < |ts| && ts[i].cmd == c && !ts[i].sibling && 0 <= past[ts[i].dist - 1]
        ensures past[ts[i].dist - 1] + ts[i].val <= clk
      {
        TargetEntryAt(spec, id, path, run, past, cmd, i, clk);
      }
    }
  }

  lemma TargetEntryAt(spec: Spec, id: int, path: seq<int>, run: seq<Issue>, past: seq<int>, d: nat, j: nat, clk: int)
    requires SpecOk(spec) && |path| < spec.levels && IssuesOk(spec, run) && run != [] && IssuesOk(spec, Front(run))
    requires RoleOf(id, 0, path, Last(run).addr) == Target && d < spec.commands && j < |spec.timing[|path|][d]|
    requires var cmd := Last(run).cmd;
      && |past| == MaxDist(spec.timing[|path|][cmd], |spec.timing[|path|][cmd]|)
      && Remembers(past, Times(id, path, cmd, Target, run))
    ensures var e := spec.timing[|path|][d][j];
      && 1 <= e.dist && (d == Last(run).cmd ==> e.dist <= |past|)
      && (WaitOver(e, d, id, path, run, clk) <==>
            WaitOver(e, d, id, path, Front(run), clk)
            && (Last(run).cmd == d && !e.sibling && 0 <= past[e.dist - 1] ==> past[e.dist - 1] + e.val <= clk))
  {
    var e := spec.timing[|path|][d][j];
    assert EntriesOk(spec, spec.timing[|path|][d]);
    TargetEntry(e, d, id, path, run, if d == Last(run).cmd then past else seq(e.dist, i => 0), clk);
  }

  lemma SiblingStep(spec: Spec, id: int, path: seq<int>, run: seq<Issue>, t: Tree, c: nat, clk: int)
    requires SpecOk(spec) && |path| < spec.levels && IssuesOk(spec, run) && run != []
    requires t.level == |path| && TablesOk(spec, |path|, t.next, t.prev) && c < spec.commands && 0 <= clk
    requires IssuesOk(spec, Front(run)) && NodeExact(spec, id, path, Front(run), t.next, t.prev)
    requires RoleOf(id, 0, path, Last(run).addr) == Sibling
    ensures AsSibling(spec, t, Last(run).cmd, Last(run).clk).next[c] <= clk <==> Allowed(spec, id, path, run, c, clk)
  {
    var cmd := Last(run).cmd;
    var ts := spec.timing[|path|][cmd];
    assert EntriesOk(spec, ts);
    RaiseSiblingsMeaning(t.next, ts, Last(run).clk, |ts|, c, clk);
    assert t.next[c] <= clk <==> Allowed(spec, id, path, Front(run), c, clk);
    if AsSibling(spec, t, cmd, Last(run).clk).next[c] <= clk {
      forall d, j | 0 <= d < spec.commands && 0 <= j < |spec.timing[|path|][d]| && spec.timing[|path|][d][j].cmd == c
        ensures WaitOver(spec.timing[|path|][d][j], d, id, path, run, clk)
      {
        assert EntriesOk(spec, spec.timing[|path|][d]);
        SiblingEntry(spec.timing[|path|][d][j], d, id, path, run, clk);
      }
    }
    if Allowed(spec, id, path, run, c, clk) {
      forall d, j | 0 <= d < spec.commands && 0 <= j < |spec.timing[|path|][d]| && spec.timing[|path|][d][j].cmd == c
        ensures WaitOver(spec.timing[|path|][d][j], d, id, path, Front(run), clk)
        ensures d == cmd && spec.timing[|path|][d][j].sibling ==> Last(run).clk + spec.timing[|path|][d][j].val <= clk
      {
        assert EntriesOk(spec, spec.timing[|path|][d]);
        SiblingEntry(spec.timing[|path|][d][j], d, id, path, run, clk);
      }
      assert forall i :: 0 <= i < |ts| && ts[i].cmd == c && ts[i].sibling ==> Last(run).clk + ts[i].val <= clk;
    }
  }

  lemma AwayStep(spec: Spec, id: int, path: seq<int>, run: seq<Issue>, c: nat, clk: int)
    requires SpecOk(spec) && |path| < spec.levels && IssuesOk(spec, run) && run != [] && IssuesOk(spec, Front(run))
    requires RoleOf(id, 0, path, Last(run).addr) == Away
    ensures Allowed(spec, id, path, run, c, clk) <==> Allowed(spec, id, path, Front(run), c, clk)
  {
    forall d, j | 0 <= d < spec.commands && 0 <= j < |spec.timing[|path|][d]|
      ensures var e := spec.timing[|path|][d][j];
        1 <= e.dist && (WaitOver(e, d, id, path, run, clk) <==> WaitOver(e, d, id, path, Front(run), clk))
    {
      assert EntriesOk(spec, spec.timing[|path|][d]);
      WaitStep(spec.timing[|path|][d][j], d, id, path, run, clk);
    }
  }

  lemma NodeStep(spec: Spec, id: int, path: seq<int>, run: seq<Issue>, t: Tree)
    requires SpecOk(spec) && |path| < spec.levels && IssuesOk(spec, run) && run != [] && IssuesOk(spec, Front(run))
    requires t.level == |path| && TablesOk(spec, |path|, t.next, t.prev)
    requires NodeExact(spec, id, path, Front(run), t.next, t.prev)
    ensures var u := Touch(spec, t, RoleOf(id, 0, path, Last(run).addr), Last(run).cmd, Last(run).clk);
      TablesOk(spec, |path|, u.next, u.prev) && NodeExact(spec, id, path, run, u.next, u.prev)
  {
    var role := RoleOf(id, 0, path, Last(run).addr);
    var u := Touch(spec, t, role, Last(run).cmd, Last(run).clk);
    forall c | 0 <= c < spec.commands ensures Remembers(u.prev[c], Times(id, path, c, Target, run)) {
    }
    forall c, clk | 0 <= c < spec.commands && 0 <= clk
      ensures u.next[c] <= clk <==> Allowed(spec, id, path, run, c, clk)
    {
      match role
      case Target => TargetStep(spec, id, path, run, t, c, clk);
      case Sibling => SiblingStep(spec, id, path, run, t, c, clk);
      case Away => AwayStep(spec, id, path, run, c, clk);
    }
  }

  /** After any run, the tables of every node say exactly what its history says. */
  lemma {:induction false} TreeExact(spec: Spec, id: int, path: seq<int>, run: seq<Issue>)
    requires SpecOk(spec) && 0 < spec.levels && IssuesOk(spec, run)
    requires HasPath(After(spec, id, run), path)
    ensures var n := At(After(spec, id, run), path);
      && n.level == |path| < spec.levels && TablesOk(spec, |path|, n.next, n.prev)
      && NodeExact(spec, id, path, run, n.next, n.prev)
    decreases |run|
  {
    AtShape(spec, After(spec, id, run), path);
    if run == [] {
      NewTreeAt(spec, 0, id, path);
    } else {
      var t := After(spec, id, Front(run));
      UpdatePaths(spec, t, path, Last(run).cmd, Last(run).addr, Last(run).clk);
      TreeExact(spec, id, path, Front(run));
      UpdateAt(spec, t, path, Last(run).cmd, Last(run).addr, Last(run).clk);
      NodeStep(spec, id, path, run, At(t, path));
    }
  }

  lemma {:induction false} NewTreeAt(spec: Spec, level: nat, id: int, path: seq<int>)
    requires SpecOk(spec) && level < spec.levels && HasPath(NewTree(spec, level, id), path)
    ensures var n := At(NewTree(spec, level, id), path);
      n.level < spec.levels && n.next == Empty(spec.commands) && n.prev == NewPrev(spec, n.level)
    decreases |path|
  {
    if path != [] {
      NewTreeAt(spec, level + 1, path[0], path[1..]);
    }
  }

  lemma {:induction false} UpdatePaths(spec: Spec, t: Tree, path: seq<int>, cmd: nat, addr: seq<int>, clk: int)
    requires SpecOk(spec) && Shape(spec, t) && cmd < spec.commands && AddrOk(spec, addr)
    ensures HasPath(Update(spec, t, cmd, addr, clk), path) <==> HasPath(t, path)
    decreases |path|
  {
    if path != [] && 0 <= path[0] < |t.children| {
      UpdatePaths(spec, t.children[path[0]], path[1..], cmd, addr, clk);
    }
  }

  // ----- The check ------------------------------------------------------------------------------------

  /** The nodes a check is about: those the address leads to, down to the level of the command's scope. */
  predicate Visited(spec: Spec, t: Tree, cmd: nat, addr: seq<int>, path: seq<int>)
    requires SpecOk(spec) && cmd < spec.commands
  {
    && HasPath(t, path) && Passes(t.level, path, addr)
    && !(t.level <= spec.scope[cmd] < t.level + |path|)
  }

  lemma {:induction false} CheckVisits(spec: Spec, t: Tree, cmd: nat, addr: seq<int>, clk: int, path: seq<int>)
    requires SpecOk(spec) && Shape(spec, t) && cmd < spec.commands && AddrOk(spec, addr) && Leads(spec, t, addr)
    requires Check(spec, t, cmd, addr, clk) && Visited(spec, t, cmd, addr, path)
    ensures HasPath(t, path) && |At(t, path).next| == spec.commands && ReadyHere(At(t, path), cmd, clk)
    decreases |path|
  {
    if path != [] {
      CheckVisits(spec, t.children[path[0]], cmd, addr, clk, path[1..]);
    }
  }

  lemma {:induction false} FailureVisited(spec: Spec, t: Tree, cmd: nat, addr: seq<int>, clk: int)
    returns (path: seq<int>)
    requires SpecOk(spec) && Shape(spec, t) && cmd < spec.commands && AddrOk(spec, addr) && Leads(spec, t, addr)
    requires !Check(spec, t, cmd, addr, clk)
    ensures Visited(spec, t, cmd, addr, path) && HasPath(t, path)
    ensures |At(t, path).next| == spec.commands && !ReadyHere(At(t, path), cmd, clk)
    decreases t
  {
    if !ReadyHere(t, cmd, clk) {
      path := [];
    } else {
      var rest := FailureVisited(spec, t.children[addr[t.level + 1]], cmd, addr, clk);
      path := [addr[t.level + 1]] + rest;
      assert path[1..] == rest;
    }
  }

  /** Every constraint on the command is met at every node in its scope. */
  ghost predicate AllAllowed(spec: Spec, id: int, run: seq<Issue>, cmd: nat, addr: seq<int>, clk: int)
    requires SpecOk(spec) && 0 < spec.levels && IssuesOk(spec, run) && cmd < spec.commands && AddrOk(spec, addr)
  {
    forall path :: Visited(spec, After(spec, id, run), cmd, addr, path) ==>
      |path| < spec.levels && Allowed(spec, id, path, run, cmd, clk)
  }

  /** A command passes the check if and only if no timing constraint of its run forbids it. */
  lemma CheckExact(spec: Spec, id: int, run: seq<Issue>, cmd: nat, addr: seq<int>, clk: int)
    requires SpecOk(spec) && 0 < spec.levels && IssuesOk(spec, run) && cmd < spec.commands && AddrOk(spec, addr)
    requires Leads(spec, After(spec, id, run), addr) && 0 <= clk
    ensures Check(spec, After(spec, id, run), cmd, addr, clk) <==> AllAllowed(spec, id, run, cmd, addr, clk)
  {
    var t := After(spec, id, run);
    if Check(spec, t, cmd, addr, clk) {
      forall path | Visited(spec, t, cmd, addr, path)
        ensures |path| < spec.levels && Allowed(spec, id, path, run, cmd, clk)
      {
        CheckVisits(spec, t, cmd, addr, clk, path);
        TreeExact(spec, id, path, run);
      }
    } else {
      var path := FailureVisited(spec, t, cmd, addr, clk);
      TreeExact(spec, id, path, run);
    }
  }

  /** Every command of the run passed the check at its clock when it was issued. */
  ghost predicate CheckedRun(spec: Spec, id: int, run: seq<Issue>)
    requires SpecOk(spec) && 0 < spec.levels && IssuesOk(spec, run)
  {
    run == [] ||
    (&& CheckedRun(spec, id, Front(run))
     && Leads(spec, After(spec, id, Front(run)), Last(run).addr)
     && Check(spec, After(spec, id, Front(run)), Last(run).cmd, Last(run).addr, Last(run).clk))
  }

  lemma {:induction false} CheckedPrefix(spec: Spec, id: int, run: seq<Issue>, i: nat)
    requires SpecOk(spec) && 0 < spec.levels && IssuesOk(spec, run) && CheckedRun(spec, id, run) && i < |run|
    ensures IssuesOk(spec, run[..i]) && Leads(spec, After(spec, id, run[..i]), run[i].addr)
    ensures Check(spec, After(spec, id, run[..i]), run[i].cmd, run[i].addr, run[i].clk)
  {
    if i < |run| - 1 {
      CheckedPrefix(spec, id, Front(run), i);
      assert Front(run)[..i] == run[..i];
    }
  }

  /** In a checked run no constraint is ever violated: whenever a command is issued, at every node
      in its scope it comes at least `val` after the `dist`-th most recent constraining command. */
  lemma NoConstraintViolated(spec: Spec, id: int, run: seq<Issue>, i: nat, path: seq<int>)
    requires SpecOk(spec) && 0 < spec.levels && IssuesOk(spec, run) && CheckedRun(spec, id, run) && i < |run|
    ensures IssuesOk(spec, run[..i])
    ensures Visited(spec, After(spec, id, run[..i]), run[i].cmd, run[i].addr, path) ==>
      |path| < spec.levels && Allowed(spec, id, path, run[..i], run[i].cmd, run[i].clk)
  {
    CheckedPrefix(spec, id, run, i);
    CheckExact(spec, id, run[..i], run[i].cmd, run[i].addr, run[i].clk);
  }
}
