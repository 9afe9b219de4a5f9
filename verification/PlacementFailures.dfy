/** Runs of the variable-granularity remapper that queue unsound requests. Every run starts from
    empty tables with a cycle, keeps the order of the program, in which every completion comes after
    cycles, and cools only in the cycles that cool; it ends with a request, as the planner or an
    eviction queued it, whose completion changes the value of some line. */
module PlacementFailures {
  import opened PlacementEntry
  import opened VariableGranularity
  import M = MigrationPlan
  import R = PlacementRuns

  // ----- A small machine -----------------------------------------------------------------------

  /** One set of four pages that turn hot at their first access. */
  function Start(): State {
    Initial(4, 1, 1)
  }

  ghost predicate Recorded(s: State, on: seq<set<nat>>)
    requires TablesOk(s)
  {
    && |s.access| == |on|
    && forall b, j :: 0 <= b < |on| && 0 <= j < LINES ==> (s.access[b][j] <==> j in on[b])
  }

  /** Between requests: entry `e`, accessed lines `on` page by page. An early machine has not cooled
      yet and has seen at most one access to each page. */
  ghost predicate Snap(s: State, e: Entry, on: seq<set<nat>>, early: bool) {
    && Inv(s) && s.sets == 1 && s.threshold == 1 && |s.counter| == |on| == 4
    && s.queue == [] && s.placement == [e] && WellFormed(e) && Recorded(s, on)
    && (early ==> forall b :: 0 <= b < 4 ==> s.counter[b] == if on[b] == {} then 0 else 1)
  }

  ghost predicate Extremes(lines: set<nat>, first: nat, last: nat) {
    first in lines && last in lines && first <= last < LINES && forall j :: j in lines ==> first <= j <= last
  }

  lemma SpanFound(access: seq<bool>, lines: set<nat>, first: nat, last: nat)
    requires |access| == LINES && Extremes(lines, first, last)
    requires forall j :: 0 <= j < LINES ==> (access[j] <==> j in lines)
    ensures access[first] && M.First(access, 0) == first && M.Last(access, LINES) == last
  {
    assert access[first] && access[last];
  }

  /** An access whose plan is a move queues that move. */
  lemma AccessQueues(s: State, e: Entry, on: seq<set<nat>>, early: bool, b: nat, line: nat,
                     first: nat, last: nat, start: nat, n: nat, t: State)
    requires Snap(s, e, on, early) && 1 <= b < 4 && line < LINES && t == Track(s, b, line, false)
    requires Extremes(on[b] + {line}, first, last) && M.PlanFor(e, b, first, last) == M.MoveIn(start, n)
    ensures Inv(t) && t.queue == [MoveInRequest(e, 0, b, start, n)] && t.placement == [e]
    ensures Recorded(t, on[b := on[b] + {line}])
    ensures t == Count(s, b, line).(queue := t.queue)
  {
    TrackKeeps(s, b, line, false);
    var u := Count(s, b, line);
    SpanFound(u.access[b], on[b] + {line}, first, last);
    assert b % 1 == 0 && b / 1 == b;
    assert u.hot[b];
    assert Scan(u.queue, MoveInRequest(e, 0, b, start, n), 0) == Push;
  }

  lemma MoveFinishes(s: State, e: Entry, on: seq<set<nat>>, early: bool, b: nat, line: nat,
                     start: nat, n: nat, t: State)
    requires Snap(s, e, on, early) && 1 <= b < 4 && line < LINES
    requires Inv(t) && Recorded(t, on[b := on[b] + {line}])
    requires t == Count(s, b, line).(queue := [MoveInRequest(e, 0, b, start, n)], cycle := t.cycle)
    ensures Snap(Finish(t), MovedIn(e, b, start, n), on[b := on[b] + {line}], early && on[b] == {})
    ensures Finish(t).cycle == t.cycle
  {
    FinishKeeps(t);
    var u := Finish(t);
    assert u.placement == [MovedIn(e, b, start, n)];
    assert EntryOk(u, 0, u.placement[0]);
  }

  lemma CycleForgets(s: State, e: Entry, on: seq<set<nat>>)
    requires Snap(s, e, on, true) && s.cycle % INTERVAL == 0
    ensures Snap(Tick(s), e, [{}, {}, {}, {}], false)
  {
    TickKeeps(s);
    assert forall b :: 0 <= b < 4 ==> s.counter[b] / 2 == 0;
  }

  // ----- Runs ------------------------------------------------------------------------------------

  ghost predicate Reaches(steps: seq<R.Step>, t: State) {
    R.StepsOk(steps) && R.StateAfter(Start(), steps) == t
  }

  lemma Extended(steps: seq<R.Step>, s: State, e: R.Step)
    requires Reaches(steps, s) && R.StepOk(e) && Inv(s)
    ensures s.queue != [] ==> s.queue[0].index < s.sets
    ensures Reaches(steps + [e], R.Apply(s, e))
  {
    R.RunExtends(Start(), steps, e);
  }

  /** No cycle from `c` on for `n` cycles cools. */
  predicate Mild(c: nat, n: nat) {
    forall k :: c <= k < c + n ==> k % INTERVAL != 0
  }

  function Idle(n: nat): seq<R.Step> {
    seq(n, i => R.Cycle)
  }

  /** Cycles that do not cool only pass the time. */
  lemma {:induction false} Idles(steps: seq<R.Step>, s: State, n: nat)
    requires Reaches(steps, s) && Inv(s) && Mild(s.cycle, n)
    ensures Reaches(steps + Idle(n), s.(cycle := s.cycle + n)) && Inv(s.(cycle := s.cycle + n))
  {
    if n == 0 {
      assert steps + Idle(0) == steps && s.(cycle := s.cycle + 0) == s;
    } else {
      Idles(steps, s, n - 1);
      var t := s.(cycle := s.cycle + (n - 1));
      TickKeeps(t);
      Extended(steps + Idle(n - 1), t, R.Cycle);
      assert Idle(n) == Idle(n - 1) + [R.Cycle];
      assert steps + Idle(n) == steps + Idle(n - 1) + [R.Cycle];
      assert Tick(t) == s.(cycle := s.cycle + n);
    }
  }

  /** An access, the cycles that start the swap, read and write, and the completion. */
  function Move(b: nat, line: nat): seq<R.Step> {
    [R.Access(b, line, false)] + Idle(3) + [R.Complete]
  }

  /** A move of the page that takes entry `e` to `f` when it wants the lines `first..last`. */
  predicate MovesTo(e: Entry, b: nat, first: nat, last: nat, f: Entry) {
    && WellFormed(e) && first <= last < LINES && M.PlanFor(e, b, first, last).MoveIn?
    && f == MovedIn(e, b, M.PlanFor(e, b, first, last).start, M.PlanFor(e, b, first, last).size)
  }

  /** A run extended by the cycles and the completion of a queued move. */
  lemma Carried(steps: seq<R.Step>, s: State, e: Entry, on: seq<set<nat>>, early: bool, b: nat, line: nat,
                start: nat, n: nat, t: State) returns (u: State)
    requires Snap(s, e, on, early) && 1 <= b < 4 && line < LINES && Mild(s.cycle, 3)
    requires Reaches(steps, t) && Inv(t) && Recorded(t, on[b := on[b] + {line}])
    requires t == Count(s, b, line).(queue := [MoveInRequest(e, 0, b, start, n)])
    ensures Reaches(steps + Idle(3) + [R.Complete], u) && u.cycle == s.cycle + 3
    ensures Snap(u, MovedIn(e, b, start, n), on[b := on[b] + {line}], early && on[b] == {})
  {
    Idles(steps, t, 3);
    var v := t.(cycle := t.cycle + 3);
    MoveFinishes(s, e, on, early, b, line, start, n, v);
    Extended(steps + Idle(3), v, R.Complete);
    u := Finish(v);
  }

  /** A run extended by an access that queues a move. */
  lemma Queued(steps: seq<R.Step>, s: State, e: Entry, on: seq<set<nat>>, early: bool, b: nat, line: nat,
               first: nat, last: nat, start: nat, n: nat) returns (t: State)
    requires Reaches(steps, s) && Snap(s, e, on, early) && 1 <= b < 4 && line < LINES
    requires Extremes(on[b] + {line}, first, last) && M.PlanFor(e, b, first, last) == M.MoveIn(start, n)
    ensures Reaches(steps + [R.Access(b, line, false)], t) && Inv(t) && t.placement == [e]
    ensures Recorded(t, on[b := on[b] + {line}])
    ensures t == Count(s, b, line).(queue := [MoveInRequest(e, 0, b, start, n)])
  {
    t := Track(s, b, line, false);
    AccessQueues(s, e, on, early, b, line, first, last, start, n, t);
    Extended(steps, s, R.Access(b, line, false));
  }

  lemma MovedBy(steps: seq<R.Step>, s: State, e: Entry, on: seq<set<nat>>, early: bool, b: nat, line: nat,
                first: nat, last: nat, start: nat, n: nat) returns (u: State)
    requires Reaches(steps, s) && Snap(s, e, on, early) && 1 <= b < 4 && line < LINES && Mild(s.cycle, 3)
    requires Extremes(on[b] + {line}, first, last) && M.PlanFor(e, b, first, last) == M.MoveIn(start, n)
    ensures Reaches(steps + [R.Access(b, line, false)] + Idle(3) + [R.Complete], u) && u.cycle == s.cycle + 3
    ensures Snap(u, MovedIn(e, b, start, n), on[b := on[b] + {line}], early && on[b] == {})
  {
    var t := Queued(steps, s, e, on, early, b, line, first, last, start, n);
    u := Carried(steps + [R.Access(b, line, false)], s, e, on, early, b, line, start, n, t);
  }

  /** A run extended by an access and the completion of the move it queues. */
  lemma Moved(steps: seq<R.Step>, s: State, e: Entry, on: seq<set<nat>>, early: bool, b: nat, line: nat,
              first: nat, last: nat, f: Entry, lines: set<nat>) returns (u: State)
    requires Reaches(steps, s) && Snap(s, e, on, early) && 1 <= b < 4 && line < LINES && Mild(s.cycle, 3)
    requires lines == on[b] + {line} && Extremes(lines, first, last) && MovesTo(e, b, first, last, f)
    ensures Reaches(steps + Move(b, line), u) && u.cycle == s.cycle + 3
    ensures Snap(u, f, on[b := lines], early && on[b] == {})
  {
    var p := M.PlanFor(e, b, first, last);
    u := MovedBy(steps, s, e, on, early, b, line, first, last, p.start, p.size);
    assert steps + Move(b, line) == steps + [R.Access(b, line, false)] + Idle(3) + [R.Complete];
  }

  /** A run extended by an access that queues a move the entry cannot carry out soundly. */
  lemma Fails(steps: seq<R.Step>, s: State, e: Entry, on: seq<set<nat>>, b: nat, line: nat,
              first: nat, last: nat, start: nat, n: nat) returns (t: State)
    requires Reaches(steps, s) && Snap(s, e, on, false) && 1 <= b < 4 && line < LINES
    requires Extremes(on[b] + {line}, first, last) && M.PlanFor(e, b, first, last) == M.MoveIn(start, n)
    requires !Sound(e, b, start, n)
    ensures Reaches(steps + [R.Access(b, line, false)], t) && Unsound(t)
  {
    t := Queued(steps, s, e, on, false, b, line, first, last, start, n);
    R.CompletionExact(t);
  }

  /** The oldest request of the queue changes some value when it completes. */
  ghost predicate Unsound(s: State) {
    && Inv(s) && s.queue != [] && TablesOk(Finish(s)) && s.queue[0].index < s.sets
    && !R.SoundRequest(s, s.queue[0]) && !R.PreservesAllValues(s)
  }

  /** A run extended by a call of page 0 for line 0 that the first group occupies. */
  lemma CallFails(steps: seq<R.Step>, s: State, e: Entry, on: seq<set<nat>>) returns (t: State)
    requires Reaches(steps, s) && Snap(s, e, on, false) && e != [] && e[0].tag != 0 && e[0].size > 0
    requires !SoundEviction(e, 0, e[0].tag, e[0].start, e[0].size)
    ensures Reaches(steps + [R.Access(0, 0, false)], t) && Unsound(t) && !IsMoveIn(t.queue[0])
  {
    t := Track(s, 0, 0, false);
    TrackKeeps(s, 0, 0, false);
    Extended(steps, s, R.Access(0, 0, false));
    FastSlot(e, 0, 0);
    assert Scan([], EvictionRequest(e, 0, 0), 0) == Push;
    assert t.queue == [EvictionRequest(e, 0, 0)];
    R.CompletionExact(t);
  }

  /** The first cycle finds nothing to cool. */
  lemma Begins() returns (s: State)
    ensures Reaches([R.Cycle], s) && Snap(s, [], [{}, {}, {}, {}], true) && s.cycle == 1
  {
    TickKeeps(Start());
    Extended([], Start(), R.Cycle);
    s := Tick(Start());
    assert [] + [R.Cycle] == [R.Cycle];
  }

  function Opened(b: nat, line: nat): seq<R.Step> {
    [R.Cycle] + Move(b, line)
  }

  /** The first move of a run. */
  lemma Opening(b: nat, line: nat, f: Entry) returns (s: State)
    requires 1 <= b < 4 && line < LINES && MovesTo([], b, line, line, f)
    ensures Reaches(Opened(b, line), s) && Snap(s, f, [{}, {}, {}, {}][b := {line}], true) && s.cycle == 4
  {
    s := Begins();
    s := Moved([R.Cycle], s, [], [{}, {}, {}, {}], true, b, line, line, line, f, {line});
  }

  function Cooled(line: nat): seq<R.Step> {
    Opened(1, line) + Move(2, 0) + Idle(INTERVAL - 7) + [R.Cycle]
  }

  /** Time passes until the pages cool. */
  lemma Cools(steps: seq<R.Step>, s: State, e: Entry, on: seq<set<nat>>, n: nat) returns (t: State)
    requires Reaches(steps, s) && Snap(s, e, on, true) && s.cycle + n == INTERVAL && 0 < s.cycle
    ensures Reaches(steps + Idle(n) + [R.Cycle], t) && t.cycle == INTERVAL + 1
    ensures Snap(t, e, [{}, {}, {}, {}], false)
  {
    assert Mild(s.cycle, n);
    Idles(steps, s, n);
    t := s.(cycle := INTERVAL);
    CycleForgets(t, e, on);
    Extended(steps + Idle(n), t, R.Cycle);
    t := Tick(t);
  }

  /** A line of page 1 and one of page 2 are moved in, and the pages cool. */
  lemma CooledWith(line: nat, f: Entry, g: Entry) returns (s: State)
    requires line < LINES && MovesTo([], 1, line, line, f) && MovesTo(f, 2, 0, 0, g)
    ensures Reaches(Cooled(line), s) && Snap(s, g, [{}, {}, {}, {}], false) && s.cycle == INTERVAL + 1
  {
    var on: seq<set<nat>> := [{}, {line}, {}, {}];
    s := Opening(1, line, f);
    assert [{}, {}, {}, {}][1 := {line}] == on;
    s := Moved(Opened(1, line), s, f, on, true, 2, 0, 0, 0, g, {0});
    s := Cools(Opened(1, line) + Move(2, 0), s, g, on[2 := {0}], INTERVAL - 7);
  }

  /** A line of page 1 is then moved in again. */
  lemma ReopenedWith(line: nat, again: nat, f: Entry, g: Entry, h: Entry) returns (s: State)
    requires line < LINES && again < LINES
    requires MovesTo([], 1, line, line, f) && MovesTo(f, 2, 0, 0, g) && MovesTo(g, 1, again, again, h)
    ensures Reaches(Cooled(line) + Move(1, again), s) && Snap(s, h, [{}, {again}, {}, {}], false)
    ensures s.cycle == INTERVAL + 4
  {
    var on: seq<set<nat>> := [{}, {}, {}, {}];
    s := CooledWith(line, f, g);
    s := Moved(Cooled(line), s, g, on, false, 1, again, again, again, h, {again});
    assert on[1 := {again}] == [{}, {again}, {}, {}];
  }

  // ----- A cut stretches over an examined group ------------------------------------------------------

  const A1: Entry := [Group(1, 16, 1)]
  const A2: Entry := [Group(1, 16, 1), Group(2, 0, 1)]
  const A3: Entry := [Group(1, 16, 1), Group(2, 0, 1), Group(1, 8, 1)]
  const A4: Entry := [Group(1, 16, 1), Group(2, 0, 1), Group(1, 8, 1), Group(3, 0, 1)]
  const A5: Entry := [Group(1, 16, 1), Group(2, 0, 1), Group(1, 8, 1), Group(3, 0, 1), Group(1, 9, 8)]

  lemma OverlapPlans()
    ensures MovesTo([], 1, 16, 16, A1) && MovesTo(A1, 2, 0, 0, A2)
    ensures MovesTo(A2, 1, 8, 8, A3) && MovesTo(A3, 3, 0, 0, A4)
  {
    M.WalkWithoutGroups([], 1, 0, 16, 16, false);
    assert Used(A1) == 1;
    M.WalkWithoutGroups(A1, 2, 0, 0, 0, false);
    assert Offset(A2, 1) == 1 && Used(A2) == 2;
    M.WalkWithoutGroups(A2, 1, 1, 8, 8, false);
    assert Offset(A3, 1) == 1 && Offset(A3, 2) == 2 && Used(A3) == 3;
    M.WalkWithoutGroups(A3, 3, 0, 0, 0, false);
  }

  lemma OverlapPlan()
    ensures WellFormed(A4) && M.PlanFor(A4, 1, 8, 15) == M.MoveIn(9, 8) && MovesTo(A4, 1, 8, 15, A5)
  {
    assert Offset(A4, 1) == 1 && Offset(A4, 2) == 2 && Offset(A4, 3) == 3 && Used(A4) == 4;
    M.WalkWithoutGroups(A4, 1, 3, 9, 16, false);
    assert M.Walk(A4, 1, 2, 8, 15, false) == M.Append(A4, 9, 16);
    assert M.Walk(A4, 1, 1, 8, 15, false) == M.Append(A4, 9, 16);
  }

  const BEFORE_OVERLAP: seq<R.Step> := Cooled(16) + Move(1, 8) + Move(3, 0)

  lemma BeforeOverlap() returns (s: State)
    ensures Reaches(BEFORE_OVERLAP, s) && Snap(s, A4, [{}, {8}, {}, {0}], false) && s.cycle == INTERVAL + 7
  {
    assert MovesTo([], 1, 16, 16, A1) && MovesTo(A1, 2, 0, 0, A2) && MovesTo(A2, 1, 8, 8, A3) by { OverlapPlans(); }
    s := ReopenedWith(16, 8, A1, A2, A3);
    assert MovesTo(A3, 3, 0, 0, A4) by { OverlapPlans(); }
    s := Moved(Cooled(16) + Move(1, 8), s, A3, [{}, {8}, {}, {}], false, 3, 0, 0, 0, A4, {0});
  }

  /** Page 1 is accessed at 16 and, after the page has cooled, at 8, with pages 2 and 3 moved in
      between. Its access at 15 then wants 8..15; the cut at the group of line 8 moves the rear up
      to 16, over the group already examined. */
  lemma OverlapIsReachable() returns (t: State)
    ensures Reaches(BEFORE_OVERLAP + [R.Access(1, 15, false)], t) && Unsound(t)
  {
    var s := BeforeOverlap();
    OverlapPlan();
    assert !Apart(A4[0].start, A4[0].size, 9, 8);
    t := Fails(BEFORE_OVERLAP, s, A4, [{}, {8}, {}, {0}], 1, 15, 8, 15, 9, 8);
  }

  lemma OverlapEviction()
    ensures !SoundEviction(A5, 0, 1, 16, 1)
  {
    assert Offset(A5, 1) == 1 && Offset(A5, 2) == 2 && Offset(A5, 3) == 3 && Offset(A5, 4) == 4;
    assert !Apart(A5[4].start, A5[4].size, 16, 1);
  }

  /** Carried out all the same, that move leaves two groups that claim line 16. Calling the first of
      them home is an eviction that loses a value as well. */
  lemma UnsoundEvictionIsReachable() returns (t: State)
    ensures Reaches(BEFORE_OVERLAP + Move(1, 15) + [R.Access(0, 0, false)], t)
    ensures Unsound(t) && !IsMoveIn(t.queue[0])
  {
    var s := BeforeOverlap();
    OverlapPlan();
    s := Moved(BEFORE_OVERLAP, s, A4, [{}, {8}, {}, {0}], false, 1, 15, 8, 15, A5, {8, 15});
    OverlapEviction();
    t := CallFails(BEFORE_OVERLAP + Move(1, 15), s, A5, [{}, {8, 15}, {}, {0}]);
  }

  // ----- Growth reaches back over a cut group -----------------------------------------------------------

  const B1: Entry := [Group(1, 5, 1)]
  const B2: Entry := [Group(1, 5, 1), Group(2, 0, 1)]
  const B3: Entry := [Group(1, 5, 1), Group(2, 0, 1), Group(1, 0, 1)]

  lemma BackPlans()
    ensures MovesTo([], 1, 5, 5, B1) && MovesTo(B1, 2, 0, 0, B2) && MovesTo(B2, 1, 0, 0, B3)
  {
    M.WalkWithoutGroups([], 1, 0, 5, 5, false);
    assert Used(B1) == 1;
    M.WalkWithoutGroups(B1, 2, 0, 0, 0, false);
    assert Offset(B2, 1) == 1 && Used(B2) == 2;
    M.WalkWithoutGroups(B2, 1, 1, 0, 0, false);
  }

  lemma BackPlan()
    ensures WellFormed(B3) && M.PlanFor(B3, 1, 0, 4) == M.MoveIn(1, 15)
  {
    assert Offset(B3, 1) == 1 && Offset(B3, 2) == 2 && Used(B3) == 3;
    assert M.Walk(B3, 1, 2, 6, 13, false) == M.Grow(B3, 15);
    assert M.Walk(B3, 1, 1, 6, 13, false) == M.Grow(B3, 15);
  }

  const BEFORE_BACK: seq<R.Step> := Cooled(5) + Move(1, 0)

  lemma BeforeBack() returns (s: State)
    ensures Reaches(BEFORE_BACK, s) && Snap(s, B3, [{}, {0}, {}, {}], false)
  {
    BackPlans();
    s := ReopenedWith(5, 0, B1, B2, B3);
  }

  /** Page 1 is accessed at 5 and, after cooling, at 0. Its access at 4 then wants 0..7; the cut at the
      group of line 5 moves the front to 6, and growing the last group starts again behind line 0. */
  lemma ReachBackIsReachable() returns (t: State)
    ensures Reaches(BEFORE_BACK + [R.Access(1, 4, false)], t) && Unsound(t)
  {
    var s := BeforeBack();
    BackPlan();
    assert !Apart(B3[0].start, B3[0].size, 1, 15);
    t := Fails(BEFORE_BACK, s, B3, [{}, {0}, {}, {}], 1, 4, 0, 4, 1, 15);
  }

  // ----- Growth is clamped ------------------------------------------------------------------------------

  const C1: Entry := [Group(2, 4, 1)]
  const C2: Entry := [Group(2, 4, 60)]
  const C3: Entry := [Group(2, 4, 60), Group(1, 0, 1)]
  const C4: Entry := [Group(2, 4, 60), Group(1, 0, 2)]

  lemma GapPlans()
    ensures MovesTo([], 2, 4, 4, C1) && MovesTo(C1, 2, 4, 63, C2)
    ensures MovesTo(C2, 1, 0, 0, C3) && MovesTo(C3, 1, 0, 1, C4)
  {
    M.WalkWithoutGroups([], 2, 0, 4, 4, false);
    assert Used(C1) == 1;
    assert Used(C2) == 60;
    M.WalkWithoutGroups(C2, 1, 0, 0, 0, false);
    assert Offset(C3, 1) == 60 && Used(C3) == 61;
    assert M.Walk(C3, 1, 1, 0, 1, false) == M.Grow(C3, 1);
  }

  lemma GapPlan()
    ensures WellFormed(C4) && M.PlanFor(C4, 1, 0, 7) == M.MoveIn(6, 2)
  {
    assert Offset(C4, 1) == 60 && Used(C4) == 62;
    assert M.Walk(C4, 1, 1, 0, 7, false) == M.Grow(C4, 7);
  }

  const BEFORE_GAP: seq<R.Step> := Opened(2, 4) + Move(2, 63) + Move(1, 0) + Move(1, 1)

  /** Page 2 is moved in at one line and then up to another. */
  lemma Spread(line: nat, last: nat, f: Entry, g: Entry) returns (s: State)
    requires line <= last < LINES && MovesTo([], 2, line, line, f) && MovesTo(f, 2, line, last, g)
    ensures Reaches(Opened(2, line) + Move(2, last), s) && Snap(s, g, [{}, {}, {line, last}, {}], false)
    ensures s.cycle == 7
  {
    var on: seq<set<nat>> := [{}, {}, {line}, {}];
    s := Opening(2, line, f);
    assert [{}, {}, {}, {}][2 := {line}] == on;
    s := Moved(Opened(2, line), s, f, on, true, 2, last, line, last, g, {line, last});
    assert on[2 := {line, last}] == [{}, {}, {line, last}, {}];
  }

  /** Page 1 is moved in at its first two lines, one after the other. */
  lemma Beside(steps: seq<R.Step>, s: State, g: Entry, on: set<nat>, h: Entry, i: Entry) returns (t: State)
    requires Reaches(steps, s) && Snap(s, g, [{}, {}, on, {}], false) && Mild(s.cycle, 6)
    requires MovesTo(g, 1, 0, 0, h) && MovesTo(h, 1, 0, 1, i)
    ensures Reaches(steps + Move(1, 0) + Move(1, 1), t)
    ensures Snap(t, i, [{}, {0, 1}, on, {}], false)
  {
    var next: seq<set<nat>> := [{}, {0}, on, {}];
    t := Moved(steps, s, g, [{}, {}, on, {}], false, 1, 0, 0, 0, h, {0});
    assert [{}, {}, on, {}][1 := {0}] == next;
    t := Moved(steps + Move(1, 0), t, h, next, false, 1, 1, 0, 1, i, {0, 1});
    assert next[1 := {0, 1}] == [{}, {0, 1}, on, {}];
  }

  lemma BeforeGap() returns (s: State)
    ensures Reaches(BEFORE_GAP, s) && Snap(s, C4, [{}, {0, 1}, {4, 63}, {}], false)
  {
    GapPlans();
    s := Spread(4, 63, C1, C2);
    s := Beside(Opened(2, 4) + Move(2, 63), s, C2, {4, 63}, C3, C4);
  }

  /** Page 2 fills the fast page up to four lines and page 1 takes two of them. The access of page 1
      at 7 wants six lines where two are left, and the move starts at 6 instead of 2. */
  lemma GapIsReachable() returns (t: State)
    ensures Reaches(BEFORE_GAP + [R.Access(1, 7, false)], t) && Unsound(t)
  {
    var s := BeforeGap();
    GapPlan();
    t := Fails(BEFORE_GAP, s, C4, [{}, {0, 1}, {4, 63}, {}], 1, 7, 0, 7, 6, 2);
  }
}
