/** What counters, hot bits and accessed lines say about a run of the variable-granularity remapper. */
module PageHeat {
  import opened VariableGranularity
  import opened PlacementRuns
  import A = AccessRequests
  import P = PlacementEntry

  // ----- Told by the steps alone ---------------------------------------------------------------------

  function Cycles(steps: seq<Step>): nat {
    if steps == [] then 0 else Cycles(Front(steps)) + (if Last(steps).Cycle? then 1 else 0)
  }

  /** The accesses to the page, counted up to 255 and halved in the first cycle and every interval. */
  function Heat(steps: seq<Step>, b: nat): (h: nat)
    ensures h <= COUNTER_MAX
  {
    if steps == [] then 0
    else
      var h := Heat(Front(steps), b);
      match Last(steps)
      case Access(block, _, _) => if block == b && h < COUNTER_MAX then h + 1 else h
      case Cycle => if Cycles(Front(steps)) % INTERVAL == 0 then h / 2 else h
      case Complete => h
  }

  /** From step `i` on the heat of the page has not gone down to zero. */
  predicate Warm(steps: seq<Step>, b: nat, i: nat) {
    forall k :: i < k <= |steps| ==> Heat(steps[..k], b) > 0
  }

  /** The line has been accessed and the page has stayed warm since. */
  predicate Remembered(steps: seq<Step>, b: nat, line: nat) {
    exists i: nat :: i < |steps| && steps[i].Access? && steps[i].block == b && steps[i].line == line
      && Warm(steps, b, i)
  }

  /** Step `i` is an access that has brought the page to the threshold, and it has stayed warm since. */
  predicate Heats(steps: seq<Step>, b: nat, threshold: nat, i: nat)
    requires i < |steps|
  {
    steps[i].Access? && steps[i].block == b && Heat(steps[..i + 1], b) >= threshold && Warm(steps, b, i)
  }

  predicate Heated(steps: seq<Step>, b: nat, threshold: nat) {
    exists i: nat :: i < |steps| && Heats(steps, b, threshold, i)
  }

  // ----- One more step -----------------------------------------------------------------------------------

  lemma HeatBefore(steps: seq<Step>, b: nat, k: nat)
    requires k < |steps|
    ensures Heat(steps[..k], b) == Heat(Front(steps)[..k], b)
  {
    assert steps[..k] == Front(steps)[..k];
  }

  lemma WarmNext(steps: seq<Step>, b: nat, i: nat)
    requires steps != [] && i < |steps| - 1
    ensures Warm(steps, b, i) <==> Warm(Front(steps), b, i) && Heat(steps, b) > 0
  {
    assert steps[..|steps|] == steps;
    forall k: nat | k < |steps| ensures Heat(steps[..k], b) == Heat(Front(steps)[..k], b) {
      HeatBefore(steps, b, k);
    }
    if Warm(steps, b, i) {
      assert Heat(steps[..|steps|], b) > 0;
    }
  }

  lemma WarmNow(steps: seq<Step>, b: nat)
    requires steps != []
    ensures Warm(steps, b, |steps| - 1) <==> Heat(steps, b) > 0
  {
    assert steps[..|steps|] == steps;
  }

  lemma RememberedNext(steps: seq<Step>, b: nat, line: nat)
    requires steps != []
    ensures Remembered(steps, b, line) <==>
      && Heat(steps, b) > 0
      && (Remembered(Front(steps), b, line)
          || (Last(steps).Access? && Last(steps).block == b && Last(steps).line == line))
  {
    var front, n := Front(steps), |steps| - 1;
    WarmNow(steps, b);
    if Remembered(steps, b, line) {
      var i: nat :| i < |steps| && steps[i].Access? && steps[i].block == b && steps[i].line == line
        && Warm(steps, b, i);
      if i < n {
        WarmNext(steps, b, i);
        assert front[i] == steps[i];
      }
    }
    if Heat(steps, b) > 0 && Remembered(front, b, line) {
      var i: nat :| i < |front| && front[i].Access? && front[i].block == b && front[i].line == line
        && Warm(front, b, i);
      WarmNext(steps, b, i);
      assert steps[i] == front[i];
    }
    if Heat(steps, b) > 0 && Last(steps).Access? && Last(steps).block == b && Last(steps).line == line {
      assert steps[n] == Last(steps);
    }
  }

  lemma HeatedBefore(steps: seq<Step>, b: nat, threshold: nat)
    requires steps != [] && Heated(steps, b, threshold)
    ensures Heat(steps, b) > 0
    ensures Heated(Front(steps), b, threshold)
      || (Last(steps).Access? && Last(steps).block == b && Heat(steps, b) >= threshold)
  {
    var front, n := Front(steps), |steps| - 1;
    var i: nat :| i < |steps| && Heats(steps, b, threshold, i);
    assert steps[..|steps|] == steps;
    if i < n {
      WarmNext(steps, b, i);
      assert front[..i + 1] == steps[..i + 1];
      assert Heats(front, b, threshold, i);
    }
  }

  lemma HeatedNext(steps: seq<Step>, b: nat, threshold: nat)
    requires steps != []
    ensures Heated(steps, b, threshold) <==>
      && Heat(steps, b) > 0
      && (Heated(Front(steps), b, threshold)
          || (Last(steps).Access? && Last(steps).block == b && Heat(steps, b) >= threshold))
  {
    if Heated(steps, b, threshold) { HeatedBefore(steps, b, threshold); }
    if Heat(steps, b) > 0 && Heated(Front(steps), b, threshold) {
      var front := Front(steps);
      var i: nat :| i < |front| && Heats(front, b, threshold, i);
      WarmNext(steps, b, i);
      assert front[..i + 1] == steps[..i + 1];
      assert Heats(steps, b, threshold, i);
    }
    if Heat(steps, b) > 0 && Last(steps).Access? && Last(steps).block == b && Heat(steps, b) >= threshold {
      WarmNow(steps, b);
      assert steps[..|steps|] == steps;
      assert Heats(steps, b, threshold, |steps| - 1);
    }
  }

  // ----- The tables -------------------------------------------------------------------------------------------

  /** Counter, hot bit and accessed lines of a page are what the steps tell. */
  predicate Tells(s: State, steps: seq<Step>, b: nat)
    requires TablesOk(s) && b < |s.counter|
  {
    && s.counter[b] == Heat(steps, b)
    && (s.hot[b] <==> Heated(steps, b, s.threshold))
    && forall line :: 0 <= line < P.LINES ==> (s.access[b][line] <==> Remembered(steps, b, line))
  }

  /** The page is warm whenever a line of it is remembered. */
  lemma {:induction false} ColdForgets(steps: seq<Step>, b: nat, line: nat, threshold: nat)
    ensures Heat(steps, b) == 0 ==> !Remembered(steps, b, line) && !Heated(steps, b, threshold)
  {
    if steps != [] {
      RememberedNext(steps, b, line);
      HeatedNext(steps, b, threshold);
    }
  }

  lemma CountTells(s: State, steps: seq<Step>, block: nat, line: nat, b: nat)
    requires Inv(s) && steps != [] && Last(steps).Access? && Last(steps).block == block && Last(steps).line == line
    requires block < |s.counter| && line < P.LINES && b < |s.counter| && Tells(s, Front(steps), b)
    ensures TablesOk(Count(s, block, line)) && Tells(Count(s, block, line), steps, b)
  {
    CountKeeps(s, block, line);
    HeatedNext(steps, b, s.threshold);
    ColdForgets(Front(steps), b, line, s.threshold);
    forall l | 0 <= l < P.LINES
      ensures Count(s, block, line).access[b][l] <==> Remembered(steps, b, l)
    {
      RememberedNext(steps, b, l);
      ColdForgets(Front(steps), b, l, s.threshold);
    }
  }

  lemma TickTells(s: State, steps: seq<Step>, b: nat)
    requires Inv(s) && steps != [] && Last(steps).Cycle? && s.cycle == Cycles(Front(steps))
    requires b < |s.counter| && Tells(s, Front(steps), b)
    ensures TablesOk(Tick(s)) && Tells(Tick(s), steps, b)
  {
    TickKeeps(s);
    HeatedNext(steps, b, s.threshold);
    ColdForgets(Front(steps), b, 0, s.threshold);
    forall l | 0 <= l < P.LINES ensures Tick(s).access[b][l] <==> Remembered(steps, b, l) {
      RememberedNext(steps, b, l);
      ColdForgets(Front(steps), b, l, s.threshold);
    }
  }

  /** Nothing the page knows is changed by a step that does not count and does not cool. */
  lemma OtherTells(s: State, t: State, steps: seq<Step>, b: nat)
    requires TablesOk(s) && TablesOk(t) && steps != [] && b < |s.counter| && Tells(s, Front(steps), b)
    requires t.counter == s.counter && t.hot == s.hot && t.access == s.access && t.threshold == s.threshold
    requires !Last(steps).Cycle? && (Last(steps).Access? ==> Last(steps).block != b)
    ensures Tells(t, steps, b)
  {
    HeatedNext(steps, b, s.threshold);
    ColdForgets(Front(steps), b, 0, s.threshold);
    forall l | 0 <= l < P.LINES ensures t.access[b][l] <==> Remembered(steps, b, l) {
      RememberedNext(steps, b, l);
      ColdForgets(Front(steps), b, l, s.threshold);
    }
  }

  lemma SameTells(s: State, t: State, steps: seq<Step>, b: nat)
    requires TablesOk(s) && TablesOk(t) && b < |s.counter| && Tells(s, steps, b)
    requires t == s.(queue := t.queue, congestion := t.congestion)
    ensures Tells(t, steps, b)
  {
  }

  lemma AccessTells(s: State, steps: seq<Step>, block: nat, line: nat, busy: bool, b: nat, t: State)
    requires Inv(s) && steps != [] && Last(steps) == Access(block, line, busy) && line < P.LINES
    requires b < |s.counter| && Tells(s, Front(steps), b) && Inv(t) && t == Track(s, block, line, busy)
    ensures |t.counter| == |s.counter| && t.threshold == s.threshold && t.cycle == s.cycle && Tells(t, steps, b)
  {
    if block < |s.counter| {
      A.TrackCounts(s, block, line, busy);
      CountTells(s, steps, block, line, b);
      SameTells(Count(s, block, line), t, steps, b);
    } else {
      OtherTells(s, s, steps, b);
    }
  }

  lemma CompleteTells(s: State, steps: seq<Step>, b: nat, t: State)
    requires Inv(s) && steps != [] && Last(steps).Complete? && b < |s.counter| && Tells(s, Front(steps), b)
    requires s.queue != [] ==> s.queue[0].index < s.sets
    requires t == Finish(s) && Inv(t)
    ensures |t.counter| == |s.counter| && t.threshold == s.threshold && t.cycle == s.cycle && Tells(t, steps, b)
  {
    OtherTells(s, t, steps, b);
  }

  lemma StepTells(s: State, steps: seq<Step>, b: nat, t: State)
    requires Inv(s) && StepsOk(steps) && steps != [] && s.cycle == Cycles(Front(steps))
    requires b < |s.counter| && Tells(s, Front(steps), b) && (s.queue != [] ==> s.queue[0].index < s.sets)
    requires t == Apply(s, Last(steps)) && Inv(t)
    ensures |t.counter| == |s.counter| && t.threshold == s.threshold && t.cycle == Cycles(steps) && Tells(t, steps, b)
  {
    match Last(steps)
    case Access(block, line, busy) => AccessTells(s, steps, block, line, busy, b, t);
    case Cycle => TickTells(s, steps, b);
    case Complete => CompleteTells(s, steps, b, t);
  }

  /** Over any run from empty tables: a page's counter is its heat; it is hot if and only if an access
      brought its heat to the threshold and it has stayed warm since; and a line counts as accessed if
      and only if it was and the page has stayed warm since. */
  lemma {:induction false} HeatExact(blocks: nat, sets: nat, threshold: nat, steps: seq<Step>, b: nat)
    requires 0 < sets && blocks <= PAGES_PER_SET * sets && StepsOk(steps) && b < blocks
    ensures var s := StateAfter(Initial(blocks, sets, threshold), steps);
      && |s.counter| == blocks && s.threshold == threshold && s.cycle == Cycles(steps)
      && Tells(s, steps, b)
  {
    if steps != [] {
      HeatExact(blocks, sets, threshold, Front(steps), b);
      var s0 := Initial(blocks, sets, threshold);
      LastStep(s0, steps);
      StepTells(StateAfter(s0, Front(steps)), steps, b, StateAfter(s0, steps));
    }
  }
}
