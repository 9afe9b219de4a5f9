/** Whole runs of the variable-granularity remapper. */
module PlacementRuns {
  import opened PlacementEntry
  import opened VariableGranularity

  /** A line of a page of a set; hardware lines and physical lines have the same names. */
  datatype Place = Place(index: nat, line: Line)

  /** The swapping unit exchanges the lines of a request whenever one finishes. */
  type Memory = Place -> int

  predicate ValidPlace(s: State, p: Place) {
    p.index < s.sets && InPage(p.line)
  }

  /** The value a physical line shows. */
  function Shows(s: State, mem: Memory, p: Place): int
    requires TablesOk(s) && p.index < s.sets
  {
    mem(Place(p.index, Translate(s.placement[p.index], p.line)))
  }

  /** The page whose lines the request exchanges with the fast page. */
  function SlowPage(r: Request): nat {
    if IsMoveIn(r) then r.smLocation else r.fmLocation
  }

  function Swap(r: Request, h: Place): Place {
    if h.index == r.index then Place(h.index, Exchange(r.fast, SlowPage(r), r.slow, r.size, h.line)) else h
  }

  /** Memory after the lines of the request have been exchanged. */
  function Swapped(mem: Memory, r: Request): Memory {
    h => mem(Swap(r, h))
  }

  // ----- One completion -----------------------------------------------------------------------

  /** What a caller can check of a request before it is carried out: a move must not touch lines
      already in fast memory and must not leave a gap, and an eviction must not send home a line
      that another group claims as well. */
  predicate SoundRequest(s: State, r: Request)
    requires TablesOk(s) && r.index < s.sets
  {
    var e := s.placement[r.index];
    if IsMoveIn(r) then Sound(e, r.tag, r.slow, r.size) else SoundEviction(e, r.fast, r.tag, r.slow, r.size)
  }

  /** The line of the set that shows at `h` before the completion shows at `Swap(r, h)` after it. */
  ghost predicate Exchanges(s: State, r: Request)
    requires TablesOk(s) && r.index < s.sets
  {
    var e := s.placement[r.index];
    forall q :: InPage(q) ==>
      Translate(Completed(e, r), q) == Exchange(r.fast, SlowPage(r), r.slow, r.size, Translate(e, q))
  }

  /** A completion exchanges exactly its two intervals if and only if the request is sound. */
  lemma ExchangesExact(s: State, r: Request)
    requires TablesOk(s) && RequestOk(s, r)
    ensures SlowPage(r) != 0 && (Exchanges(s, r) <==> SoundRequest(s, r))
  {
    var e := s.placement[r.index];
    assert EntryOk(s, r.index, e);
    if MoveInOk(e, r) {
      MoveInExact(e, r.tag, r.slow, r.size);
    } else {
      var k: nat :| Names(e, k, r.fast, r.tag, r.slow, r.size);
      OccupiedIsNamed(e, r, k);
      EvictExact(e, k);
      SoundIsAlone(e, k, r.fast, r.tag, r.slow, r.size);
      assert Completed(e, r) == Evicted(e, k);
    }
  }

  lemma SwapUndone(r: Request, h: Place)
    requires SlowPage(r) != 0
    ensures Swap(r, Swap(r, h)) == h
  {
    ExchangeInvolution(r.fast, SlowPage(r), r.slow, r.size, h.line);
  }

  lemma CompletionShows(s: State, mem: Memory, p: Place)
    requires Inv(s) && s.queue != []
    requires RequestOk(s, s.queue[0]) && SoundRequest(s, s.queue[0]) && ValidPlace(s, p)
    ensures TablesOk(Finish(s)) && Shows(Finish(s), Swapped(mem, s.queue[0]), p) == Shows(s, mem, p)
  {
    FinishKeeps(s);
    ExchangesExact(s, s.queue[0]);
    SwapUndone(s.queue[0], Place(p.index, Translate(s.placement[p.index], p.line)));
  }

  /** No physical line shows another value after the head request has finished and its lines
      have been exchanged, whatever the memory holds. */
  ghost predicate PreservesAllValues(s: State)
    requires Inv(s) && s.queue != [] && TablesOk(Finish(s))
  {
    forall mem: Memory, p: Place :: ValidPlace(s, p) ==>
      Shows(Finish(s), Swapped(mem, s.queue[0]), p) == Shows(s, mem, p)
  }

  /** A memory with a mark on a single line. */
  function Marked(h: Place): Memory {
    x => if x == h then 1 else 0
  }

  /** A line that is not exchanged shows another value in some memory. */
  lemma ValueIsLost(s: State, q: Line)
    requires Inv(s) && s.queue != [] && RequestOk(s, s.queue[0]) && TablesOk(Finish(s)) && InPage(q)
    requires var r := s.queue[0];
      var e := s.placement[r.index];
      && SlowPage(r) != 0
      && Translate(Completed(e, r), q) != Exchange(r.fast, SlowPage(r), r.slow, r.size, Translate(e, q))
    ensures !PreservesAllValues(s)
  {
    var r := s.queue[0];
    var p := Place(r.index, q);
    var h := Place(r.index, Translate(s.placement[r.index], q));
    var h' := Place(r.index, Translate(Finish(s).placement[r.index], q));
    SwapUndone(r, h');
    assert h' != Swap(r, h);
    assert Shows(Finish(s), Swapped(Marked(h), r), p) == Marked(h)(Swap(r, h')) == 0;
    assert Shows(s, Marked(h), p) == 1;
    assert ValidPlace(s, p);
  }

  /** The exact condition: a completion keeps every value in place if and only if the request
      is sound. */
  lemma CompletionExact(s: State)
    requires Inv(s) && s.queue != []
    ensures RequestOk(s, s.queue[0]) && TablesOk(Finish(s))
    ensures PreservesAllValues(s) <==> SoundRequest(s, s.queue[0])
  {
    var r := s.queue[0];
    FinishKeeps(s);
    if SoundRequest(s, r) {
      forall mem: Memory, p: Place | ValidPlace(s, p)
        ensures Shows(Finish(s), Swapped(mem, r), p) == Shows(s, mem, p)
      {
        CompletionShows(s, mem, p);
      }
    } else {
      ExchangesExact(s, r);
      var e := s.placement[r.index];
      var q :| InPage(q)
        && Translate(Completed(e, r), q) != Exchange(r.fast, SlowPage(r), r.slow, r.size, Translate(e, q));
      ValueIsLost(s, q);
    }
  }

  // ----- Disjoint entries ----------------------------------------------------------------------

  predicate AllDisjoint(s: State) {
    forall i :: 0 <= i < |s.placement| ==> Disjoint(s.placement[i])
  }

  /** While no slow line is claimed twice every eviction is sound, and sound requests keep it so. */
  lemma DisjointKeeps(s: State)
    requires Inv(s) && AllDisjoint(s) && s.queue != [] && RequestOk(s, s.queue[0])
    ensures !IsMoveIn(s.queue[0]) ==> SoundRequest(s, s.queue[0])
    ensures SoundRequest(s, s.queue[0]) ==> AllDisjoint(Finish(s))
  {
    var r := s.queue[0];
    var e := s.placement[r.index];
    assert EntryOk(s, r.index, e) && Disjoint(e);
    if MoveInOk(e, r) {
      if SoundRequest(s, r) { MovedInDisjoint(e, r.tag, r.slow, r.size); }
    } else {
      var k: nat :| Names(e, k, r.fast, r.tag, r.slow, r.size);
      OccupiedIsNamed(e, r, k);
      DisjointIsAlone(e, k);
      SoundIsAlone(e, k, r.fast, r.tag, r.slow, r.size);
      EvictedWellFormed(e, k);
    }
  }

  // ----- Runs -----------------------------------------------------------------------------------

  datatype Step =
    | Access(block: nat, line: nat, busy: bool)
    | Cycle
    | Complete

  predicate StepOk(e: Step) {
    e.Access? ==> e.line < LINES
  }

  function Apply(s: State, e: Step): State
    requires TablesOk(s) && StepOk(e) && (s.queue != [] ==> s.queue[0].index < s.sets)
  {
    match e
    case Access(block, line, busy) => Track(s, block, line, busy)
    case Cycle => Tick(s)
    case Complete => Finish(s)
  }

  lemma ApplyKeeps(s: State, e: Step)
    requires Inv(s) && StepOk(e)
    ensures s.queue != [] ==> RequestOk(s, s.queue[0])
    ensures Inv(Apply(s, e)) && Apply(s, e).sets == s.sets
    ensures !e.Complete? ==> Apply(s, e).placement == s.placement
  {
    FinishKeeps(s);
    match e
    case Access(block, line, busy) => TrackKeeps(s, block, line, busy); TrackSets(s, block, line, busy);
    case Cycle => TickKeeps(s);
    case Complete =>
  }

  lemma TrackSets(s: State, block: nat, line: nat, busy: bool)
    requires Inv(s) && line < LINES
    ensures Track(s, block, line, busy).sets == s.sets
  {
    TrackKeeps(s, block, line, busy);
  }

  function Last(steps: seq<Step>): Step
    requires steps != []
  {
    steps[|steps| - 1]
  }

  function Front(steps: seq<Step>): seq<Step>
    requires steps != []
  {
    steps[..|steps| - 1]
  }

  predicate StepsOk(steps: seq<Step>) {
    forall i :: 0 <= i < |steps| ==> StepOk(steps[i])
  }

  /** Where a run ends. Whatever the accesses, cycles and completions are and in whatever order
      they come, every entry stays in order and every queued request stays one that can be
      finished on it. */
  ghost function StateAfter(s: State, steps: seq<Step>): (t: State)
    requires Inv(s) && StepsOk(steps)
    ensures Inv(t) && t.sets == s.sets
  {
    if steps == [] then s
    else
      var u := StateAfter(s, Front(steps));
      ApplyKeeps(u, Last(steps));
      Apply(u, Last(steps))
  }

  lemma LastStep(s: State, steps: seq<Step>)
    requires Inv(s) && StepsOk(steps) && steps != []
    ensures var u := StateAfter(s, Front(steps));
      (u.queue != [] ==> u.queue[0].index < u.sets) && StateAfter(s, steps) == Apply(u, Last(steps))
  {
    ApplyKeeps(StateAfter(s, Front(steps)), Last(steps));
  }

  /** One more step. */
  lemma RunExtends(s: State, steps: seq<Step>, e: Step)
    requires Inv(s) && StepsOk(steps) && StepOk(e)
    ensures StepsOk(steps + [e])
    ensures var t := StateAfter(s, steps);
      (t.queue != [] ==> t.queue[0].index < t.sets) && StateAfter(s, steps + [e]) == Apply(t, e)
  {
    LastStep(s, steps + [e]);
    assert Front(steps + [e]) == steps && Last(steps + [e]) == e;
  }

  function MemoryStep(s: State, e: Step, mem: Memory): Memory {
    if e.Complete? && s.queue != [] then Swapped(mem, s.queue[0]) else mem
  }

  /** The memory as the completions of the run leave it. */
  ghost function MemoryAfter(s: State, steps: seq<Step>, mem: Memory): Memory
    requires Inv(s) && StepsOk(steps)
  {
    if steps == [] then mem
    else MemoryStep(StateAfter(s, Front(steps)), Last(steps), MemoryAfter(s, Front(steps), mem))
  }

  /** Every request the run completes is sound when it completes. */
  ghost predicate SoundRun(s: State, steps: seq<Step>)
    requires Inv(s) && StepsOk(steps)
  {
    steps == [] ||
    (&& SoundRun(s, Front(steps))
     && var u := StateAfter(s, Front(steps));
       (Last(steps).Complete? && u.queue != [] && u.queue[0].index < u.sets ==> SoundRequest(u, u.queue[0])))
  }

  lemma StepKeepsValues(s: State, e: Step, mem: Memory, p: Place)
    requires Inv(s) && StepOk(e) && ValidPlace(s, p)
    requires s.queue != [] ==> s.queue[0].index < s.sets
    requires e.Complete? && s.queue != [] ==> SoundRequest(s, s.queue[0])
    ensures Inv(Apply(s, e)) && ValidPlace(Apply(s, e), p)
    ensures Shows(Apply(s, e), MemoryStep(s, e, mem), p) == Shows(s, mem, p)
  {
    ApplyKeeps(s, e);
    if e.Complete? && s.queue != [] {
      CompletionShows(s, mem, p);
    }
  }

  /** Over a whole run of sound completions every physical line keeps showing its value. */
  lemma {:induction false} RunKeepsValues(s: State, steps: seq<Step>, mem: Memory, p: Place)
    requires Inv(s) && StepsOk(steps) && SoundRun(s, steps) && ValidPlace(s, p)
    ensures Shows(StateAfter(s, steps), MemoryAfter(s, steps, mem), p) == Shows(s, mem, p)
  {
    if steps != [] {
      RunKeepsValues(s, Front(steps), mem, p);
      var u := StateAfter(s, Front(steps));
      FinishKeeps(u);
      StepKeepsValues(u, Last(steps), MemoryAfter(s, Front(steps), mem), p);
    }
  }

  /** After any run, the next completion keeps every value if and only if its request is sound. */
  lemma RunNextExact(s: State, steps: seq<Step>)
    requires Inv(s) && StepsOk(steps) && StateAfter(s, steps).queue != []
    ensures var u := StateAfter(s, steps);
      && RequestOk(u, u.queue[0]) && TablesOk(Finish(u))
      && (PreservesAllValues(u) <==> SoundRequest(u, u.queue[0]))
  {
    CompletionExact(StateAfter(s, steps));
  }

  /** A run of sound completions that starts with disjoint entries keeps them disjoint. */
  lemma {:induction false} RunKeepsDisjoint(s: State, steps: seq<Step>)
    requires Inv(s) && AllDisjoint(s) && StepsOk(steps) && SoundRun(s, steps)
    ensures AllDisjoint(StateAfter(s, steps))
  {
    if steps != [] {
      RunKeepsDisjoint(s, Front(steps));
      var u := StateAfter(s, Front(steps));
      ApplyKeeps(u, Last(steps));
      if Last(steps).Complete? && u.queue != [] { DisjointKeeps(u); }
    }
  }

  /** At every point of such a run translation is its own inverse, within set and page. */
  lemma RunTranslationInverse(s: State, steps: seq<Step>, p: Place)
    requires Inv(s) && AllDisjoint(s) && StepsOk(steps) && SoundRun(s, steps) && ValidPlace(s, p)
    ensures var e := StateAfter(s, steps).placement[p.index];
      InPage(Translate(e, p.line)) && Translate(e, Translate(e, p.line)) == p.line
  {
    RunKeepsDisjoint(s, steps);
    var u := StateAfter(s, steps);
    assert EntryOk(u, p.index, u.placement[p.index]);
    TranslateInvolution(u.placement[p.index], p.line);
  }

  /** A fresh machine meets what the run lemmas ask for. */
  lemma InitialReady(blocks: nat, sets: nat, threshold: nat)
    requires 0 < sets && blocks <= PAGES_PER_SET * sets
    ensures var s := Initial(blocks, sets, threshold);
      Inv(s) && AllDisjoint(s) && forall p :: ValidPlace(s, p) ==> Translate(s.placement[p.index], p.line) == p.line
  {
  }

  /** From empty tables on, every physical line shows its own value at every point of a run of sound
      completions. */
  lemma FreshRunKeepsValues(blocks: nat, sets: nat, threshold: nat, steps: seq<Step>, mem: Memory, p: Place)
    requires 0 < sets && blocks <= PAGES_PER_SET * sets && StepsOk(steps)
    requires var s := Initial(blocks, sets, threshold); SoundRun(s, steps) && ValidPlace(s, p)
    ensures var s := Initial(blocks, sets, threshold);
      Shows(StateAfter(s, steps), MemoryAfter(s, steps, mem), p) == mem(p)
  {
    InitialReady(blocks, sets, threshold);
    RunKeepsValues(Initial(blocks, sets, threshold), steps, mem, p);
  }
}
