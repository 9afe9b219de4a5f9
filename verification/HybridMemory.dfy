/** The remapper and the swapping unit as one machine: what a cycle of the memory controller makes of both,
    and what every physical line holds over whole runs of it. */
module HybridMemory {
  import P = PlacementEntry
  import M = MigrationPlan
  import V = VariableGranularity
  import R = PlacementRuns
  import U = SwappingUnit
  import I = SwappingInvariants
  import S = SwappingRuns
  import L = SwappingValues
  import X = MemoryExchange

  datatype System = System(tables: V.State, unit: U.State)

  // ----- Addresses -----------------------------------------------------------------------------------

  function FastAddress(s: System, r: V.Request): nat {
    X.Address(s.tables.sets, R.Place(r.index, P.Line(0, r.fast)))
  }

  function SlowAddress(s: System, r: V.Request): nat {
    X.Address(s.tables.sets, R.Place(r.index, P.Line(R.SlowPage(r), r.slow)))
  }

  /** What the unit is asked for: the oldest request of the queue. */
  function AskOf(s: System): S.Ask {
    if s.tables.queue == [] then S.NoAsk
    else
      var r := s.tables.queue[0];
      S.Ask(FastAddress(s, r), SlowAddress(s, r), r.size)
  }

  // ----- Invariant -------------------------------------------------------------------------------------

  /** The fast page of every set and all its other pages make up the memory. */
  predicate Fits(s: System) {
    && s.unit.fast == s.tables.sets * P.LINES && s.tables.sets <= |s.tables.counter|
    && |s.unit.mem| == |s.tables.counter| * P.LINES
  }

  /** A busy unit works on the oldest request, which may have grown since the last cycle. */
  predicate Serves(s: System) {
    s.unit.swapping ==>
      && s.tables.queue != []
      && s.unit.base1 == FastAddress(s, s.tables.queue[0])
      && s.unit.base2 == SlowAddress(s, s.tables.queue[0])
      && s.unit.active <= s.tables.queue[0].size
  }

  ghost predicate Inv(s: System) {
    V.Inv(s.tables) && I.Inv(s.unit) && Fits(s) && Serves(s)
  }

  /** A queued request names a stretch of a fast page and one of a slow page. */
  lemma RequestShape(v: V.State, r: V.Request)
    requires V.TablesOk(v) && V.RequestOk(v, r)
    ensures R.SlowPage(r) == r.tag != 0 && r.size <= P.LINES
    ensures r.fast + r.size <= P.LINES && r.slow + r.size <= P.LINES
  {
    var e := v.placement[r.index];
    assert V.EntryOk(v, r.index, e);
    if !V.MoveInOk(e, r) {
      var k: nat :| P.Names(e, k, r.fast, r.tag, r.slow, r.size);
      P.OffsetGrows(e, k, |e|);
    }
  }

  lemma MulMonotone(a: nat, b: nat, n: nat)
    requires a <= b
    ensures a * n <= b * n
  {
  }

  /** The request's stretches lie in the two memories. */
  lemma AskFits(s: System)
    requires V.Inv(s.tables) && Fits(s) && s.tables.queue != []
    ensures var r := s.tables.queue[0];
      U.Segments(s.unit, FastAddress(s, r), SlowAddress(s, r), r.size)
  {
    var r := s.tables.queue[0];
    assert V.RequestOk(s.tables, r);
    RequestShape(s.tables, r);
    MulMonotone(r.index + 1, s.tables.sets, P.LINES);
    MulMonotone(1, r.tag, s.tables.sets);
    MulMonotone(s.tables.sets, r.tag * s.tables.sets + r.index, P.LINES);
    MulMonotone(r.tag * s.tables.sets + r.index + 1, |s.tables.counter|, P.LINES);
  }

  // ----- Accesses ----------------------------------------------------------------------------------------

  /** Only the queue has changed, and while requests are queued the oldest stays the same, except that
      a move may grow. */
  predicate SameHead(v: V.State, w: V.State) {
    && w == v.(queue := w.queue, congestion := w.congestion)
    && (v.queue != [] ==>
          w.queue != [] && V.SameAddresses(v.queue[0], w.queue[0]) && v.queue[0].size <= w.queue[0].size
          && R.SlowPage(v.queue[0]) == R.SlowPage(w.queue[0]))
  }

  lemma EnqueueHead(v: V.State, r: V.Request)
    ensures SameHead(v, V.Enqueue(v, r))
  {
  }

  lemma {:induction false} EvictPageHead(v: V.State, e: P.Entry, index: nat, cold: nat, i: nat, busy: bool)
    requires i <= |e|
    ensures SameHead(v, V.EvictPage(v, e, index, cold, i, busy))
    decreases |e| - i
  {
    if i < |e| {
      var w := if e[i].tag == cold then V.EnqueueUnless(v, busy, V.EvictionRequest(e, index, i)) else v;
      if e[i].tag == cold { EnqueueHead(v, V.EvictionRequest(e, index, i)); }
      EvictPageHead(w, e, index, cold, i + 1, busy);
    }
  }

  lemma EvictColdHead(v: V.State, index: nat, tag: nat, busy: bool)
    requires V.TablesOk(v) && index < v.sets
    ensures SameHead(v, V.EvictCold(v, index, tag, busy))
  {
    var e := v.placement[index];
    var k := V.FindCold(v, index, tag, 0);
    if k < |e| { EvictPageHead(v, e, index, e[k].tag, k, busy); }
  }

  lemma FollowPlanHead(v: V.State, index: nat, tag: nat, p: M.Plan, busy: bool)
    requires V.TablesOk(v) && index < v.sets
    ensures SameHead(v, V.FollowPlan(v, index, tag, p, busy))
  {
    match p
    case Hit =>
    case Evict => EvictColdHead(v, index, tag, busy);
    case MoveIn(start, n) => EnqueueHead(v, V.MoveInRequest(v.placement[index], index, tag, start, n));
  }

  lemma CallHomeHead(v: V.State, index: nat, line: nat, busy: bool)
    requires V.TablesOk(v) && index < v.sets
    ensures SameHead(v, V.CallHome(v, index, line, busy))
  {
    var e := v.placement[index];
    var k := P.FindFast(e, line, 0);
    if k < |e| { EnqueueHead(v, V.EvictionRequest(e, index, k)); }
  }

  /** An access counts, and then only queues. */
  lemma TrackHead(v: V.State, block: nat, line: nat, busy: bool)
    requires V.Inv(v) && line < P.LINES && block < |v.counter|
    ensures V.Inv(V.Count(v, block, line)) && SameHead(V.Count(v, block, line), V.Track(v, block, line, busy))
  {
    V.CountKeeps(v, block, line);
    var t := V.Count(v, block, line);
    var index, tag := block % v.sets, block / v.sets;
    V.BlockSplit(v, block);
    if tag == 0 {
      CallHomeHead(t, index, line, busy);
    } else if t.hot[block] {
      assert t.access[block][line];
      var p := M.PlanFor(t.placement[index], tag, M.First(t.access[block], 0), M.Last(t.access[block], P.LINES));
      FollowPlanHead(t, index, tag, p, busy);
    } else {
      EvictColdHead(t, index, tag, busy);
    }
  }

  // ----- Steps --------------------------------------------------------------------------------------------

  /** A line that a physical address names. */
  predicate Physical(s: System, p: R.Place) {
    X.Proper(s.tables.sets, p) && V.Block(s.tables.sets, p.line.tag, p.index) < |s.tables.counter|
  }

  /** The hardware address the tables give for a physical line. */
  function Home(s: System, p: R.Place): nat
    requires V.TablesOk(s.tables) && p.index < s.tables.sets
  {
    X.Address(s.tables.sets, R.Place(p.index, P.Translate(s.tables.placement[p.index], p.line)))
  }

  lemma HomeFits(s: System, p: R.Place)
    requires Inv(s) && Physical(s, p)
    ensures X.Proper(s.tables.sets, R.Place(p.index, P.Translate(s.tables.placement[p.index], p.line)))
    ensures Home(s, p) < |s.unit.mem|
  {
    var e := s.tables.placement[p.index];
    assert V.EntryOk(s.tables, p.index, e);
    var h := P.Translate(e, p.line);
    HomeTag(s, p);
    MulMonotone(h.tag * s.tables.sets + p.index + 1, |s.tables.counter|, P.LINES);
  }

  /** Translation leads to the fast page, to a page with a group, or nowhere else. */
  lemma TranslateLeads(e: P.Entry, p: P.Line)
    requires P.WellFormed(e) && P.InPage(p)
    ensures var h := P.Translate(e, p);
      P.InPage(h) && (h.tag == 0 || h.tag == p.tag || exists k :: 0 <= k < |e| && e[k].tag == h.tag)
  {
    if p.tag != 0 {
      var k := P.FindSlow(e, p.tag, p.line, 0);
      if k < |e| { P.OffsetGrows(e, k, |e|); }
    } else {
      var k := P.FindFast(e, p.line, 0);
      if k < |e| { P.OffsetGrows(e, k, |e|); }
    }
  }

  lemma HomeTag(s: System, p: R.Place)
    requires V.TablesOk(s.tables) && Fits(s) && Physical(s, p)
    ensures var h := P.Translate(s.tables.placement[p.index], p.line);
      P.InPage(h) && V.Block(s.tables.sets, h.tag, p.index) < |s.tables.counter|
  {
    var e := s.tables.placement[p.index];
    assert V.EntryOk(s.tables, p.index, e);
    TranslateLeads(e, p.line);
  }

  datatype Event =
    | Access(block: nat, line: nat, busy: bool)
    | Operate(a: U.Accepts)
    | Answer(k: nat)
    | Store(p: R.Place, word: int, ok: bool)

  predicate Enabled(s: System, e: Event) {
    match e
    case Access(_, line, _) => line < P.LINES
    case Operate(_) => true
    case Answer(k) => k < |s.unit.flights|
    case Store(p, _, _) => Physical(s, p)
  }

  /** The unit's cycle ends a swap. */
  ghost predicate Ends(s: System, a: U.Accepts)
    requires Inv(s)
  {
    AskFitsAll(s);
    s.unit.swapping && !S.Rounded(s.unit, a, AskOf(s)).swapping
  }

  lemma AskFitsAll(s: System)
    requires Inv(s)
    ensures S.AskOk(s.unit, AskOf(s))
  {
    if s.tables.queue != [] { AskFits(s); }
  }

  /** One cycle: cooling, the unit, and the tables when a swap has ended. */
  ghost function Operated(s: System, a: U.Accepts): System
    requires Inv(s)
  {
    AskFitsAll(s);
    V.TickKeeps(s.tables);
    V.FinishKeeps(V.Tick(s.tables));
    var tables := V.Tick(s.tables);
    System(if Ends(s, a) then V.Finish(tables) else tables, S.Rounded(s.unit, a, AskOf(s)))
  }

  /** A cycle of a unit that works on the request `ask`, or on nothing. */
  lemma RoundServes(u: U.State, a: U.Accepts, ask: S.Ask)
    requires I.Inv(u) && S.AskOk(u, ask)
    requires u.swapping ==> ask.Ask? && u.base1 == ask.base1 && u.base2 == ask.base2 && u.active <= ask.size
    ensures var t := S.Rounded(u, a, ask);
      t.swapping ==> ask.Ask? && t.base1 == ask.base1 && t.base2 == ask.base2 && t.active == ask.size
    ensures u.swapping && !S.Rounded(u, a, ask).swapping ==> u.active == ask.size
  {
    I.OperatedKeeps(u, a);
    if u.swapping && S.Rounded(u, a, ask).swapping {
      S.RoundedGrows(u, a, ask, U.Operated(u, a));
    }
  }

  lemma UnitServes(s: System, a: U.Accepts)
    requires Inv(s)
    ensures S.AskOk(s.unit, AskOf(s))
    ensures var u := S.Rounded(s.unit, a, AskOf(s));
      u.swapping ==> s.tables.queue != [] && X.Carries(u, s.tables.sets, s.tables.queue[0])
    ensures Ends(s, a) ==> s.tables.queue != [] && X.Carries(s.unit, s.tables.sets, s.tables.queue[0])
  {
    AskFitsAll(s);
    RoundServes(s.unit, a, AskOf(s));
    if s.tables.queue != [] {
      assert V.RequestOk(s.tables, s.tables.queue[0]);
      RequestShape(s.tables, s.tables.queue[0]);
    }
  }

  /** After every cycle a busy unit carries exactly the oldest request. */
  lemma OperatedKeeps(s: System, a: U.Accepts)
    requires Inv(s)
    ensures var t := Operated(s, a);
      && Inv(t) && t.tables.sets == s.tables.sets && |t.tables.counter| == |s.tables.counter|
      && (t.unit.swapping ==> X.Carries(t.unit, t.tables.sets, t.tables.queue[0]))
  {
    UnitServes(s, a);
    V.TickKeeps(s.tables);
    V.FinishKeeps(V.Tick(s.tables));
  }

  lemma AccessKeeps(s: System, block: nat, line: nat, busy: bool)
    requires Inv(s) && line < P.LINES
    ensures var t := s.(tables := V.Track(s.tables, block, line, busy));
      && Inv(t) && t.tables.sets == s.tables.sets && |t.tables.counter| == |s.tables.counter|
      && t.tables.placement == s.tables.placement
  {
    V.TrackKeeps(s.tables, block, line, busy);
    if block < |s.tables.counter| { TrackHead(s.tables, block, line, busy); }
  }

  ghost function Step(s: System, e: Event): (t: System)
    requires Inv(s) && Enabled(s, e)
    ensures Inv(t) && t.tables.sets == s.tables.sets && |t.tables.counter| == |s.tables.counter|
  {
    match e
    case Access(block, line, busy) =>
      AccessKeeps(s, block, line, busy);
      s.(tables := V.Track(s.tables, block, line, busy))
    case Operate(a) =>
      OperatedKeeps(s, a);
      Operated(s, a)
    case Answer(k) =>
      I.ReturnedKeeps(s.unit, k);
      s.(unit := U.Returned(s.unit, k))
    case Store(p, word, ok) =>
      HomeFits(s, p);
      I.WrittenKeeps(s.unit, Home(s, p), word, ok);
      s.(unit := U.Written(s.unit, Home(s, p), word, ok))
  }

  // ----- What a physical line holds ------------------------------------------------------------------

  /** The line a physical address stands for, wherever a swap under way has taken it so far. */
  ghost function Holds(s: System, p: R.Place): U.Data
    requires Inv(s) && Physical(s, p)
  {
    HomeFits(s, p);
    L.LineOf(s.unit, Home(s, p))
  }

  /** While no swap is under way that is the line in memory. */
  lemma IdleHolds(s: System, p: R.Place)
    requires Inv(s) && Physical(s, p) && !s.unit.swapping
    ensures Home(s, p) < |s.unit.mem| && Holds(s, p) == s.unit.mem[Home(s, p)]
  {
    HomeFits(s, p);
  }

  /** The final round leaves the last word written to the line behind. */
  ghost predicate Forgets(s: System, a: U.Accepts, p: R.Place)
    requires Inv(s) && Physical(s, p)
  {
    Ends(s, a) && L.Lost(s.unit, a, Home(s, p))
  }

  /** When a swap for a sound request ends, the tables find every line on the side it was taken to. */
  lemma HomeFaces(s: System, a: U.Accepts, p: R.Place)
    requires Inv(s) && Physical(s, p) && Ends(s, a)
    requires s.tables.queue != [] && R.SoundRequest(s.tables, s.tables.queue[0])
    ensures var t := Operated(s, a); V.TablesOk(t.tables) && Home(t, p) == L.Facing(s.unit, Home(s, p))
  {
    var r := s.tables.queue[0];
    var h := R.Place(p.index, P.Translate(s.tables.placement[p.index], p.line));
    UnitServes(s, a);
    OperatedKeeps(s, a);
    V.TickKeeps(s.tables);
    HomeFits(s, p);
    X.SwapAddress(s.unit, s.tables.sets, r, h);
    R.ExchangesExact(s.tables, r);
  }

  /** A cycle leaves every physical line as it is, except one whose last word it leaves behind; the
      request of a swap that ends must be sound. */
  lemma OperateHolds(s: System, a: U.Accepts, p: R.Place)
    requires Inv(s) && Physical(s, p)
    requires Ends(s, a) ==> s.tables.queue != [] && R.SoundRequest(s.tables, s.tables.queue[0])
    ensures Inv(Operated(s, a)) && Physical(Operated(s, a), p)
    ensures Holds(Operated(s, a), p) == Holds(s, p) <==> !Forgets(s, a, p)
  {
    OperatedKeeps(s, a);
    UnitServes(s, a);
    HomeFits(s, p);
    if Ends(s, a) {
      HomeFaces(s, a, p);
      L.RoundMovesLines(s.unit, a, AskOf(s), Home(s, p));
    } else {
      V.TickKeeps(s.tables);
      L.RoundKeepsLines(s.unit, a, AskOf(s), Home(s, p));
    }
  }

  /** A store to `p` is taken and goes to `q`. */
  ghost predicate Lands(s: System, p: R.Place, word: int, ok: bool, q: R.Place)
    requires Inv(s) && Physical(s, p) && Physical(s, q)
  {
    L.Taken(s.unit, Home(s, p), word, ok) && Home(s, q) == L.Facing(s.unit, Home(s, p))
  }

  /** What an event makes of physical line `p` that holds `d`. */
  ghost function Told(s: System, e: Event, p: R.Place, d: U.Data): U.Data
    requires Inv(s) && Enabled(s, e) && Physical(s, p)
  {
    match e
    case Store(q, word, ok) => if Lands(s, q, word, ok, p) then d.(word := word) else d
    case _ => d
  }

  /** The event ends no swap, or one for a sound request that leaves no word of `p` behind. */
  ghost predicate Good(s: System, e: Event, p: R.Place)
    requires Inv(s) && Enabled(s, e) && Physical(s, p)
  {
    e.Operate? && Ends(s, e.a) ==>
      && s.tables.queue != [] && s.tables.queue[0].index < s.tables.sets
      && R.SoundRequest(s.tables, s.tables.queue[0])
      && !Forgets(s, e.a, p)
  }

  /** Every physical line is changed by the stores that land on it, and by nothing else. */
  lemma StepHolds(s: System, e: Event, p: R.Place)
    requires Inv(s) && Enabled(s, e) && Physical(s, p) && Good(s, e, p)
    ensures Physical(Step(s, e), p) && Holds(Step(s, e), p) == Told(s, e, p, Holds(s, p))
  {
    HomeFits(s, p);
    match e
    case Access(block, line, busy) => AccessKeeps(s, block, line, busy);
    case Operate(a) => OperateHolds(s, a, p);
    case Answer(k) => L.ReturnKeepsLines(s.unit, k, Home(s, p));
    case Store(q, word, ok) =>
      HomeFits(s, q);
      L.WriteLands(s.unit, Home(s, q), word, ok, Home(s, p));
  }

  // ----- Loads and stores --------------------------------------------------------------------------------

  /** A load that is answered gets the line that faces the place the tables give: from memory the
      line itself, from the buffer the line that trades places with it. */
  lemma LoadShows(s: System, p: R.Place, q: R.Place)
    requires Inv(s) && Physical(s, p) && Physical(s, q) && Home(s, q) == L.Facing(s.unit, Home(s, p))
    ensures Home(s, p) < |s.unit.mem|
    ensures match U.CheckRead(s.unit, Home(s, p))
      case Stall => true
      case ToMemory => s.unit.mem[Home(s, p)] == Holds(s, p) == Holds(s, q)
      case FromBuffer(word) => word == Holds(s, q).word
  {
    HomeFits(s, p);
    HomeFits(s, q);
    L.ReadShows(s.unit, Home(s, p));
  }

  /** A store reaches its own line if and only if no swap is moving that line and the memory accepts it. */
  lemma StoreOwn(s: System, p: R.Place, word: int, ok: bool)
    requires Inv(s) && Physical(s, p)
    ensures Lands(s, p, word, ok, p) <==> U.Locate(s.unit, Home(s, p)).Outside? && ok
  {
    HomeFits(s, p);
  }

  // ----- Runs ----------------------------------------------------------------------------------------------

  ghost predicate Run(s: System, events: seq<Event>)
    requires Inv(s)
    decreases |events|
  {
    events == [] || (Enabled(s, events[0]) && Run(Step(s, events[0]), events[1..]))
  }

  /** Where a run of the whole machine ends: the unit stays on the oldest request, however that grows,
      and the tables, the queue and the buffer stay in order. */
  ghost function StateAfter(s: System, events: seq<Event>): (t: System)
    requires Inv(s) && Run(s, events)
    ensures Inv(t) && t.tables.sets == s.tables.sets && |t.tables.counter| == |s.tables.counter|
    decreases |events|
  {
    if events == [] then s else StateAfter(Step(s, events[0]), events[1..])
  }

  ghost predicate GoodRun(s: System, events: seq<Event>, p: R.Place)
    requires Inv(s) && Run(s, events) && Physical(s, p)
    decreases |events|
  {
    events == [] || (Good(s, events[0], p) && GoodRun(Step(s, events[0]), events[1..], p))
  }

  ghost function ToldBy(s: System, events: seq<Event>, p: R.Place, d: U.Data): U.Data
    requires Inv(s) && Run(s, events) && Physical(s, p)
    decreases |events|
  {
    if events == [] then d else ToldBy(Step(s, events[0]), events[1..], p, Told(s, events[0], p, d))
  }

  /** Over whole runs of the machine, under any accesses, stalls, late answers and growth: a physical
      line holds what the stores that landed on it have made of it. */
  lemma {:induction false} RunHolds(s: System, events: seq<Event>, p: R.Place)
    requires Inv(s) && Run(s, events) && Physical(s, p) && GoodRun(s, events, p)
    ensures Physical(StateAfter(s, events), p)
    ensures Holds(StateAfter(s, events), p) == ToldBy(s, events, p, Holds(s, p))
    decreases |events|
  {
    if events != [] {
      StepHolds(s, events[0], p);
      RunHolds(Step(s, events[0]), events[1..], p);
    }
  }

  /** The machine as it is built. */
  function Initial(mem: seq<U.Data>, sets: nat, threshold: nat): (s: System)
    requires 0 < sets && |mem| % P.LINES == 0 && sets <= |mem| / P.LINES <= V.PAGES_PER_SET * sets
  {
    System(V.Initial(|mem| / P.LINES, sets, threshold), S.Initial(mem, sets * P.LINES))
  }

  lemma InitialHolds(mem: seq<U.Data>, sets: nat, threshold: nat, p: R.Place)
    requires 0 < sets && |mem| % P.LINES == 0 && sets <= |mem| / P.LINES <= V.PAGES_PER_SET * sets
    ensures Inv(Initial(mem, sets, threshold))
    ensures Physical(Initial(mem, sets, threshold), p) ==>
      X.Address(sets, p) < |mem| && Holds(Initial(mem, sets, threshold), p) == mem[X.Address(sets, p)]
  {
    var s := Initial(mem, sets, threshold);
    if Physical(s, p) { HomeFits(s, p); }
  }
}
