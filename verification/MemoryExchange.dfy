/** The swapping unit under the variable-granularity remapper: a completed swap of a request's
    segments carries out the exchange of lines that the remapper's tables assume, whatever the
    processor writes meanwhile. */
module MemoryExchange {
  import P = PlacementEntry
  import V = VariableGranularity
  import R = PlacementRuns
  import opened SwappingUnit
  import opened SwappingInvariants
  import opened SwappingRuns

  // ----- Addresses ---------------------------------------------------------------------------------

  /** Pages of one set lie `sets` pages apart. */
  function Address(sets: nat, p: R.Place): nat {
    (p.line.tag * sets + p.index) * P.LINES + p.line.line
  }

  predicate Proper(sets: nat, p: R.Place) {
    p.index < sets && P.InPage(p.line)
  }

  lemma SameQuotient(n: nat, a: nat, x: nat, b: nat, y: nat)
    requires x < n && y < n
    ensures a * n + x == b * n + y <==> a == b && x == y
  {
    if a < b {
      assert b * n >= (a + 1) * n == a * n + n;
    } else if b < a {
      assert a * n >= (b + 1) * n == b * n + n;
    }
  }

  /** Different lines have different addresses. */
  lemma AddressUnique(sets: nat, p: R.Place, q: R.Place)
    requires Proper(sets, p) && Proper(sets, q)
    ensures Address(sets, p) == Address(sets, q) <==> p == q
  {
    SameQuotient(P.LINES, p.line.tag * sets + p.index, p.line.line, q.line.tag * sets + q.index, q.line.line);
    SameQuotient(sets, p.line.tag, p.index, q.line.tag, q.index);
  }

  // ----- The exchange -----------------------------------------------------------------------------------

  /** The unit works on the lines the request names. */
  predicate Carries(s: State, sets: nat, r: V.Request) {
    && r.index < sets && R.SlowPage(r) != 0 && s.active == r.size
    && r.fast + r.size <= P.LINES && r.slow + r.size <= P.LINES
    && s.base1 == Address(sets, R.Place(r.index, P.Line(0, r.fast)))
    && s.base2 == Address(sets, R.Place(r.index, P.Line(R.SlowPage(r), r.slow)))
  }

  /** Where a line lies relative to the segments of the request. */
  lemma LocateLine(s: State, sets: nat, r: V.Request, h: R.Place)
    requires SizesOk(s) && Carries(s, sets, r) && Proper(sets, h)
    ensures Locate(s, Address(sets, h)) ==
      if h.index == r.index && h.line.tag == 0 && r.fast <= h.line.line < r.fast + r.size
        then Inside(1, h.line.line - r.fast)
      else if h.index == r.index && h.line.tag == R.SlowPage(r) && r.slow <= h.line.line < r.slow + r.size
        then Inside(2, h.line.line - r.slow)
      else Outside
  {
    var x := Address(sets, h);
    if s.base1 <= x < s.base1 + s.active {
      AddressUnique(sets, h, R.Place(r.index, P.Line(0, r.fast + (x - s.base1))));
    } else if s.base2 <= x < s.base2 + s.active {
      AddressUnique(sets, h, R.Place(r.index, P.Line(R.SlowPage(r), r.slow + (x - s.base2))));
    }
  }

  lemma SwapAddress(s: State, sets: nat, r: V.Request, h: R.Place)
    requires SizesOk(s) && Carries(s, sets, r) && Proper(sets, h)
    ensures Address(sets, R.Swap(r, h)) == match Locate(s, Address(sets, h))
      case Outside => Address(sets, h)
      case Inside(j, i) => Base(s, Other(j)) + i
  {
    LocateLine(s, sets, r, h);
  }

  lemma LinesOutside(s: State, r: Ask, s0: State, events: seq<Event>, u: State, a: Accepts, x: nat)
    requires SwapRun(s, r, s0, events, u) && x < |s.mem| && Locate(u, x).Outside?
    ensures |Operated(u, a).mem| == |s.mem| && Operated(u, a).mem[x] == Overwritten(s.mem[x], x, events)
  {
    SwapLeavesOthers(s0, events, u, a, x);
  }

  /** What a completed swap leaves at address `x`, with `y` the address the remapper's exchange takes
      the line from: inside the segments the line that stood at `y` when it became part of the swap,
      with the last word absorbed on top unless it is left behind; elsewhere what the processor
      wrote. */
  ghost predicate Exchanged(s: State, s0: State, events: seq<Event>, u: State, a: Accepts, x: nat, y: nat)
    requires Inv(s0) && WithinSwap(s0, events) && SizesOk(u) && x < |s.mem| && y < |s.mem|
  {
    && |Operated(u, a).mem| == |s.mem|
    && match Locate(u, x)
       case Outside => x == y && Operated(u, a).mem[x] == Overwritten(s.mem[x], x, events)
       case Inside(j, i) => Delivered(u, a, i, j, Joining(s, s0, events, y))
  }

  /** A swap of the request's segments, whatever the stalls, the order of the answers and the
      processor's writes, and however the request grew meanwhile, carries out the exchange of lines
      that the remapper's tables assume. */
  lemma SwapIsExchange(s: State, size: nat, s0: State, events: seq<Event>, u: State, a: Accepts,
                       sets: nat, r: V.Request, h: R.Place)
    requires SwapRun(s, Ask(u.base1, u.base2, size), s0, events, u)
    requires StatusOf(u, a) == Done && Carries(u, sets, r)
    requires Proper(sets, h) && Address(sets, h) < |s.mem|
    ensures Address(sets, R.Swap(r, h)) < |s.mem|
    ensures Exchanged(s, s0, events, u, a, Address(sets, h), Address(sets, R.Swap(r, h)))
  {
    SwapAddress(u, sets, r, h);
    var x := Address(sets, h);
    match Locate(u, x)
    case Outside => LinesOutside(s, Ask(u.base1, u.base2, size), s0, events, u, a, x);
    case Inside(j, i) => SwapCompletes(s, Ask(u.base1, u.base2, size), s0, events, u, a, i, j);
  }

  // ----- Swaps without processor writes ---------------------------------------------------------------

  predicate NoWrites(events: seq<Event>) {
    forall k :: 0 <= k < |events| ==> !events[k].Write?
  }

  lemma {:induction false} QuietLine(d: Data, x: nat, events: seq<Event>)
    requires NoWrites(events)
    ensures Overwritten(d, x, events) == d
    decreases |events|
  {
    if events != [] { QuietLine(d, x, events[1..]); }
  }

  lemma StepLog(s: State, e: Event)
    requires Inv(s) && Enabled(s, e) && s.swapping && Step(s, e).swapping && !e.Write?
    ensures Step(s, e).log == s.log
  {
    match e
    case Round(a, ask) =>
      OperatedKeeps(s, a);
      RoundedGrows(s, a, ask, Operated(s, a));
    case Return(k) =>
  }

  lemma {:induction false} RunLog(s: State, events: seq<Event>)
    requires Inv(s) && WithinSwap(s, events) && Run(s, events) && NoWrites(events)
    ensures StateAfter(s, events).log == s.log
    decreases |events|
  {
    if events != [] {
      StepLog(s, events[0]);
      RunLog(Step(s, events[0]), events[1..]);
    }
  }

  lemma NothingLeft(s: State, a: Accepts, i: nat, j: nat)
    requires Inv(s) && s.log == [] && i < s.active && Seg(j)
    ensures !LeftBehind(s, a, i, j)
  {
    assert EntryOk(s, i) && SideOk(s, i, j);
  }

  lemma QuietJoining(s: State, s0: State, events: seq<Event>, y: nat)
    requires Inv(s0) && WithinSwap(s0, events) && NoWrites(events) && y < |s.mem|
    ensures Joining(s, s0, events, y) == s.mem[y]
  {
    QuietLine(s.mem[y], y, events[..OutsideFor(s0, events, y)]);
  }

  lemma QuietDelivered(u: State, a: Accepts, i: nat, j: nat, d: Data)
    requires Inv(u) && u.log == [] && i < u.active && Seg(j) && Delivered(u, a, i, j, d)
    ensures Operated(u, a).mem[Base(u, j) + i] == d
  {
    NothingLeft(u, a, i, j);
  }

  lemma QuietExchanged(s: State, s0: State, events: seq<Event>, u: State, a: Accepts, x: nat, y: nat)
    requires Inv(s0) && WithinSwap(s0, events) && NoWrites(events) && Inv(u) && u.log == []
    requires x < |s.mem| && y < |s.mem| && Exchanged(s, s0, events, u, a, x, y)
    ensures Operated(u, a).mem[x] == s.mem[y]
  {
    match Locate(u, x)
    case Outside => QuietLine(s.mem[x], x, events);
    case Inside(j, i) =>
      QuietJoining(s, s0, events, y);
      QuietDelivered(u, a, i, j, s.mem[y]);
  }

  /** When no processor write arrives during the swap, every line of memory holds the line the
      remapper's exchange puts there. */
  lemma QuietSwapIsExchange(s: State, size: nat, s0: State, events: seq<Event>, u: State, a: Accepts,
                            sets: nat, r: V.Request, h: R.Place)
    requires SwapRun(s, Ask(u.base1, u.base2, size), s0, events, u) && NoWrites(events)
    requires StatusOf(u, a) == Done && Carries(u, sets, r)
    requires Proper(sets, h) && Address(sets, h) < |s.mem|
    ensures Address(sets, R.Swap(r, h)) < |s.mem| == |Operated(u, a).mem|
    ensures Operated(u, a).mem[Address(sets, h)] == s.mem[Address(sets, R.Swap(r, h))]
  {
    SwapIsExchange(s, size, s0, events, u, a, sets, r, h);
    RunLog(s0, events);
    QuietExchanged(s, s0, events, u, a, Address(sets, h), Address(sets, R.Swap(r, h)));
  }
}
