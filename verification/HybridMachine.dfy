/** The memory controller that owns the remapper and the swapping unit, as objects that are updated in
    place. Every method is proved against the functions of HybridMemory. */
module HybridMachine {
  import P = PlacementEntry
  import V = VariableGranularity
  import R = PlacementRuns
  import U = SwappingUnit
  import S = SwappingRuns
  import W = SwappingMachine
  import opened HybridMemory

  class MemoryController {
    const remapper: V.Remapper
    const swapper: W.Swapper

    ghost function View(): System
      reads remapper, swapper, swapper.buffer
    {
      System(remapper.View(), swapper.View())
    }

    constructor (mem: seq<U.Data>, sets: nat, threshold: nat)
      requires 0 < sets && |mem| % P.LINES == 0 && sets <= |mem| / P.LINES <= V.PAGES_PER_SET * sets
      ensures fresh(remapper) && fresh(swapper) && fresh(swapper.buffer)
      ensures View() == Initial(mem, sets, threshold) && Inv(View())
    {
      remapper := new V.Remapper(|mem| / P.LINES, sets, threshold);
      swapper := new W.Swapper(mem, sets * P.LINES);
      new;
      InitialHolds(mem, sets, threshold, R.Place(0, P.Line(0, 0)));
    }

    /** The request at the head of the queue, if there is one, in hardware addresses. */
    method NextRequest() returns (ask: S.Ask)
      requires Inv(View())
      ensures ask == AskOf(View())
    {
      var some, r := remapper.IssueRemappingRequest();
      if some {
        ask := S.Ask(FastLine(r), SlowLine(r), r.size);
      } else {
        ask := S.NoAsk;
      }
    }

    function FastLine(r: V.Request): nat {
      r.index * P.LINES + r.fast
    }

    function SlowLine(r: V.Request): nat {
      (R.SlowPage(r) * remapper.sets + r.index) * P.LINES + r.slow
    }

    /** One cycle: cooling, a round of the unit with the switch behind it, and the tables when a swap
        has ended. */
    method Operate(a: U.Accepts)
      requires Inv(View())
      modifies remapper, swapper, swapper.buffer
      ensures View() == Operated(old(View()), a) && Inv(View())
    {
      OperatedKeeps(View(), a);
      AskFitsAll(View());
      RoundEnds(View(), a);
      V.TickKeeps(remapper.View());
      var ask := NextRequest();
      remapper.ColdDataDetection();
      var ended := swapper.Operate(a, ask);
      if ended {
        var finished := remapper.FinishRemappingRequest();
        assert finished;
      }
    }

    /** The memory answers the unit's `k`-th read on its way. */
    method ReturnData(k: nat)
      requires Inv(View()) && k < |swapper.flights|
      modifies swapper, swapper.buffer
      ensures Inv(old(View())) && k < |old(View()).unit.flights|
      ensures View() == Step(old(View()), Answer(k))
    {
      swapper.ReturnSwappingData(k);
    }

    method Translate(p: R.Place) returns (x: nat)
      requires Inv(View()) && Physical(View(), p)
      ensures x == Home(View(), p)
    {
      HomeFits(View(), p);
      var h := remapper.PhysicalToHardware(V.Address(p.line.tag, p.index, p.line.line, 0));
      x := (h.tag * remapper.sets + h.index) * P.LINES + h.line;
    }

    method Track(p: R.Place, busy: bool)
      requires Inv(View()) && Physical(View(), p)
      modifies remapper
      ensures Inv(old(View())) && Physical(old(View()), p)
      ensures View() == Tracked(old(View()), p, busy) && Inv(View()) && Physical(View(), p)
      ensures Home(View(), p) == old(Home(View(), p))
    {
      var block := p.line.tag * remapper.sets + p.index;
      AccessKeeps(View(), block, p.line.line, busy);
      var tracked := remapper.MemoryActivityTracking(block, p.line.line, busy);
    }

    /** A processor write: translate, track, and send it unless the unit takes it or holds it back. */
    method AddWrite(p: R.Place, word: int, ok: bool, busy: bool) returns (accepted: bool)
      requires Inv(View()) && Physical(View(), p)
      modifies remapper, swapper, swapper.buffer
      ensures Inv(old(View())) && Physical(old(View()), p)
      ensures var t := Tracked(old(View()), p, busy);
        Inv(t) && Physical(t, p) && View() == Step(t, Store(p, word, ok)) && Inv(View())
    {
      var x := Translate(p);
      Track(p, busy);
      HomeFits(View(), p);
      accepted := swapper.AddWriteRequest(x, word, ok);
    }
  }

  /** The access that comes with a request for a physical line. */
  ghost function Tracked(s: System, p: R.Place, busy: bool): System
    requires Inv(s) && Physical(s, p)
  {
    Step(s, Access(V.Block(s.tables.sets, p.line.tag, p.index), p.line.line, busy))
  }

  lemma RoundEnds(s: System, a: U.Accepts)
    requires Inv(s)
    ensures S.AskOk(s.unit, AskOf(s)) && (Ends(s, a) ==> s.tables.queue != [])
    ensures Ends(s, a) <==> s.unit.swapping && !S.Rounded(s.unit, a, AskOf(s)).swapping
  {
    UnitServes(s, a);
  }
}
