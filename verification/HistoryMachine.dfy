/** The history-based remapper as an object whose tables and queues are updated in place. Every
    method is proved against the functions of HistoryRemap. */
module HistoryMachine {
  import opened HistoryRemap
  import opened HistoryPlanning

  class PageRemapper {
    const fast: nat
    const table: array<Mapping>
    const counter: array<nat>
    const hotness: array<bool> // all false between operations
    const gcHotness: array<bool>
    var queue: seq<Request>
    var congestion: nat

    ghost predicate Valid()
      reads this, table, counter, hotness, gcHotness
    {
      && counter.Length == hotness.Length == gcHotness.Length == table.Length && fast <= table.Length
      && hotness != gcHotness
      && Cold(hotness) && Cold(gcHotness)
    }

    static ghost predicate Cold(hot: array<bool>)
      reads hot
    {
      forall p :: 0 <= p < hot.Length ==> !hot[p]
    }

    ghost function View(): State
      reads this, table, counter
    {
      State(fast, table[..], counter[..], queue, congestion)
    }

    constructor (pages: nat, fast: nat)
      requires fast <= pages
      ensures fresh(table) && fresh(counter) && fresh(hotness) && fresh(gcHotness)
      ensures Valid() && View() == Initial(pages, fast) && Inv(View())
    {
      this.fast := fast;
      table := new Mapping[pages](i requires 0 <= i => Mapping(i, 0));
      counter := new nat[pages](i => 0);
      hotness := new bool[pages](i => false);
      gcHotness := new bool[pages](i => false);
      queue, congestion := [], 0;
      new;
      assert View() == Initial(pages, fast);
      InitialKeeps(pages, fast);
    }

    method PhysicalToHardware(p: nat) returns (frame: nat)
      requires Valid() && p < table.Length
      modifies table
      ensures Valid() && View() == Translated(old(View()), p) && frame == old(table[p].frame)
    {
      frame := table[p].frame;
      if table[p].flag == 0 {
        table[p] := table[p].(flag := 1);
      }
    }

    method TrackActivity(p: nat) returns (ok: bool)
      requires Valid()
      modifies counter
      ensures Valid() && View() == Tracked(old(View()), p) && ok == (p < table.Length)
    {
      if p >= table.Length {
        return false;
      }
      if counter[p] < COUNTER_MAX {
        counter[p] := counter[p] + 1;
      }
      return true;
    }

    /** Lists the hot pages and marks them in the given table. */
    method ChooseHotPages(order: seq<nat>, threshold: nat, cap: nat, hot: array<bool>) returns (list: seq<nat>)
      requires Valid() && hot.Length == table.Length && Cold(hot)
      requires Ranking(order, counter[..])
      modifies hot
      ensures list == HotList(View(), order, threshold, cap)
      ensures forall p: nat :: p < hot.Length ==> (hot[p] <==> p in list)
    {
      list := [];
      var slow := 0;
      ghost var s := View();
      for i := 0 to fast
        invariant View() == s && list == order[..i]
        invariant Listed(s, order, threshold, cap, i, slow) == Listed(s, order, threshold, cap, 0, 0)
        invariant forall p: nat :: p < hot.Length ==> (hot[p] <==> p in list)
      {
        assert i + 1 < |order| ==> counter[..][order[i]] >= counter[..][order[i + 1]]; // the program's own check
        if counter[order[i]] < threshold {
          return;
        }
        hot[order[i]] := true;
        list := list + [order[i]];
        if table[order[i]].frame >= fast {
          slow := slow + 1;
          if slow > cap {
            return;
          }
        }
      }
    }

    method EnqueueRequest(r: Request) returns (added: bool)
      modifies this`queue, this`congestion
      ensures View() == Enqueued(old(View()), r) && added == !Names(old(queue), r.fm)
    {
      for i := 0 to |queue|
        invariant !Names(queue[..i], r.fm)
      {
        if queue[i].fm == r.fm {
          return false;
        }
        assert queue[..i + 1] == queue[..i] + [queue[i]];
      }
      assert queue[..|queue|] == queue;
      if |queue| < QUEUE_LENGTH {
        queue := queue + [r];
      } else {
        congestion := congestion + 1;
      }
      return true;
    }

    /** Drops pages that are in fast memory from the head of a list. */
    method PopFast(list: seq<nat>) returns (rest: seq<nat>)
      requires Sized(View()) && Pages(View(), list)
      ensures rest == list[Skipped(View(), list)..]
    {
      rest := list;
      while rest != [] && table[rest[0]].frame < fast
        invariant |rest| <= |list| && rest == list[|list| - |rest|..]
        invariant Skipped(View(), list) == |list| - |rest| + Skipped(View(), rest)
      {
        rest := rest[1..];
      }
    }

    static predicate Wanted(m: Mapping, count: nat, pass: Pass) {
      match pass
      case Untouched => m.flag == 0
      case Cold(limit) => count < limit
    }

    method PlanPass(list: seq<nat>, hot: array<bool>, ghost all: seq<nat>, spared: seq<nat>, pass: Pass, busy: bool)
      returns (rest: seq<nat>)
      requires Sized(View()) && hot.Length == table.Length && Pages(View(), list)
      requires forall p: nat :: p < hot.Length ==> (hot[p] <==> p in all)
      modifies this`queue, this`congestion
      ensures Plan(View(), rest) == PassFrom(old(View()), all, list, spared, pass, busy, 0)
    {
      rest := list;
      ghost var s := View();
      for p := 0 to table.Length
        invariant Sized(View()) && Pages(View(), rest)
        invariant PassFrom(View(), all, rest, spared, pass, busy, p) == PassFrom(s, all, list, spared, pass, busy, 0)
      {
        if rest == [] {
          return;
        }
        if !hot[p] && p !in spared && Wanted(table[p], counter[p], pass) && table[p].frame < fast {
          assert Candidate(View(), all, spared, pass, p);
          rest := PopFast(rest);
          if rest == [] {
            return;
          }
          var h := rest[0];
          rest := rest[1..];
          if busy {
            return;
          }
          var added := EnqueueRequest(Request(p, h));
        }
      }
    }

    method ClearHotness(hot: array<bool>)
      modifies hot
      ensures Cold(hot)
    {
      for i := 0 to hot.Length
        invariant forall p :: 0 <= p < i ==> !hot[p]
      {
        hot[i] := false;
      }
    }

    method ClearCounters()
      requires Valid()
      modifies counter
      ensures Valid() && View() == old(View()).(counter := seq(counter.Length, i => 0))
    {
      ghost var s := View();
      for i := 0 to counter.Length
        invariant View() == s.(counter := counter[..]) && Valid()
        invariant forall p :: 0 <= p < i ==> counter[p] == 0
      {
        counter[i] := 0;
      }
      assert counter[..] == seq(counter.Length, i => 0);
    }

    /** The end of an epoch; the invariant presumes that the last plan has been carried out. */
    method EndEpoch(order: seq<nat>, busy: bool)
      requires Valid() && Inv(View()) && Ranking(order, counter[..])
      modifies this`queue, this`congestion, counter, hotness
      ensures Valid() && View() == Epoch(old(View()), order, busy)
      ensures old(queue) == [] ==> Inv(View())
    {
      if queue == [] { EpochKeeps(View(), order, busy); }
      HotListExact(View(), order, HOTNESS, MAX_PAGES);
      var list := ChooseHotPages(order, HOTNESS, MAX_PAGES, hotness);
      PlanMarked(list, hotness, [], COLDNESS, busy);
      ClearHotness(hotness);
      ClearCounters();
    }

    /** Plans with one table of marks in use. */
    method PlanMarked(list: seq<nat>, hot: array<bool>, spared: seq<nat>, limit: nat, busy: bool)
      requires Sized(View()) && hot.Length == table.Length && Pages(View(), list)
      requires forall p: nat :: p < hot.Length ==> (hot[p] <==> p in list)
      modifies this`queue, this`congestion
      ensures View() == Planned(old(View()), list, spared, limit, busy)
    {
      var rest := PlanPass(list, hot, list, spared, Untouched, busy);
      rest := PlanPass(rest, hot, list, spared, Pass.Cold(limit), busy);
    }

    /** Carries out the head request; false where the program stops with an error. */
    method FinishRequest() returns (ok: bool)
      modifies this`queue, table
      ensures ok == Finished(old(View())).Running?
      ensures ok ==> View() == Finished(old(View())).state
    {
      if queue == [] {
        return false;
      }
      var r := queue[0];
      if r.fm >= table.Length || r.sm >= table.Length {
        return false;
      }
      queue := queue[1..];
      if table[r.fm].frame >= fast || table[r.sm].frame < fast || r.fm == r.sm {
        return false;
      }
      table[r.fm], table[r.sm] := table[r.sm], table[r.fm];
      return true;
    }

    /** Carries out the whole queue; false where the program stops with an error. */
    method MigrateAll(mark: nat, refuse: bool) returns (ok: bool)
      modifies this`queue, table
      ensures ok == Drained(old(View()), mark, refuse).Running?
      ensures ok ==> View() == Drained(old(View()), mark, refuse).state
    {
      ghost var s := View();
      while queue != []
        invariant Drained(View(), mark, refuse) == Drained(s, mark, refuse)
        decreases |queue|
      {
        var r := queue[0];
        if r.fm >= table.Length || r.sm >= table.Length {
          return false;
        }
        if refuse && table[r.fm].flag == 0 && table[r.sm].flag == 0 {
          return false;
        }
        ghost var before := View();
        table[r.fm] := table[r.fm].(flag := mark);
        table[r.sm] := table[r.sm].(flag := mark);
        assert View() == Marked(before, r, mark);
        var finished := FinishRequest();
        if !finished {
          return false;
        }
      }
      return true;
    }

    /** The epoch's plan is carried out; the program's error exits are not reached. */
    method MigrationAllStart()
      requires Valid() && Inv(View())
      modifies this`queue, table
      ensures Valid() && Running(View()) == Drained(old(View()), 2, false) && Inv(View())
      ensures Traded(old(View()), old(queue), 2, View())
    {
      DrainKeeps(View(), 2, false);
      DrainTrades(View(), 2, false);
      var ok := MigrateAll(2, false);
      assert ok;
    }

    method ForgetPages(unmarked: seq<nat>)
      requires Valid() && Pages(View(), unmarked)
      modifies counter
      ensures Valid() && View() == Forgotten(old(View()), unmarked)
    {
      ghost var s := View();
      for i := 0 to |unmarked|
        invariant View() == s.(counter := counter[..]) && Valid()
        invariant forall p :: 0 <= p < counter.Length ==>
          counter[p] == if p in unmarked[..i] then 0 else s.counter[p]
      {
        counter[unmarked[i]] := 0;
        assert unmarked[..i + 1] == unmarked[..i] + [unmarked[i]];
      }
      assert unmarked[..|unmarked|] == unmarked;
      assert counter[..] == Forgotten(s, unmarked).counter;
    }

    /** A garbage collection: the epoch's plan is dropped, the collection's is made and carried out at
        once, and the counters are cleared. */
    method CollectGarbage(unmarked: seq<nat>, order: seq<nat>)
      requires Valid() && Inv(View()) && Pages(View(), unmarked)
      requires Ranking(order, Forgotten(View(), unmarked).counter)
      modifies this`queue, this`congestion, table, counter, gcHotness
      ensures Valid() && Running(View()) == Collection(old(View()), unmarked, order) && Inv(View()) && queue == []
    {
      CollectionKeeps(View(), unmarked, order);
      DroppedKeeps(View());
      assert Forgotten(View().(queue := []), unmarked).counter == Forgotten(View(), unmarked).counter;
      queue := [];
      MigrateMarked(unmarked, order);
      ClearCounters();
    }

    method MigrateMarked(unmarked: seq<nat>, order: seq<nat>)
      requires Valid() && Inv(View()) && queue == [] && Pages(View(), unmarked)
      requires Ranking(order, Forgotten(View(), unmarked).counter)
      modifies this`queue, this`congestion, table, counter, gcHotness
      ensures Valid() && Running(View()) == Gc(old(View()), unmarked, order)
    {
      GcKeeps(View(), unmarked, order);
      ForgottenKeeps(View(), unmarked);
      ForgetPages(unmarked);
      HotListExact(View(), order, GC_HOTNESS, GC_MAX_PAGES);
      var list := ChooseHotPages(order, GC_HOTNESS, GC_MAX_PAGES, gcHotness);
      PlanMarked(list, gcHotness, unmarked, GC_COLDNESS, false);
      var ok := MigrateAll(3, true);
      assert ok;
      ClearHotness(gcHotness);
    }
  }
}
