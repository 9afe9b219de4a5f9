/** What the counters and flags of the history-based remapper say about a run. */
module HistoryCounts {
  import opened HistoryRemap
  import opened HistoryPlanning

  // ----- Told by the events alone -------------------------------------------------------------------

  /** The end of an epoch and a garbage collection clear the counters. */
  predicate Clears(e: Event) {
    e.EndEpoch? || e.Collect?
  }

  predicate WasCleared(events: seq<Event>) {
    exists i :: 0 <= i < |events| && Clears(events[i])
  }

  predicate Visits(events: seq<Event>, p: nat) {
    exists i :: 0 <= i < |events| && events[i] == Access(p)
  }

  /** How many accesses to the page come after the last event that clears the counters. */
  function Recent(events: seq<Event>, p: nat): nat {
    if events == [] then 0
    else Recent(events[1..], p) + (if events[0] == Access(p) && !WasCleared(events[1..]) then 1 else 0)
  }

  /** A counter of sixteen bits that saturates. */
  function Saturated(n: nat): nat {
    if n < 65535 then n else 65535
  }

  // ----- One event --------------------------------------------------------------------------------------

  /** What an event does to the counter and the flag of a page. */
  predicate Tells(s: State, e: Event, p: nat, t: State) {
    && |t.table| == |t.counter| == |s.table| == |s.counter| && p < |s.table|
    && t.counter[p] == (if Clears(e) then 0 else if e == Access(p) then Saturated(s.counter[p] + 1) else s.counter[p])
    && (e == Access(p) || s.table[p].flag != 0 ==> t.table[p].flag != 0)
    && (t.table[p].flag == 1 ==> s.table[p].flag == 1 || e == Access(p))
  }

  lemma DrainTells(s: State, p: nat)
    requires Inv(s) && p < |s.table|
    ensures Drained(s, 2, false).Running? && Tells(s, Drain, p, Drained(s, 2, false).state)
  {
    DrainTrades(s, 2, false);
    var t := Drained(s, 2, false).state;
    if Named(s.queue, p) {
      var k :| 0 <= k < |s.queue| && (s.queue[k].fm == p || s.queue[k].sm == p);
      assert t.table[p].flag == 2;
    }
  }

  lemma CollectionTells(s: State, unmarked: seq<nat>, order: seq<nat>, p: nat)
    requires Inv(s) && Ranking(order, Forgotten(s, unmarked).counter) && p < |s.table|
    ensures Collection(s, unmarked, order).Running?
    ensures Tells(s, Collect(unmarked, order), p, Collection(s, unmarked, order).state)
  {
    CollectionMoves(s, unmarked, order);
    var t := GcPlanned(s.(queue := []), unmarked, order);
    var u := Collection(s, unmarked, order).state;
    if Named(t.queue, p) {
      var k :| 0 <= k < |t.queue| && (t.queue[k].fm == p || t.queue[k].sm == p);
      assert u.table[p].flag == 3;
    }
  }

  lemma StepTells(s: State, e: Event, p: nat)
    requires Inv(s) && Enabled(s, e) && p < |s.table|
    ensures Step(s, e).Running? && Tells(s, e, p, Step(s, e).state)
  {
    assert PageOk(s, p);
    match e
    case Access(q) =>
    case EndEpoch(order, busy) =>
    case Drain => DrainTells(s, p);
    case Collect(unmarked, order) => CollectionTells(s, unmarked, order, p);
  }

  // ----- Runs ---------------------------------------------------------------------------------------------

  /** What a run from `s` to `t` does to the counter and the flag of a page. */
  predicate TellsRun(s: State, events: seq<Event>, p: nat, t: State) {
    && |t.table| == |t.counter| == |s.table| == |s.counter| && p < |s.table|
    && t.counter[p] == Saturated((if WasCleared(events) then 0 else s.counter[p]) + Recent(events, p))
    && (Visits(events, p) || s.table[p].flag != 0 ==> t.table[p].flag != 0)
    && (t.table[p].flag == 1 ==> s.table[p].flag == 1 || Visits(events, p))
  }

  lemma TellsNext(s: State, events: seq<Event>, p: nat, u: State, t: State)
    requires events != [] && Tells(s, events[0], p, u) && TellsRun(u, events[1..], p, t)
    ensures TellsRun(s, events, p, t)
  {
    HeadTail(events, p);
  }

  lemma {:induction false} CountsAfter(s: State, events: seq<Event>, p: nat)
    requires Inv(s) && Run(s, events) && p < |s.table|
    ensures TellsRun(s, events, p, StateAfter(s, events))
    decreases |events|
  {
    if events == [] {
      assert PageOk(s, p);
    } else {
      StepKeeps(s, events[0]);
      StepTells(s, events[0], p);
      var u := Step(s, events[0]).state;
      CountsAfter(u, events[1..], p);
      TellsNext(s, events, p, u, StateAfter(s, events));
    }
  }

  lemma HeadTail(events: seq<Event>, p: nat)
    requires events != []
    ensures WasCleared(events) <==> Clears(events[0]) || WasCleared(events[1..])
    ensures Visits(events, p) <==> events[0] == Access(p) || Visits(events[1..], p)
  {
    if i :| 1 <= i < |events| && Clears(events[i]) { assert events[1..][i - 1] == events[i]; }
    if i :| 1 <= i < |events| && events[i] == Access(p) { assert events[1..][i - 1] == events[i]; }
    if i :| 0 <= i < |events| - 1 && Clears(events[1..][i]) { assert events[i + 1] == events[1..][i]; }
    if i :| 0 <= i < |events| - 1 && events[1..][i] == Access(p) { assert events[i + 1] == events[1..][i]; }
  }

  /** In every run from the start the counter of a page is the number of accesses to it since the counters
      were last cleared, up to 65535; its flag is not 0 once it was accessed, and is 1 only then. */
  lemma CountsExact(pages: nat, fast: nat, events: seq<Event>, p: nat)
    requires fast <= pages && Inv(Initial(pages, fast)) && Run(Initial(pages, fast), events) && p < pages
    ensures var t := StateAfter(Initial(pages, fast), events);
      && p < |t.table| == |t.counter|
      && t.counter[p] == (if Recent(events, p) < 65535 then Recent(events, p) else 65535)
      && (Visits(events, p) ==> t.table[p].flag != 0) && (t.table[p].flag == 1 ==> Visits(events, p))
  {
    CountsAfter(Initial(pages, fast), events, p);
  }
}
