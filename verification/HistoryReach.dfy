/** The example states of the history-based remapper as ends of runs from the first state, in which
    every page is at home and nothing has been counted. */
module HistoryReach {
  import opened HistoryRemap
  import opened HistoryPlanning
  import opened HistoryCompleteness

  ghost predicate Leads(s: State, events: seq<Event>, t: State) {
    Inv(s) && Run(s, events) && StateAfter(s, events) == t
  }

  lemma {:induction false} Joined(s: State, events: seq<Event>, t: State, more: seq<Event>, u: State)
    requires Leads(s, events, t) && Leads(t, more, u)
    ensures Leads(s, events + more, u)
    decreases |events|
  {
    if events == [] {
      assert events + more == more;
    } else {
      StepKeeps(s, events[0]);
      assert (events + more)[1..] == events[1..] + more;
      Joined(Step(s, events[0]).state, events[1..], t, more, u);
    }
  }

  function Accesses(p: nat, n: nat): seq<Event> {
    seq(n, i => Access(p))
  }

  /** What `n` accesses to a page do to the tables. */
  function Accessed(s: State, p: nat, n: nat): State
    requires Sized(s) && p < |s.table|
  {
    if n == 0 then s
    else
      var flag := if s.table[p].flag == 0 then 1 else s.table[p].flag;
      s.(table := s.table[p := s.table[p].(flag := flag)], counter := s.counter[p := s.counter[p] + n])
  }

  lemma {:induction false} AccessesLead(s: State, p: nat, n: nat)
    requires Inv(s) && p < |s.table| && s.counter[p] + n <= COUNTER_MAX
    ensures Leads(s, Accesses(p, n), Accessed(s, p, n))
    decreases n
  {
    if n > 0 {
      AccessKeeps(s, p);
      var t := Tracked(Translated(s, p), p);
      assert t == Accessed(s, p, 1);
      AccessesLead(t, p, n - 1);
      assert Accesses(p, n)[1..] == Accesses(p, n - 1);
      assert Accessed(t, p, n - 1) == Accessed(s, p, n);
    }
  }

  /** A run extended by accesses to one page. */
  lemma Counts(s: State, events: seq<Event>, t: State, p: nat, n: nat, u: State)
    requires Leads(s, events, t) && p < |t.table| && t.counter[p] + n <= COUNTER_MAX && u == Accessed(t, p, n)
    ensures Leads(s, events + Accesses(p, n), u)
  {
    AccessesLead(t, p, n);
    Joined(s, events, t, Accesses(p, n), u);
  }

  // ----- The plan that falls short -------------------------------------------------------------------

  const S1 := State(2, [Mapping(0, 0), Mapping(1, 1), Mapping(2, 0), Mapping(3, 0)], [0, 10, 0, 0], [], 0)
  const S2 := State(2, [Mapping(0, 0), Mapping(1, 1), Mapping(2, 1), Mapping(3, 0)], [0, 10, 2000, 0], [], 0)

  const SHORT_RUN: seq<Event> := [] + Accesses(1, 10) + Accesses(2, 2000) + Accesses(3, 1500)

  /** Accesses alone lead to the state whose plan leaves out a hot page and a cold page. */
  lemma ShortIsReachable()
    ensures Leads(Initial(4, 2), SHORT_RUN, SHORT)
  {
    InitialKeeps(4, 2);
    var s := Initial(4, 2);
    Counts(s, [], s, 1, 10, S1);
    Counts(s, [] + Accesses(1, 10), S1, 2, 2000, S2);
    Counts(s, [] + Accesses(1, 10) + Accesses(2, 2000), S2, 3, 1500, SHORT);
  }

  // ----- The plan made too early -----------------------------------------------------------------------

  const T1 := State(2, [Mapping(0, 1), Mapping(1, 0), Mapping(2, 0)], [1, 0, 0], [], 0)
  const T2 := State(2, [Mapping(0, 1), Mapping(1, 1), Mapping(2, 0)], [1, 1, 0], [], 0)
  const T3 := State(2, [Mapping(0, 1), Mapping(1, 1), Mapping(2, 1)], [1, 1, 1280], [], 0)
  const T4 := State(2, [Mapping(0, 1), Mapping(1, 1), Mapping(2, 1)], [0, 0, 0], [Request(0, 2)], 0)
  const T5 := State(2, [Mapping(0, 1), Mapping(1, 1), Mapping(2, 1)], [100, 0, 0], [Request(0, 2)], 0)

  const BEFORE_EPOCH: seq<Event> := [] + Accesses(0, 1) + Accesses(1, 1) + Accesses(2, 1280)
  const STALE_RUN: seq<Event> := BEFORE_EPOCH + [EndEpoch(RANKS, false)] + Accesses(0, 100) + Accesses(2, 1280)

  lemma BeforeEpoch()
    ensures Leads(Initial(3, 2), BEFORE_EPOCH, T3)
  {
    InitialKeeps(3, 2);
    var s := Initial(3, 2);
    Counts(s, [], s, 0, 1, T1);
    Counts(s, [] + Accesses(0, 1), T1, 1, 1, T2);
    Counts(s, [] + Accesses(0, 1) + Accesses(1, 1), T2, 2, 1280, T3);
  }

  lemma FirstHot(s: State)
    requires s == T3
    ensures Ranking(RANKS, s.counter) && HotList(s, RANKS, HOTNESS, MAX_PAGES) == [2]
  {
    assert RANKS[0] == 2 && RANKS[1] == 0 && RANKS[2] == 1;
    assert Listed(s, RANKS, HOTNESS, MAX_PAGES, 1, 1) == 1;
  }

  lemma FirstPlan(s: State)
    requires s == T3
    ensures Planned(s, [2], [], COLDNESS, false) == s.(queue := [Request(0, 2)])
  {
    assert Skipped(s, [2]) == 0 && [2][1..] == [];
    assert PassFrom(s, [2], [2], [], Untouched, false, 1) == Plan(s, [2]);
    assert Enqueued(s, Request(0, 2)) == s.(queue := [Request(0, 2)]);
  }

  lemma FirstEpoch()
    requires Inv(T3)
    ensures Leads(T3, [EndEpoch(RANKS, false)], T4)
  {
    FirstHot(T3);
    FirstPlan(T3);
    assert Epoch(T3, RANKS, false) == T4;
    StepKeeps(T3, EndEpoch(RANKS, false));
  }

  /** An epoch and more accesses lead to a state in which planning again, before the plan has been
      carried out, stops the program. */
  lemma StaleIsReachable()
    ensures Leads(Initial(3, 2), STALE_RUN, STALE)
  {
    var s := Initial(3, 2);
    BeforeEpoch();
    FirstEpoch();
    Joined(s, BEFORE_EPOCH, T3, [EndEpoch(RANKS, false)], T4);
    Counts(s, BEFORE_EPOCH + [EndEpoch(RANKS, false)], T4, 0, 100, T5);
    Counts(s, BEFORE_EPOCH + [EndEpoch(RANKS, false)] + Accesses(0, 100), T5, 2, 1280, STALE);
  }
}
