/** A store that goes to another line than the one it names, at the end of a run of the whole machine
    from the state in which it is built. While the line trades places with another one, the tables
    still give its old place, for which the buffer already answers with the other line. */
module StrayStores {
  import P = PlacementEntry
  import M = MigrationPlan
  import V = VariableGranularity
  import R = PlacementRuns
  import F = PlacementFailures
  import U = SwappingUnit
  import I = SwappingInvariants
  import S = SwappingRuns
  import L = SwappingValues
  import X = MemoryExchange
  import opened HybridMemory

  ghost predicate Leads(s: System, events: seq<Event>, t: System) {
    Inv(s) && Run(s, events) && StateAfter(s, events) == t
  }

  /** One event before a run. */
  lemma LeadsOn(s: System, e: Event, u: System, events: seq<Event>, t: System)
    requires Inv(s) && Enabled(s, e) && Step(s, e) == u && Leads(u, events, t)
    ensures Leads(s, [e] + events, t)
  {
    assert ([e] + events)[1..] == events;
  }

  // ----- Two cycles and the answers --------------------------------------------------------------------

  /** The first round of a swap sends its reads and completes nothing. */
  lemma FirstRound(u: U.State)
    requires I.Inv(u) && u.swapping && u.active == 1 && u.buffer[0] == U.EMPTY_ENTRY
    ensures var t := U.Operated(u, S.OPEN); t.swapping && |t.buffer| == U.ENTRIES && S.Issued(t.buffer[0])
  {
    S.AllIssued(u, 1);
    var r := U.ReadPhase(u, 1, S.OPEN);
    assert r == U.EntryReads(u, 0, S.OPEN) by { assert U.ReadPhase(u, 0, S.OPEN) == u; }
    assert r.finished == U.SendRead(u, 0, 1, true).finished == u.finished;
    assert r.buffer[0] == U.Entry(false, U.EMPTY_CELL.(issued := true), U.EMPTY_CELL.(issued := true)) by {
      assert U.ReadPhase(u, 0, S.OPEN) == u;
    }
    assert U.WritePhase(r, 0, S.OPEN) == r;
    assert U.WritePhase(r, 1, S.OPEN) == r;
    assert I.FinishCount(u.buffer, 1) == 0;
  }

  /** All answers come in; no line changes. */
  lemma {:induction false} Answered(s: System, p: R.Place, q: R.Place) returns (events: seq<Event>, t: System)
    requires Inv(s) && Physical(s, p) && Physical(s, q)
    ensures Leads(s, events, t) && t.tables == s.tables && t.unit == S.Drained(s.unit)
    ensures Holds(t, p) == Holds(s, p) && Holds(t, q) == Holds(s, q)
    decreases |s.unit.flights|
  {
    if s.unit.flights == [] {
      events, t := [], s;
    } else {
      var u := Step(s, Answer(0));
      StepHolds(s, Answer(0), p);
      StepHolds(s, Answer(0), q);
      var rest;
      rest, t := Answered(u, p, q);
      LeadsOn(s, Answer(0), u, rest, t);
      events := [Answer(0)] + rest;
    }
  }

  // ----- The run -----------------------------------------------------------------------------------------

  /** One set of four pages; line 0 of page 1, and line 0 of the fast page. */
  const MINE := R.Place(0, P.Line(1, 0))
  const OTHER := R.Place(0, P.Line(0, 0))
  const REQUEST := V.Request(0, 0, 1, 0, 0, 1, 1)

  predicate Small(s: System) {
    && s.tables.sets == 1 && |s.tables.counter| == 4 && s.tables.placement == [[]]
    && s.tables.queue == [REQUEST]
  }

  lemma Tracked(v: V.State, t: V.State)
    requires v == F.Start() && t == V.Track(v, 1, 0, false)
    ensures t.queue == [REQUEST] && t.placement == [[]]
  {
    var on: seq<set<nat>> := [{}, {}, {}, {}];
    assert F.Snap(v, [], on, true);
    M.WalkWithoutGroups([], 1, 0, 0, 0, false);
    F.AccessQueues(v, [], on, true, 1, 0, 0, 0, 0, 1, t);
  }

  /** The access to line 0 of page 1 queues its move. */
  lemma Asks(mem: seq<U.Data>) returns (s: System)
    requires |mem| == 4 * P.LINES
    ensures Inv(Initial(mem, 1, 1)) && Step(Initial(mem, 1, 1), Access(1, 0, false)) == s && Inv(s) && Small(s)
    ensures s.unit == S.Initial(mem, P.LINES) && Holds(s, MINE) == mem[64] && Holds(s, OTHER) == mem[0]
  {
    var s0 := Initial(mem, 1, 1);
    InitialHolds(mem, 1, 1, MINE);
    InitialHolds(mem, 1, 1, OTHER);
    Tracked(s0.tables, V.Track(s0.tables, 1, 0, false));
    StepHolds(s0, Access(1, 0, false), MINE);
    StepHolds(s0, Access(1, 0, false), OTHER);
    s := Step(s0, Access(1, 0, false));
  }

  /** A cycle that ends no swap. */
  lemma Cycles(s: System) returns (t: System)
    requires Inv(s) && Small(s) && !Ends(s, S.OPEN)
    ensures t == Step(s, Operate(S.OPEN)) && Inv(t) && Small(t) && S.AskOk(s.unit, AskOf(s))
    ensures t.unit == S.Rounded(s.unit, S.OPEN, AskOf(s))
    ensures Holds(t, MINE) == Holds(s, MINE) && Holds(t, OTHER) == Holds(s, OTHER)
  {
    AskFitsAll(s);
    StepHolds(s, Operate(S.OPEN), MINE);
    StepHolds(s, Operate(S.OPEN), OTHER);
    V.TickKeeps(s.tables);
    t := Step(s, Operate(S.OPEN));
  }

  lemma Begun(s: System) returns (t: System)
    requires Inv(s) && Small(s) && !s.unit.swapping && s.unit.buffer == seq(U.ENTRIES, i => U.EMPTY_ENTRY)
    ensures t == Step(s, Operate(S.OPEN)) && Inv(t)
    ensures Small(t) && t.unit.swapping && t.unit.active == 1 && t.unit.buffer[0] == U.EMPTY_ENTRY
    ensures Holds(t, MINE) == Holds(s, MINE) && Holds(t, OTHER) == Holds(s, OTHER)
  {
    t := Cycles(s);
  }

  lemma Sent(s: System) returns (t: System)
    requires Inv(s) && Small(s) && s.unit.swapping && s.unit.active == 1 && s.unit.buffer[0] == U.EMPTY_ENTRY
    ensures t == Step(s, Operate(S.OPEN)) && Inv(t)
    ensures Small(t) && t.unit.swapping && t.unit.active == 1 && S.Issued(t.unit.buffer[0])
    ensures Holds(t, MINE) == Holds(s, MINE) && Holds(t, OTHER) == Holds(s, OTHER)
  {
    FirstRound(s.unit);
    AskFitsAll(s);
    I.OperatedKeeps(s.unit, S.OPEN);
    t := Cycles(s);
    S.RoundedGrows(s.unit, S.OPEN, AskOf(s), U.Operated(s.unit, S.OPEN));
  }

  /** While line 0 of page 1 trades places with line 0 of the fast page, a load of the former is answered
      with the latter's word, and a store to the former goes to the latter. */
  lemma StoreStrays(mem: seq<U.Data>, word: int) returns (events: seq<Event>, s: System)
    requires |mem| == 4 * P.LINES
    ensures Leads(Initial(mem, 1, 1), events, s) && Physical(s, MINE) && Physical(s, OTHER)
    ensures Holds(s, MINE) == mem[64] && Holds(s, OTHER) == mem[0]
    ensures U.CheckRead(s.unit, Home(s, MINE)) == U.FromBuffer(mem[0].word)
    ensures var t := Step(s, Store(MINE, word, true));
      Holds(t, MINE) == mem[64] && Holds(t, OTHER) == mem[0].(word := word)
  {
    var s0 := Initial(mem, 1, 1);
    var s1 := Asks(mem);
    var s2 := Begun(s1);
    var s3 := Sent(s2);
    events, s := Answered(s3, MINE, OTHER);
    LeadsOn(s2, Operate(S.OPEN), s3, events, s);
    events := [Operate(S.OPEN)] + events;
    LeadsOn(s1, Operate(S.OPEN), s2, events, s);
    events := [Operate(S.OPEN)] + events;
    LeadsOn(s0, Access(1, 0, false), s1, events, s);
    events := [Access(1, 0, false)] + events;
    Strays(s, word);
  }

  lemma Strays(s: System, word: int)
    requires Inv(s) && Small(s) && s.unit.swapping && s.unit.active == 1
    requires s.unit.flights == [] && S.Issued(s.unit.buffer[0])
    ensures U.CheckRead(s.unit, Home(s, MINE)) == U.FromBuffer(Holds(s, OTHER).word)
    ensures var t := Step(s, Store(MINE, word, true));
      Holds(t, MINE) == Holds(s, MINE) && Holds(t, OTHER) == Holds(s, OTHER).(word := word)
  {
    S.NoReadLost(s.unit, 0);
    assert Home(s, MINE) == 64 && Home(s, OTHER) == 0;
    assert s.unit.base1 == 0 && s.unit.base2 == 64;
    assert U.Locate(s.unit, 64) == U.Inside(2, 0);
    LoadShows(s, MINE, OTHER);
    StepHolds(s, Store(MINE, word, true), MINE);
    StepHolds(s, Store(MINE, word, true), OTHER);
  }
}
