/** Whole swaps: what they leave in memory, and that they end. */
module SwappingRuns {
  import opened SwappingUnit
  import opened SwappingInvariants

  // ----- Rounds and runs ---------------------------------------------------------------------------

  /** The request at the head of the remapping queue. */
  datatype Ask = NoAsk | Ask(base1: nat, base2: nat, size: nat)

  datatype Event =
    | Round(a: Accepts, ask: Ask)
    | Return(k: nat)
    | Write(addr: nat, word: int, ok: bool)

  /** A request names segments of the two memories; a busy unit's request is still queued. */
  predicate AskOk(s: State, ask: Ask) {
    && (ask.Ask? ==> Segments(s, ask.base1, ask.base2, ask.size))
    && (s.swapping ==> ask.Ask?)
  }

  predicate Enabled(s: State, e: Event) {
    match e
    case Round(_, ask) => AskOk(s, ask)
    case Return(k) => k < |s.flights|
    case Write(addr, _, _) => addr < |s.mem|
  }

  /** One cycle: the unit operates, then starts, grows or ends a swap. */
  function Rounded(s: State, a: Accepts, ask: Ask): (t: State)
    requires Inv(s) && AskOk(s, ask)
    ensures Inv(t) && |t.mem| == |s.mem| && t.fast == s.fast
  {
    OperatedKeeps(s, a);
    var t := Operated(s, a);
    match StatusOf(s, a)
    case Idle =>
      if ask.NoAsk? then t else
      StartKeeps(t, ask.base1, ask.base2, ask.size);
      Start(t, ask.base1, ask.base2, ask.size)
    case Busy =>
      UpdateKeeps(t, ask.base1, ask.base2, ask.size);
      Update(t, ask.base1, ask.base2, ask.size)
    case Done =>
      if Grows(t, ask.base1, ask.base2, ask.size) then
        UpdateKeeps(t, ask.base1, ask.base2, ask.size);
        Update(t, ask.base1, ask.base2, ask.size)
      else
        DoneIsQuiet(s, a);
        Reset(t)
  }

  function Step(s: State, e: Event): (t: State)
    requires Inv(s) && Enabled(s, e)
    ensures Inv(t) && |t.mem| == |s.mem| && t.fast == s.fast
  {
    match e
    case Round(a, ask) => Rounded(s, a, ask)
    case Return(k) =>
      ReturnedKeeps(s, k);
      Returned(s, k)
    case Write(addr, word, ok) =>
      WrittenKeeps(s, addr, word, ok);
      Written(s, addr, word, ok)
  }

  ghost predicate Run(s: State, events: seq<Event>)
    requires Inv(s)
    decreases |events|
  {
    events == [] || (Enabled(s, events[0]) && Run(Step(s, events[0]), events[1..]))
  }

  ghost function StateAfter(s: State, events: seq<Event>): (t: State)
    requires Inv(s) && Run(s, events)
    ensures Inv(t) && |t.mem| == |s.mem| && t.fast == s.fast
    decreases |events|
  {
    if events == [] then s else StateAfter(Step(s, events[0]), events[1..])
  }

  /** The unit as it is built, over any memory. */
  function Initial(mem: seq<Data>, fast: nat): (s: State)
    requires fast <= |mem|
    ensures Inv(s)
  {
    State(mem, fast, seq(ENTRIES, i => EMPTY_ENTRY), 0, 0, 0, 0, false, [], [], [], [])
  }

  // ----- Completion -------------------------------------------------------------------------------------

  /** What memory holds for one side of a finished entry: the line with every write absorbed up to its
      last write-back. It is up to date when no later write was absorbed. */
  lemma SideCompletes(t: State, i: nat, j: nat)
    requires Ok(t) && i < t.active && Seg(j) && t.buffer[i].finish
    ensures var c := Side(t.buffer[i], j);
            var other := Orig(t, Other(j))[i];
            var m := t.mem[Base(t, j) + i];
            && c.flushed <= |t.log|
            && m == Want(other, t.log, i, j, c.flushed)
            && (c.dirty <==> Touched(t.log, i, j, c.flushed))
            && m.rest == other.rest
            && c.data == Want(other, t.log, i, j, |t.log|)
            && (!c.dirty ==> m == Want(other, t.log, i, j, |t.log|))
  {
    assert EntryOk(t, i) && SideOk(t, i, j) && SideOk(t, i, Other(j));
    var c := Side(t.buffer[i], j);
    var other := Orig(t, Other(j))[i];
    WantRest(other, t.log, i, j, c.flushed);
    if !c.dirty { WantSettled(other, t.log, i, j, c.flushed, |t.log|); }
  }

  /** When a swap completes no answer is outstanding. */
  lemma DoneIsQuiet(s: State, a: Accepts)
    requires Inv(s) && StatusOf(s, a) == Done
    ensures SizesOk(Operated(s, a)) && Operated(s, a).flights == []
    ensures forall i :: 0 <= i < s.active ==> Operated(s, a).buffer[i].finish
  {
    OperatedKeeps(s, a);
    var t := Operated(s, a);
    CountAll(t.buffer, s.active);
    forall i | 0 <= i < t.active ensures BothRead(t.buffer[i]) {
      assert EntryOk(t, i) && SideOk(t, i, 1) && SideOk(t, i, 2);
    }
    NoFlights(t);
  }

  /** A round ends the swap exactly when it leaves every entry finished. */
  lemma DoneExact(s: State, a: Accepts)
    requires Inv(s) && s.swapping
    ensures SizesOk(Operated(s, a)) && Operated(s, a).active == s.active
    ensures StatusOf(s, a) == Done <==> forall i :: 0 <= i < s.active ==> Operated(s, a).buffer[i].finish
  {
    OperatedKeeps(s, a);
    if StatusOf(s, a) == Done {
      DoneIsQuiet(s, a);
    } else if forall i :: 0 <= i < s.active ==> Operated(s, a).buffer[i].finish {
      AllCount(Operated(s, a).buffer, s.active);
    }
  }

  lemma {:induction false} AllCount(b: seq<Entry>, n: nat)
    requires n <= |b| && forall i :: 0 <= i < n ==> b[i].finish
    ensures FinishCount(b, n) == n
  {
    if n > 0 { AllCount(b, n - 1); }
  }

  /** What a cycle makes of a request: an idle unit takes it, a swap of the same segments grows with it
      even when it has just ended, and any other swap goes on until every entry is finished. */
  lemma RoundTakes(s: State, a: Accepts, ask: Ask)
    requires Inv(s) && AskOk(s, ask) && ask.Ask?
    ensures var t := Rounded(s, a, ask);
      var grows := ask.base1 == s.base1 && ask.base2 == s.base2 && ask.size > s.active;
      && (!s.swapping ==>
            t.swapping && t.base1 == ask.base1 && t.base2 == ask.base2 && t.active == ask.size && t.mem == s.mem)
      && (s.swapping ==>
            && SizesOk(Operated(s, a)) && Operated(s, a).active == s.active
            && (t.swapping <==> grows || exists i :: 0 <= i < s.active && !Operated(s, a).buffer[i].finish)
            && (t.swapping ==> t.base1 == s.base1 && t.base2 == s.base2)
            && (t.swapping ==> t.active == if grows then ask.size else s.active))
  {
    if s.swapping {
      OperatedKeeps(s, a);
      DoneExact(s, a);
    }
  }

  /** The word last absorbed for the line does not reach memory in this round: it differs from the one
      there, and the entry is taken for finished already or the memory refuses the write-back. */
  predicate LeftBehind(s: State, a: Accepts, i: nat, j: nat)
    requires SizesOk(s) && i < s.active && Seg(j)
  {
    var e := s.buffer[i];
    var c := Side(e, j);
    c.dirty && (e.finish || !a.write(i, j)) && c.data.word != s.mem[Base(s, j) + i].word
  }

  predicate SameButIssued(e: Entry, f: Entry) {
    && f.finish == e.finish
    && f.one == e.one.(issued := f.one.issued)
    && f.two == e.two.(issued := f.two.issued)
  }

  lemma SendReadAt(s: State, k: nat, j: nat, ok: bool, i: nat)
    requires SizesOk(s) && k < s.active && Seg(j) && i < s.active
    ensures SameButIssued(s.buffer[i], SendRead(s, k, j, ok).buffer[i])
  {
  }

  lemma EntryReadsAt(s: State, k: nat, a: Accepts, i: nat)
    requires SizesOk(s) && k < s.active && i < s.active
    ensures SameButIssued(s.buffer[i], EntryReads(s, k, a).buffer[i])
  {
    if !s.buffer[k].finish {
      var t := SendRead(s, k, 1, a.read(k, 1));
      SendReadAt(s, k, 1, a.read(k, 1), i);
      SendReadAt(t, k, 2, a.read(k, 2), i);
    }
  }

  lemma {:induction false} ReadPhaseAt(s: State, n: nat, a: Accepts, i: nat)
    requires SizesOk(s) && n <= s.active && i < s.active
    ensures SameButIssued(s.buffer[i], ReadPhase(s, n, a).buffer[i])
  {
    if n > 0 {
      ReadPhaseAt(s, n - 1, a, i);
      EntryReadsAt(ReadPhase(s, n - 1, a), n - 1, a, i);
    }
  }

  /** The write-back of line `i` of segment `j` is sent and accepted. */
  predicate WritesBack(s: State, a: Accepts, i: nat, j: nat)
    requires SizesOk(s) && i < s.active && Seg(j)
  {
    var e := s.buffer[i];
    !e.finish && BothRead(e) && (!Side(e, j).write || Side(e, j).dirty) && a.write(i, j)
  }

  /** What the write phase makes of line `i` of segment `j`. */
  predicate LineWritten(s: State, t: State, a: Accepts, i: nat, j: nat)
    requires SizesOk(s) && SizesOk(t) && SameSwap(s, t) && i < s.active && Seg(j)
  {
    var c, d := Side(s.buffer[i], j), Side(t.buffer[i], j);
    && d.data == c.data
    && d.dirty == (c.dirty && !WritesBack(s, a, i, j))
    && t.mem[Base(s, j) + i] == (if WritesBack(s, a, i, j) then c.data else s.mem[Base(s, j) + i])
  }

  predicate SameLine(s: State, t: State, i: nat, j: nat)
    requires SizesOk(s) && SizesOk(t) && SameSwap(s, t) && i < s.active && Seg(j)
  {
    t.buffer[i] == s.buffer[i] && t.mem[Base(s, j) + i] == s.mem[Base(s, j) + i]
  }

  lemma EntryWritesAt(s: State, a: Accepts, i: nat, j: nat)
    requires SizesOk(s) && i < s.active && Seg(j)
    ensures LineWritten(s, EntryWrites(s, i, a), a, i, j)
  {
  }

  lemma OtherLine(s: State, t: State, k: nat, i: nat, j: nat)
    requires SizesOk(s) && k < s.active && i < s.active && i != k && Seg(j) && OnlyEntry(s, t, k)
    ensures SameLine(s, t, i, j)
  {
  }

  lemma LineJoins(s: State, t: State, u: State, a: Accepts, i: nat, j: nat)
    requires SizesOk(s) && SizesOk(t) && SizesOk(u) && SameSwap(s, t) && SameSwap(t, u) && i < s.active && Seg(j)
    ensures SameLine(s, t, i, j) && LineWritten(t, u, a, i, j) ==> LineWritten(s, u, a, i, j)
    ensures LineWritten(s, t, a, i, j) && SameLine(t, u, i, j) ==> LineWritten(s, u, a, i, j)
    ensures SameLine(s, t, i, j) && SameLine(t, u, i, j) ==> SameLine(s, u, i, j)
  {
  }

  lemma {:induction false} WritePhaseAt(s: State, n: nat, a: Accepts, i: nat, j: nat)
    requires Ok(s) && n <= s.active && i < s.active && Seg(j)
    ensures i < n ==> LineWritten(s, WritePhase(s, n, a), a, i, j)
    ensures n <= i ==> SameLine(s, WritePhase(s, n, a), i, j)
  {
    if n > 0 {
      var t := WritePhase(s, n - 1, a);
      WritePhaseAt(s, n - 1, a, i, j);
      assert Ok(t) by { WritePhaseKeeps(s, n - 1, a); }
      var u := EntryWrites(t, n - 1, a);
      LineJoins(s, t, u, a, i, j);
      if i == n - 1 {
        EntryWritesAt(t, a, i, j);
      } else {
        EntryWritesKeeps(t, n - 1, a);
        OtherLine(t, u, n - 1, i, j);
      }
    }
  }

  /** What a round makes of line `i` of segment `j`. */
  lemma RoundAt(s: State, a: Accepts, i: nat, j: nat, t: State)
    requires Inv(s) && s.swapping && i < s.active && Seg(j) && t == Operated(s, a)
    ensures SizesOk(t) && SameSwap(s, t.(swapping := s.swapping)) && LineWritten(s, t.(swapping := s.swapping), a, i, j)
  {
    OperatedKeeps(s, a);
    ReadPhaseKeeps(s, s.active, a);
    ReadPhaseAt(s, s.active, a, i);
    WritePhaseAt(ReadPhase(s, s.active, a), s.active, a, i, j);
  }

  /** After the round, line `i` of segment `j` is `d` with the last word absorbed for it on top, unless
      that word is left behind. */
  predicate Delivered(s: State, a: Accepts, i: nat, j: nat, d: Data)
    requires SizesOk(s) && i < s.active && Seg(j)
  {
    var t := Operated(s, a);
    && |t.mem| == |s.mem|
    && (t.mem[Base(s, j) + i] == Want(d, s.log, i, j, |s.log|) <==> !LeftBehind(s, a, i, j))
    && t.mem[Base(s, j) + i].rest == d.rest
  }

  /** Completion delivers every line from the other side; everything outside the two segments is
      untouched. */
  lemma CompletionExact(s: State, a: Accepts, i: nat, j: nat)
    requires Inv(s) && StatusOf(s, a) == Done && i < s.active && Seg(j)
    ensures var t := Operated(s, a);
            SizesOk(t) && SameSwap(s, t.(swapping := s.swapping)) && SameOutside(s, t)
    ensures Delivered(s, a, i, j, Orig(s, Other(j))[i])
  {
    OperatedKeeps(s, a);
    DoneIsQuiet(s, a);
    SideCompletes(Operated(s, a), i, j);
    WantRest(Orig(s, Other(j))[i], s.log, i, j, |s.log|);
    RoundAt(s, a, i, j, Operated(s, a));
    assert EntryOk(s, i) && SideOk(s, i, j);
  }

  lemma LineExchanges(t: State, i: nat, j: nat)
    requires Ok(t) && t.log == [] && i < t.active && Seg(j) && t.buffer[i].finish
    ensures t.mem[Base(t, j) + i] == Orig(t, Other(j))[i]
  {
    SideCompletes(t, i, j);
  }

  /** With no write absorbed, memory ends up with the two segments exchanged. */
  lemma CompletionExchanges(s: State, a: Accepts)
    requires Inv(s) && StatusOf(s, a) == Done && s.log == []
    ensures var t := Operated(s, a);
      && SizesOk(t) && SameOutside(s, t)
      && t.mem[s.base1..s.base1 + s.active] == s.orig2
      && t.mem[s.base2..s.base2 + s.active] == s.orig1
  {
    OperatedKeeps(s, a);
    DoneIsQuiet(s, a);
    AllExchanged(Operated(s, a));
  }

  lemma AllExchanged(t: State)
    requires Ok(t) && t.log == [] && forall i :: 0 <= i < t.active ==> t.buffer[i].finish
    ensures t.mem[t.base1..t.base1 + t.active] == t.orig2
    ensures t.mem[t.base2..t.base2 + t.active] == t.orig1
  {
    forall i | 0 <= i < t.active
      ensures t.mem[t.base1 + i] == t.orig2[i] && t.mem[t.base2 + i] == t.orig1[i]
    {
      LineExchanges(t, i, 1);
      LineExchanges(t, i, 2);
    }
  }

  // ----- Requests during a swap ---------------------------------------------------------------------------

  /** A processor read of a line under swap is answered from the buffer exactly when the line from
      the other side has arrived, with the word the line is to hold after the swap; otherwise it
      waits. Only lines outside the segments are read from memory. */
  lemma ReadsServed(s: State, addr: nat)
    requires Inv(s)
    ensures CheckRead(s, addr) == ToMemory <==> Locate(s, addr).Outside?
    ensures Locate(s, addr).Inside? ==>
      var p := Locate(s, addr);
      CheckRead(s, addr) == if Side(s.buffer[p.entry], p.seg).read
        then FromBuffer(Want(Orig(s, Other(p.seg))[p.entry], s.log, p.entry, p.seg, |s.log|).word) else Stall
  {
    match Locate(s, addr)
    case Outside =>
    case Inside(j, i) => assert EntryOk(s, i) && SideOk(s, i, j) && SideOk(s, i, Other(j));
  }

  /** A processor write to a line under swap is absorbed exactly when the lines of both sides have
      arrived, and waits before; it never reaches memory, and once it is absorbed a read of the line
      is served with it. Any other write changes its own line only. */
  lemma WritesAbsorbed(s: State, addr: nat, word: int, ok: bool)
    requires Inv(s) && addr < |s.mem|
    ensures var t, p := Written(s, addr, word, ok), Locate(s, addr);
      && SizesOk(t)
      && (p.Inside? ==>
            && t.mem == s.mem
            && var e := s.buffer[p.entry];
               CheckWrite(s, addr, word) == if e.one.read && e.two.read then FromBuffer(word) else Stall)
      && (CheckWrite(s, addr, word).FromBuffer? ==> CheckRead(t, addr) == FromBuffer(word))
      && (CheckWrite(s, addr, word).Stall? ==> t == s)
      && (p.Outside? ==>
            && CheckWrite(s, addr, word) == ToMemory
            && t == if ok then s.(mem := s.mem[addr := s.mem[addr].(word := word)]) else s)
  {
  }

  /** The unit's counter counts the finished active entries, in every state of every run. */
  lemma FinishedCounts(mem: seq<Data>, fast: nat, events: seq<Event>)
    requires fast <= |mem| && Run(Initial(mem, fast), events)
    ensures var t := StateAfter(Initial(mem, fast), events);
      && |t.buffer| == ENTRIES && t.active <= ENTRIES
      && t.finished == FinishCount(t.buffer, t.active) <= t.active
  {
  }

  // ----- A run from the start of a swap ---------------------------------------------------------------------

  /** The run stays within one swap, which may grow and absorb writes. */
  ghost predicate WithinSwap(s: State, events: seq<Event>)
    requires Inv(s)
    decreases |events|
  {
    s.swapping && (events == [] || (Enabled(s, events[0]) && WithinSwap(Step(s, events[0]), events[1..])))
  }

  /** A line of memory after an event, when only processor writes reach it. */
  function WrittenOver(d: Data, x: nat, e: Event): Data {
    if e.Write? && e.addr == x && e.ok then d.(word := e.word) else d
  }

  /** A line of memory after the accepted processor writes of a run that go to it directly. */
  function Overwritten(d: Data, x: nat, events: seq<Event>): Data
    decreases |events|
  {
    if events == [] then d else Overwritten(WrittenOver(d, x, events[0]), x, events[1..])
  }

  /** The same swap, perhaps with more lines and more absorbed writes. */
  predicate Continues(s: State, t: State) {
    && t.swapping && t.base1 == s.base1 && t.base2 == s.base2 && t.active >= s.active
    && |t.mem| == |s.mem| && s.orig1 <= t.orig1 && s.orig2 <= t.orig2 && s.log <= t.log
  }

  lemma StepContinues(s: State, e: Event)
    requires Inv(s) && Enabled(s, e) && s.swapping && Step(s, e).swapping
    ensures Continues(s, Step(s, e))
    ensures forall x :: 0 <= x < |s.mem| && Locate(s, x).Outside? ==>
              Step(s, e).mem[x] == WrittenOver(s.mem[x], x, e)
  {
    match e
    case Round(a, ask) => OperatedKeeps(s, a);
    case Return(k) =>
    case Write(addr, word, ok) =>
  }

  lemma {:induction false} RunContinues(s: State, events: seq<Event>)
    requires Inv(s) && WithinSwap(s, events)
    ensures Run(s, events) && Continues(s, StateAfter(s, events))
    decreases |events|
  {
    if events != [] {
      StepContinues(s, events[0]);
      RunContinues(Step(s, events[0]), events[1..]);
    }
  }

  lemma {:induction false} RunOutside(s: State, events: seq<Event>, x: nat, u: State)
    requires Inv(s) && WithinSwap(s, events) && Run(s, events) && x < |s.mem|
    requires u == StateAfter(s, events) && Locate(u, x).Outside?
    ensures u.mem[x] == Overwritten(s.mem[x], x, events)
    decreases |events|
  {
    RunContinues(s, events);
    if events != [] {
      StepContinues(s, events[0]);
      RunOutside(Step(s, events[0]), events[1..], x, u);
    }
  }

  /** For how many events of the run the line stays outside the segments. */
  ghost function OutsideFor(s: State, events: seq<Event>, x: nat): (n: nat)
    requires Inv(s) && WithinSwap(s, events)
    ensures n <= |events|
    decreases |events|
  {
    if events == [] || Locate(s, x).Inside? then 0 else 1 + OutsideFor(Step(s, events[0]), events[1..], x)
  }

  lemma RoundedGrows(s: State, a: Accepts, ask: Ask, t: State)
    requires Inv(s) && AskOk(s, ask) && s.swapping && Rounded(s, a, ask).swapping && t == Operated(s, a)
    ensures Rounded(s, a, ask) == Update(t.(swapping := true), ask.base1, ask.base2, ask.size)
  {
  }

  lemma UpdateJoins(s: State, ask: Ask, t: State, j: nat, i: nat)
    requires SizesOk(s) && ask.Ask? && Segments(s, ask.base1, ask.base2, ask.size) && Seg(j)
    requires t == Update(s, ask.base1, ask.base2, ask.size) && s.active <= i < t.active
    ensures |t.orig1| == |t.orig2| == t.active && Base(t, j) + i < |s.mem|
    ensures Orig(t, j)[i] == s.mem[Base(t, j) + i]
  {
  }

  lemma RoundSizes(s: State, a: Accepts, t: State)
    requires Inv(s) && s.swapping && t == Operated(s, a).(swapping := true)
    ensures SizesOk(t) && t.fast == s.fast && t.active == s.active && SameOutside(s, t)
  {
    OperatedKeeps(s, a);
  }

  lemma GrownJoins(s: State, u: State, ask: Ask, t: State, j: nat, i: nat, x: nat)
    requires SizesOk(u) && u.active == s.active && SameOutside(s, u) && ask.Ask?
    requires Segments(u, ask.base1, ask.base2, ask.size) && t == Update(u, ask.base1, ask.base2, ask.size)
    requires Seg(j) && s.active <= i < t.active && x == Base(t, j) + i < |s.mem| && Locate(s, x).Outside?
    ensures |t.orig1| == |t.orig2| == t.active && Orig(t, j)[i] == s.mem[x]
  {
    UpdateJoins(u, ask, t, j, i);
  }

  lemma RoundJoins(s: State, a: Accepts, ask: Ask, t: State, j: nat, i: nat, x: nat)
    requires Inv(s) && AskOk(s, ask) && s.swapping && t == Rounded(s, a, ask) && t.swapping
    requires Seg(j) && s.active <= i < t.active && x == Base(t, j) + i < |s.mem| && Locate(s, x).Outside?
    ensures Orig(t, j)[i] == s.mem[x]
  {
    var u := Operated(s, a).(swapping := true);
    RoundSizes(s, a, u);
    RoundedGrows(s, a, ask, Operated(s, a));
    GrownJoins(s, u, ask, t, j, i, x);
  }

  /** A line that joins the swap is recorded as memory holds it. */
  lemma StepJoins(s: State, e: Event, j: nat, i: nat, x: nat)
    requires Inv(s) && Enabled(s, e) && s.swapping && Step(s, e).swapping
    requires Seg(j) && s.active <= i < Step(s, e).active && x == Base(Step(s, e), j) + i < |s.mem|
    requires Locate(s, x).Outside?
    ensures e.Round? && Orig(Step(s, e), j)[i] == s.mem[x]
  {
    match e
    case Round(a, ask) => RoundJoins(s, a, ask, Step(s, e), j, i, x);
    case Return(k) =>
    case Write(addr, word, ok) =>
  }

  lemma OutsideBefore(s: State, u: State, j: nat, i: nat, x: nat)
    requires SizesOk(u) && Continues(s, u) && Seg(j) && s.active <= i < u.active && x == Base(u, j) + i
    ensures Locate(s, x).Outside?
  {
  }

  lemma OverwrittenFirst(d: Data, x: nat, events: seq<Event>, n: nat)
    requires n < |events|
    ensures Overwritten(d, x, events[..n + 1])
         == Overwritten(WrittenOver(d, x, events[0]), x, events[1..][..n])
  {
    assert events[..n + 1][0] == events[0] && events[..n + 1][1..] == events[1..][..n];
  }

  /** The lines on record are those that stood there when they became part of the swap. */
  lemma {:induction false} RunOrig(s: State, events: seq<Event>, u: State, j: nat, i: nat, x: nat)
    requires Inv(s) && WithinSwap(s, events) && Run(s, events) && u == StateAfter(s, events)
    requires Seg(j) && s.active <= i < u.active && x == Base(u, j) + i < |s.mem|
    ensures Orig(u, j)[i] == Overwritten(s.mem[x], x, events[..OutsideFor(s, events, x)])
    decreases |events|
  {
    assert Continues(s, u) by { RunContinues(s, events); }
    if events != [] {
      var e, rest := events[0], events[1..];
      var t := Step(s, e);
      OutsideBefore(s, u, j, i, x);
      OverwrittenFirst(s.mem[x], x, events, OutsideFor(t, rest, x));
      assert t.mem[x] == WrittenOver(s.mem[x], x, e) by { StepContinues(s, e); }
      if i < t.active {
        assert Continues(t, u) by { RunContinues(t, rest); }
        StepJoins(s, e, j, i, x);
        InsideNow(t, j, i, x);
      } else {
        RunOrig(t, rest, u, j, i, x);
      }
    }
  }

  lemma InsideNow(s: State, j: nat, i: nat, x: nat)
    requires Seg(j) && i < s.active && x == Base(s, j) + i
    ensures Locate(s, x).Inside?
  {
  }

  /** An idle unit `s` takes up request `r`, and `events` lead from there to `u` within the swap. */
  ghost predicate SwapRun(s: State, r: Ask, s0: State, events: seq<Event>, u: State) {
    && r.Ask? && !s.swapping && Segments(s, r.base1, r.base2, r.size)
    && s0 == Start(s, r.base1, r.base2, r.size) && Inv(s0)
    && WithinSwap(s0, events) && Run(s0, events) && u == StateAfter(s0, events)
  }

  /** The line at `x` when it became part of the swap that began in `s`. */
  ghost function Joining(s: State, s0: State, events: seq<Event>, x: nat): Data
    requires Inv(s0) && WithinSwap(s0, events) && x < |s.mem|
  {
    Overwritten(s.mem[x], x, events[..OutsideFor(s0, events, x)])
  }

  lemma StartRecords(s: State, r: Ask, s0: State, u: State, j: nat, i: nat, x: nat)
    requires r.Ask? && !s.swapping && Segments(s, r.base1, r.base2, r.size)
    requires s0 == Start(s, r.base1, r.base2, r.size) && Continues(s0, u) && |u.orig1| == |u.orig2| == u.active
    requires Seg(j) && i < r.size && x == Base(u, j) + i < |s.mem|
    ensures Locate(s0, x).Inside? && i < u.active && Orig(u, j)[i] == s.mem[x]
  {
    assert Orig(s0, j) <= Orig(u, j);
  }

  lemma JoinsAtOnce(s: State, s0: State, events: seq<Event>, x: nat)
    requires Inv(s0) && WithinSwap(s0, events) && x < |s.mem| && Locate(s0, x).Inside?
    ensures Joining(s, s0, events, x) == s.mem[x]
  {
  }

  /** Whatever is on record when the swap ends stood there when the line joined. */
  lemma StartedOrig(s: State, r: Ask, s0: State, events: seq<Event>, u: State, j: nat, i: nat, x: nat)
    requires SwapRun(s, r, s0, events, u)
    requires Seg(j) && i < u.active && x == Base(u, j) + i < |s.mem|
    ensures SizesOk(u) && Orig(u, j)[i] == Joining(s, s0, events, x)
  {
    if i < r.size {
      assert Continues(s0, u) by { RunContinues(s0, events); }
      StartRecords(s, r, s0, u, j, i, x);
      JoinsAtOnce(s, s0, events, x);
    } else {
      RunOrig(s0, events, u, j, i, x);
    }
  }

  lemma InMemory(s: State, i: nat)
    requires SizesOk(s) && i < s.active
    ensures s.base1 + i < |s.mem| && s.base2 + i < |s.mem|
  {
  }

  lemma RecordDelivered(u: State, a: Accepts, i: nat, j: nat, d: Data)
    requires Inv(u) && StatusOf(u, a) == Done && i < u.active && Seg(j) && Orig(u, Other(j))[i] == d
    ensures Delivered(u, a, i, j, d)
  {
    CompletionExact(u, a, i, j);
  }

  /** A whole swap, from an idle unit to completion, under any stalls, late answers, growth and
      processor writes: every line of the segments ends up with the line that stood on the other side
      when it became part of the swap, with the last word absorbed for it on top, unless the final
      round leaves that word behind. */
  lemma SwapCompletes(s: State, r: Ask, s0: State, events: seq<Event>, u: State, a: Accepts, i: nat, j: nat)
    requires SwapRun(s, r, s0, events, u)
    requires StatusOf(u, a) == Done && i < u.active && Seg(j)
    ensures u.base1 + i < |s.mem| && u.base2 + i < |s.mem|
    ensures Delivered(u, a, i, j, Joining(s, s0, events, Base(u, Other(j)) + i))
  {
    InMemory(u, i);
    var x := Base(u, Other(j)) + i;
    StartedOrig(s, r, s0, events, u, Other(j), i, x);
    RecordDelivered(u, a, i, j, Joining(s, s0, events, x));
  }

  /** Outside the segments the swap leaves memory to the processor. */
  lemma SwapLeavesOthers(s0: State, events: seq<Event>, u: State, a: Accepts, x: nat)
    requires Inv(s0) && WithinSwap(s0, events) && Run(s0, events) && u == StateAfter(s0, events)
    requires x < |s0.mem| && Locate(u, x).Outside?
    ensures SizesOk(Operated(u, a)) && |Operated(u, a).mem| == |s0.mem|
    ensures Operated(u, a).mem[x] == Overwritten(s0.mem[x], x, events)
  {
    RunContinues(s0, events);
    RunOutside(s0, events, x, u);
    OperatedKeeps(u, a);
  }

  // ----- Every swap completes ---------------------------------------------------------------------------------

  /** A round in which the memory accepts everything. */
  const OPEN := Accepts((i, j) => true, (i, j) => true)

  predicate Issued(e: Entry) {
    e.finish || (e.one.issued && e.two.issued)
  }

  lemma {:induction false} AllIssued(s: State, n: nat)
    requires Ok(s) && n <= s.active
    ensures forall i :: 0 <= i < n ==> Issued(ReadPhase(s, n, OPEN).buffer[i])
    ensures forall i :: n <= i < s.active ==> ReadPhase(s, n, OPEN).buffer[i] == s.buffer[i]
  {
    if n > 0 { AllIssued(s, n - 1); }
  }

  lemma {:induction false} AllFinished(s: State, n: nat)
    requires Ok(s) && n <= s.active && forall i :: 0 <= i < s.active ==> BothRead(s.buffer[i])
    ensures forall i :: 0 <= i < n ==> WritePhase(s, n, OPEN).buffer[i].finish
    ensures forall i :: n <= i < s.active ==> WritePhase(s, n, OPEN).buffer[i] == s.buffer[i]
  {
    if n > 0 { AllFinished(s, n - 1); }
  }

  lemma {:induction false} NothingToRead(s: State, n: nat, a: Accepts)
    requires Ok(s) && n <= s.active && forall i :: 0 <= i < s.active ==> BothRead(s.buffer[i])
    ensures ReadPhase(s, n, a) == s
  {
    if n > 0 {
      NothingToRead(s, n - 1, a);
      assert EntryOk(s, n - 1) && SideOk(s, n - 1, 1) && SideOk(s, n - 1, 2);
    }
  }

  /** Once every read has been answered, one round in which the memory accepts everything
      completes the swap. */
  lemma AnsweredCompletes(s: State)
    requires Inv(s) && s.swapping && forall i :: 0 <= i < s.active ==> BothRead(s.buffer[i])
    ensures StatusOf(s, OPEN) == Done
  {
    NothingToRead(s, s.active, OPEN);
    AllFinished(s, s.active);
    WritePhaseKeeps(s, s.active, OPEN);
    CountAll(WritePhase(s, s.active, OPEN).buffer, s.active);
  }

  /** No read is lost: when none is on its way, every read issued has been answered. */
  lemma NoReadLost(s: State, i: nat)
    requires Inv(s) && s.flights == [] && i < s.active && Issued(s.buffer[i])
    ensures BothRead(s.buffer[i])
  {
    assert EntryOk(s, i) && SideOk(s, i, 1) && SideOk(s, i, 2);
    assert Awaited(s, i, 1) && Awaited(s, i, 2);
  }

  lemma {:induction false} WritesKeepIssued(s: State, n: nat, a: Accepts)
    requires SizesOk(s) && n <= s.active && forall i :: 0 <= i < s.active ==> Issued(s.buffer[i])
    ensures forall i :: 0 <= i < s.active ==> Issued(WritePhase(s, n, a).buffer[i])
  {
    if n > 0 { WritesKeepIssued(s, n - 1, a); }
  }

  /** All reads on their way are answered, oldest first. */
  function Drained(s: State): (t: State)
    requires Inv(s)
    ensures Inv(t) && t.flights == [] && t.swapping == s.swapping && t.active == s.active
    ensures forall i :: 0 <= i < s.active && Issued(s.buffer[i]) ==> Issued(t.buffer[i])
    decreases |s.flights|
  {
    if s.flights == [] then s
    else
      ReturnedKeeps(s, 0);
      Drained(Returned(s, 0))
  }

  /** Every swap completes: after a round in which the memory accepts everything and the answers to
      all its reads, a second such round at the latest reports completion. */
  lemma TwoRoundsSuffice(s: State)
    requires Inv(s) && s.swapping
    ensures StatusOf(s, OPEN) == Done
      || (Inv(Operated(s, OPEN)) && StatusOf(Drained(Operated(s, OPEN)), OPEN) == Done)
  {
    OperatedKeeps(s, OPEN);
    if StatusOf(s, OPEN) == Busy {
      var t := Operated(s, OPEN);
      AllIssued(s, s.active);
      ReadPhaseKeeps(s, s.active, OPEN);
      WritesKeepIssued(ReadPhase(s, s.active, OPEN), s.active, OPEN);
      var u := Drained(t);
      forall i | 0 <= i < u.active ensures BothRead(u.buffer[i]) { NoReadLost(u, i); }
      AnsweredCompletes(u);
    }
  }

  // ----- The word that is lost -----------------------------------------------------------------------------------

  function OnlySide(j: nat): Accepts {
    Accepts((i, k) => true, (i, k) => k == j)
  }

  const A: Data := Data(1, 0)
  const B: Data := Data(2, 0)

  /** A swap of lines 0 and 1, the whole of both memories, whose buffer entry is `e`. */
  function Racing(mem: seq<Data>, e: Entry, finished: nat, flights: seq<Flight>, log: seq<Absorbed>): State {
    State(mem, 1, seq(ENTRIES, i => EMPTY_ENTRY)[0 := e], 0, 1, 1, finished, true, flights, [A], [B], log)
  }

  const ASK: Ask := Ask(0, 1, 1)
  const SENT: Cell := Cell(Data(0, 0), true, false, false, false, 0)
  const ONE: Cell := Cell(B, true, true, false, false, 0)
  const TWO: Cell := Cell(A, true, true, false, false, 0)

  const R1 := Racing([A, B], EMPTY_ENTRY, 0, [], [])
  const R2 := Racing([A, B], Entry(false, SENT, SENT), 0, [Flight(0, A), Flight(1, B)], [])
  const R3 := Racing([A, B], Entry(false, SENT, TWO), 0, [Flight(1, B)], [])
  const R4 := Racing([A, B], Entry(false, ONE, TWO), 0, [], [])
  const R5 := Racing([B, B], Entry(false, ONE.(write := true), TWO), 0, [], [])
  const R6 := Racing([B, B], Entry(false, ONE.(data := Data(9, 0), write := true, dirty := true), TWO), 0, [],
                     [Absorbed(1, 0, 9)])
  const R7 := Racing([B, A], Entry(true, R6.buffer[0].one, TWO.(write := true, flushed := 1)), 1, [],
                     [Absorbed(1, 0, 9)])

  ghost predicate Moves(s: State, e: Event, t: State) {
    Inv(s) && Enabled(s, e) && Step(s, e) == t
  }

  lemma RaceReads()
    ensures Moves(Initial([A, B], 1), Round(OPEN, ASK), R1) && Moves(R1, Round(OPEN, ASK), R2)
  {
    assert Rounded(Initial([A, B], 1), OPEN, ASK) == R1;
    assert ReadPhase(R1, 1, OPEN) == R2;
    assert WritePhase(R2, 1, OPEN) == R2;
  }

  lemma RaceAnswers()
    requires Inv(R2)
    ensures Moves(R2, Return(0), R3) && Moves(R3, Return(0), R4)
  {
    assert R2.flights[..0] + R2.flights[1..] == R3.flights;
    assert Returned(R2, 0) == R3 && Returned(R3, 0) == R4;
    ReturnedKeeps(R2, 0);
  }

  lemma RaceWrites()
    requires Inv(R4)
    ensures Moves(R4, Round(OnlySide(1), ASK), R5) && Moves(R5, Write(0, 9, true), R6)
  {
    assert ReadPhase(R4, 1, OnlySide(1)) == R4;
    assert WritePhase(R4, 1, OnlySide(1)) == R5;
    assert Rounded(R4, OnlySide(1), ASK) == R5;
    assert Written(R5, 0, 9, true) == R6;
  }

  lemma RaceEnds()
    ensures CheckRead(R6, 0) == FromBuffer(9)
    ensures StatusOf(R6, OnlySide(2)) == Done && Operated(R6, OnlySide(2)).mem == [B, A]
  {
    assert ReadPhase(R6, 1, OnlySide(2)) == R6;
    assert WritePhase(R6, 1, OnlySide(2)) == R7;
  }

  lemma Joined(s: State, e: Event, t: State, events: seq<Event>)
    requires Moves(s, e, t) && Run(t, events)
    ensures Run(s, [e] + events) && StateAfter(s, [e] + events) == StateAfter(t, events)
  {
    assert ([e] + events)[1..] == events;
  }

  const RACE: seq<Event> :=
    [Round(OPEN, ASK)] + ([Round(OPEN, ASK)] + ([Return(0)] + ([Return(0)]
      + ([Round(OnlySide(1), ASK)] + ([Write(0, 9, true)] + [])))))

  /** Completion does not test the dirty flag: a write absorbed after its line was written back,
      whose second write-back stalls in the round that finishes the entry, never reaches memory,
      although a read just before was answered with it. */
  lemma DirtyWordLost()
    ensures Run(Initial([A, B], 1), RACE) && StateAfter(Initial([A, B], 1), RACE) == R6
    ensures CheckRead(R6, 0) == FromBuffer(9)
    ensures StatusOf(R6, OnlySide(2)) == Done && Operated(R6, OnlySide(2)).mem == [B, A]
  {
    RaceReads();
    RaceAnswers();
    RaceWrites();
    RaceEnds();
    Joined(R5, Write(0, 9, true), R6, []);
    Joined(R4, Round(OnlySide(1), ASK), R5, [Write(0, 9, true)] + []);
    var tail := [Round(OnlySide(1), ASK)] + ([Write(0, 9, true)] + []);
    Joined(R3, Return(0), R4, tail);
    Joined(R2, Return(0), R3, [Return(0)] + tail);
    Joined(R1, Round(OPEN, ASK), R2, [Return(0)] + ([Return(0)] + tail));
    Joined(Initial([A, B], 1), Round(OPEN, ASK), R1, [Round(OPEN, ASK)] + ([Return(0)] + ([Return(0)] + tail)));
  }
}
