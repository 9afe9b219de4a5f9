/** What every step of the swapping unit keeps, and what memory holds when a swap completes. */
module SwappingInvariants {
  import opened SwappingUnit

  // ----- The invariant -----------------------------------------------------------------------------

  /** How many absorbed writes the line in memory already contains. */
  function Stamp(c: Cell): nat {
    if c.write then c.flushed else 0
  }

  /** One side `c` of entry `i`, with `d` the side facing it: `m` is the line in memory, `own` the
      line that stood here, `other` the line that stood on the facing side. */
  predicate CellOk(m: Data, own: Data, other: Data, log: seq<Absorbed>, i: nat, j: nat,
                   c: Cell, d: Cell, finish: bool) {
    && c.flushed <= |log|
    && (c.read ==> c.data == Want(other, log, i, j, |log|))
    && (c.read ==> d.issued)
    && (c.write || c.dirty ==> c.read && d.read)
    && (finish ==> c.write)
    && (c.dirty <==> Touched(log, i, j, Stamp(c)))
    && m == (if c.write then Want(other, log, i, j, c.flushed) else own)
  }

  predicate SideOk(s: State, i: nat, j: nat)
    requires SizesOk(s) && i < s.active && Seg(j)
  {
    CellOk(s.mem[Base(s, j) + i], Orig(s, j)[i], Orig(s, Other(j))[i], s.log, i, j,
           Side(s.buffer[i], j), Side(s.buffer[i], Other(j)), s.buffer[i].finish)
  }

  predicate EntryOk(s: State, i: nat)
    requires SizesOk(s) && i < s.active
  {
    SideOk(s, i, 1) && SideOk(s, i, 2)
  }

  /** A read on its way was issued for a line of the swap, still waits for its answer, and carries
      that line's original contents. */
  predicate FlightOk(s: State, f: Flight)
    requires SizesOk(s)
  {
    match Locate(s, f.addr)
    case Outside => false
    case Inside(j, i) =>
      && Side(s.buffer[i], j).issued && !Side(s.buffer[i], Other(j)).read
      && f.value == Orig(s, j)[i]
  }

  /** Every read sent and not yet answered is on its way. */
  predicate Awaited(s: State, i: nat, j: nat)
    requires SizesOk(s) && i < s.active && Seg(j)
  {
    Side(s.buffer[i], j).issued && !Side(s.buffer[i], Other(j)).read ==>
      exists k :: 0 <= k < |s.flights| && s.flights[k].addr == Base(s, j) + i
  }

  predicate FlightsOk(s: State)
    requires SizesOk(s)
  {
    && (forall k :: 0 <= k < |s.flights| ==> FlightOk(s, s.flights[k]))
    && (forall k, l :: 0 <= k < l < |s.flights| ==> s.flights[k].addr != s.flights[l].addr)
    && (forall i :: 0 <= i < s.active ==> Awaited(s, i, 1) && Awaited(s, i, 2))
  }

  function FinishCount(b: seq<Entry>, n: nat): (c: nat)
    requires n <= |b|
    ensures c <= n
  {
    if n == 0 then 0 else FinishCount(b, n - 1) + (if b[n - 1].finish then 1 else 0)
  }

  /** What holds also in the middle of a round. */
  predicate Ok(s: State) {
    && SizesOk(s)
    && (forall i :: 0 <= i < s.active ==> EntryOk(s, i))
    && (forall i :: s.active <= i < ENTRIES ==> s.buffer[i] == EMPTY_ENTRY)
    && FlightsOk(s)
    && s.finished == FinishCount(s.buffer, s.active)
    && (forall k :: 0 <= k < |s.log| ==> Seg(s.log[k].seg) && s.log[k].entry < s.active)
  }

  /** What holds between events: an idle unit is empty and no answer is outstanding. */
  predicate Inv(s: State) {
    Ok(s) && (!s.swapping ==> s.active == 0)
  }

  // ----- Small facts ---------------------------------------------------------------------------------

  lemma {:induction false} WantPrefix(d: Data, log: seq<Absorbed>, w: Absorbed, i: nat, j: nat, n: nat)
    requires n <= |log|
    ensures Want(d, log + [w], i, j, n) == Want(d, log, i, j, n)
  {
    if n > 0 { WantPrefix(d, log, w, i, j, n - 1); }
  }

  lemma {:induction false} WantSettled(d: Data, log: seq<Absorbed>, i: nat, j: nat, n: nat, m: nat)
    requires n <= m <= |log| && !Touched(log, i, j, n)
    ensures Want(d, log, i, j, m) == Want(d, log, i, j, n)
  {
    if n < m { WantSettled(d, log, i, j, n, m - 1); }
  }

  /** Absorbed writes never change the part of the line outside the word. */
  lemma {:induction false} WantRest(d: Data, log: seq<Absorbed>, i: nat, j: nat, n: nat)
    requires n <= |log|
    ensures Want(d, log, i, j, n).rest == d.rest
  {
    if n > 0 { WantRest(d, log, i, j, n - 1); }
  }

  lemma {:induction false} CountUpdate(b: seq<Entry>, i: nat, e: Entry, n: nat)
    requires i < |b| && n <= |b|
    ensures FinishCount(b[i := e], n)
         == FinishCount(b, n) + (if i < n && e.finish then 1 else 0) - (if i < n && b[i].finish then 1 else 0)
  {
    if n > 0 { CountUpdate(b, i, e, n - 1); }
  }

  lemma {:induction false} CountAll(b: seq<Entry>, n: nat)
    requires n <= |b|
    ensures FinishCount(b, n) == n <==> forall i :: 0 <= i < n ==> b[i].finish
  {
    if n > 0 { CountAll(b, n - 1); }
  }

  lemma {:induction false} CountPositive(b: seq<Entry>, n: nat, i: nat)
    requires i < n <= |b| && b[i].finish
    ensures FinishCount(b, n) > 0
  {
    if i < n - 1 { CountPositive(b, n - 1, i); }
  }

  // ----- One entry changes ---------------------------------------------------------------------------

  /** `t` differs from `s` at most in entry `i`, its two lines in memory, and the log, where only
      writes for entry `i` were added. */
  predicate OnlyEntry(s: State, t: State, i: nat)
    requires SizesOk(s) && i < s.active
  {
    && SizesOk(t) && SameSwap(s, t)
    && (forall k :: 0 <= k < ENTRIES && k != i ==> t.buffer[k] == s.buffer[k])
    && (forall a :: 0 <= a < |s.mem| && a != s.base1 + i && a != s.base2 + i ==> t.mem[a] == s.mem[a])
  }

  lemma OthersKeep(s: State, t: State, i: nat)
    requires Ok(s) && i < s.active && OnlyEntry(s, t, i)
    ensures forall k :: 0 <= k < s.active && k != i ==> EntryOk(t, k)
  {
    forall k | 0 <= k < s.active && k != i ensures EntryOk(t, k) {
      assert EntryOk(s, k);
      assert t.mem[s.base1 + k] == s.mem[s.base1 + k];
      assert t.mem[s.base2 + k] == s.mem[s.base2 + k];
    }
  }

  // ----- Reads ------------------------------------------------------------------------------------------

  lemma SendReadKeeps(s: State, i: nat, j: nat, ok: bool)
    requires Ok(s) && i < s.active && Seg(j)
    ensures Ok(SendRead(s, i, j, ok))
  {
    if !Side(s.buffer[i], j).issued && ok {
      var t := SendRead(s, i, j, ok);
      assert EntryOk(s, i);
      OthersKeep(s, t, i);
      CountUpdate(s.buffer, i, t.buffer[i], s.active);
      SendReadFlights(s, i, j);
    }
  }

  lemma SendReadFlights(s: State, i: nat, j: nat)
    requires SizesOk(s) && FlightsOk(s) && i < s.active && Seg(j) && !Side(s.buffer[i], j).issued
    requires !Side(s.buffer[i], Other(j)).read && s.mem[Base(s, j) + i] == Orig(s, j)[i]
    ensures SizesOk(SendRead(s, i, j, true)) && FlightsOk(SendRead(s, i, j, true))
  {
    var t := SendRead(s, i, j, true);
    var addr := Base(s, j) + i;
    var n := |s.flights|;
    forall k | 0 <= k < n ensures FlightOk(t, t.flights[k]) && t.flights[k].addr != addr {
      assert FlightOk(s, s.flights[k]);
    }
    assert FlightOk(t, t.flights[n]);
    forall k | 0 <= k < t.active ensures Awaited(t, k, 1) && Awaited(t, k, 2) {
      assert Awaited(s, k, 1) && Awaited(s, k, 2);
      SendReadAwaits(s, i, j, k, 1);
      SendReadAwaits(s, i, j, k, 2);
    }
  }

  lemma SendReadAwaits(s: State, i: nat, j: nat, k: nat, l: nat)
    requires SizesOk(s) && i < s.active && Seg(j) && !Side(s.buffer[i], j).issued
    requires k < s.active && Seg(l) && Awaited(s, k, l)
    ensures SizesOk(SendRead(s, i, j, true)) && Awaited(SendRead(s, i, j, true), k, l)
  {
    var t := SendRead(s, i, j, true);
    assert t.flights[|s.flights|].addr == Base(s, j) + i;
    if Side(s.buffer[k], l).issued && !Side(s.buffer[k], Other(l)).read {
      var m: nat :| m < |s.flights| && s.flights[m].addr == Base(s, l) + k;
      assert t.flights[m] == s.flights[m];
    }
  }

  lemma {:induction false} ReadPhaseKeeps(s: State, n: nat, a: Accepts)
    requires Ok(s) && n <= s.active
    ensures Ok(ReadPhase(s, n, a))
  {
    if n > 0 {
      ReadPhaseKeeps(s, n - 1, a);
      var t := ReadPhase(s, n - 1, a);
      SendReadKeeps(t, n - 1, 1, a.read(n - 1, 1));
      var u := SendRead(t, n - 1, 1, a.read(n - 1, 1));
      SendReadKeeps(u, n - 1, 2, a.read(n - 1, 2));
    }
  }

  // ----- Writes -----------------------------------------------------------------------------------------

  /** Writing a line back brings memory up to date with every write absorbed so far. */
  lemma SendWriteCells(m: Data, own: Data, other: Data, m': Data, log: seq<Absorbed>, i: nat, j: nat,
                       c: Cell, d: Cell)
    requires Seg(j) && c.read && d.read
    requires CellOk(m, own, other, log, i, j, c, d, false)
    requires CellOk(m', other, own, log, i, Other(j), d, c, false)
    ensures var c' := c.(write := true, dirty := false, flushed := |log|);
            && CellOk(c.data, own, other, log, i, j, c', d, false)
            && CellOk(m', other, own, log, i, Other(j), d, c', false)
  {
  }

  lemma SendWriteEntry(s: State, i: nat, j: nat, t: State)
    requires SizesOk(s) && i < s.active && Seg(j) && !s.buffer[i].finish && BothRead(s.buffer[i])
    requires EntryOk(s, i) && t == SendWrite(s, i, j, true)
    ensures EntryOk(t, i) && !t.buffer[i].finish && SameReads(s.buffer[i], t.buffer[i])
  {
    var c := Side(s.buffer[i], j);
    if !c.write || c.dirty {
      assert SideOk(s, i, j) && SideOk(s, i, Other(j));
      SendWriteCells(s.mem[Base(s, j) + i], Orig(s, j)[i], Orig(s, Other(j))[i], s.mem[Base(s, Other(j)) + i],
                     s.log, i, j, c, Side(s.buffer[i], Other(j)));
      assert SideOk(t, i, j) && SideOk(t, i, Other(j));
    }
  }

  lemma SendWriteKeeps(s: State, i: nat, j: nat, ok: bool, t: State)
    requires Ok(s) && i < s.active && Seg(j) && !s.buffer[i].finish && BothRead(s.buffer[i])
    requires t == SendWrite(s, i, j, ok)
    ensures Ok(t) && OnlyEntry(s, t, i) && !t.buffer[i].finish && BothRead(t.buffer[i])
  {
    if ok {
      assert EntryOk(s, i);
      SendWriteEntry(s, i, j, t);
      OthersKeep(s, t, i);
      CountUpdate(s.buffer, i, t.buffer[i], s.active);
      FlightsFrame(s, t);
    }
  }

  predicate SameReads(e: Entry, f: Entry) {
    && e.one.issued == f.one.issued && e.one.read == f.one.read
    && e.two.issued == f.two.issued && e.two.read == f.two.read
  }

  /** Flights only depend on the segments, the original lines and the issued and read flags. */
  lemma FlightsFrame(s: State, t: State)
    requires SizesOk(s) && SizesOk(t) && FlightsOk(s) && t.flights == s.flights
    requires t.active >= s.active && s.orig1 <= t.orig1 && s.orig2 <= t.orig2
    requires s.active > 0 ==> t.base1 == s.base1 && t.base2 == s.base2
    requires forall k :: 0 <= k < s.active ==> SameReads(s.buffer[k], t.buffer[k])
    requires forall k :: s.active <= k < t.active ==> t.buffer[k] == EMPTY_ENTRY
    ensures FlightsOk(t)
  {
    forall k | 0 <= k < |t.flights| ensures FlightOk(t, t.flights[k]) {
      assert FlightOk(s, s.flights[k]);
    }
    forall k | 0 <= k < t.active ensures Awaited(t, k, 1) && Awaited(t, k, 2) {
      if k < s.active { assert Awaited(s, k, 1) && Awaited(s, k, 2); }
    }
  }

  lemma MarkKeeps(s: State, i: nat)
    requires Ok(s) && i < s.active && !s.buffer[i].finish
    ensures Ok(Mark(s, i)) && OnlyEntry(s, Mark(s, i), i)
  {
    var t := Mark(s, i);
    OthersKeep(s, t, i);
    assert EntryOk(s, i);
    assert SideOk(t, i, 1) && SideOk(t, i, 2);
    CountUpdate(s.buffer, i, t.buffer[i], s.active);
    FlightsFrame(s, t);
  }

  lemma EntryWritesKeeps(s: State, i: nat, a: Accepts)
    requires Ok(s) && i < s.active
    ensures Ok(EntryWrites(s, i, a)) && OnlyEntry(s, EntryWrites(s, i, a), i)
  {
    if !s.buffer[i].finish {
      if BothRead(s.buffer[i]) {
        var t := SendWrite(s, i, 1, a.write(i, 1));
        SendWriteKeeps(s, i, 1, a.write(i, 1), t);
        var u := SendWrite(t, i, 2, a.write(i, 2));
        SendWriteKeeps(t, i, 2, a.write(i, 2), u);
        MarkKeeps(u, i);
      } else {
        MarkKeeps(s, i);
      }
    }
  }

  /** Outside the two segments `t` holds what `s` holds. */
  predicate SameOutside(s: State, t: State) {
    && |t.mem| == |s.mem|
    && (forall a :: 0 <= a < |s.mem| && Locate(s, a).Outside? ==> t.mem[a] == s.mem[a])
  }

  lemma OutsideStays(s: State, t: State, u: State, i: nat)
    requires SizesOk(s) && SizesOk(t) && SameSwap(s, t) && i < s.active
    requires SameOutside(s, t) && OnlyEntry(t, u, i)
    ensures SameOutside(s, u)
  {
  }

  lemma {:induction false} WritePhaseKeeps(s: State, n: nat, a: Accepts)
    requires Ok(s) && n <= s.active
    ensures Ok(WritePhase(s, n, a)) && SameOutside(s, WritePhase(s, n, a))
  {
    if n > 0 {
      WritePhaseKeeps(s, n - 1, a);
      var t := WritePhase(s, n - 1, a);
      EntryWritesKeeps(t, n - 1, a);
      OutsideStays(s, t, EntryWrites(t, n - 1, a), n - 1);
    }
  }

  // ----- A round ------------------------------------------------------------------------------------------

  lemma OperatedKeeps(s: State, a: Accepts)
    requires Inv(s)
    ensures Ok(Operated(s, a)) && SameOutside(s, Operated(s, a))
    ensures SameSwap(s, Operated(s, a).(swapping := s.swapping))
    ensures !Operated(s, a).swapping ==> FinishCount(Operated(s, a).buffer, s.active) == s.active
  {
    if s.swapping {
      ReadPhaseKeeps(s, s.active, a);
      var r := ReadPhase(s, s.active, a);
      WritePhaseKeeps(r, s.active, a);
      var t := WritePhase(r, s.active, a);
      assert forall x :: 0 <= x < |s.mem| ==> Locate(s, x) == Locate(r, x);
      StillOk(t, Operated(s, a));
    }
  }

  /** Whether the unit is busy does not matter inside a round. */
  lemma StillOk(s: State, t: State)
    requires Ok(s) && (t == s || t == s.(swapping := !s.swapping))
    ensures Ok(t)
  {
    forall i | 0 <= i < t.active ensures EntryOk(t, i) { assert EntryOk(s, i); }
    FlightsFrame(s, t);
  }

  // ----- Answers and processor writes ----------------------------------------------------------------------

  /** An answer is never late, never for a foreign line, and never ignored: it fills exactly the
      cell that waits for it. */
  lemma ReturnedFills(s: State, k: nat)
    requires Inv(s) && k < |s.flights|
    ensures s.swapping && Locate(s, s.flights[k].addr).Inside?
    ensures var p := Locate(s, s.flights[k].addr);
            var t := Returned(s, k);
            && !Side(s.buffer[p.entry], Other(p.seg)).read
            && Side(t.buffer[p.entry], Other(p.seg)).read
            && Side(t.buffer[p.entry], Other(p.seg)).data == Orig(s, p.seg)[p.entry]
  {
    assert FlightOk(s, s.flights[k]);
    var p := Locate(s, s.flights[k].addr);
    assert EntryOk(s, p.entry) && SideOk(s, p.entry, Other(p.seg)) && SideOk(s, p.entry, p.seg);
  }

  lemma ReturnedFlights(s: State, k: nat)
    requires Inv(s) && k < |s.flights|
    ensures SizesOk(Returned(s, k)) && FlightsOk(Returned(s, k))
  {
    ReturnedFills(s, k);
    var t := Returned(s, k);
    forall l | 0 <= l < |t.flights| ensures FlightOk(t, t.flights[l]) {
      var m := if l < k then l else l + 1;
      assert t.flights[l] == s.flights[m];
      ReturnedStill(s, k, m);
    }
    forall i | 0 <= i < t.active ensures Awaited(t, i, 1) && Awaited(t, i, 2) {
      assert Awaited(s, i, 1) && Awaited(s, i, 2);
      ReturnedAwaits(s, k, i, 1);
      ReturnedAwaits(s, k, i, 2);
    }
  }

  lemma ReturnedStill(s: State, k: nat, m: nat)
    requires SizesOk(s) && k < |s.flights| && m < |s.flights| && s.flights[m].addr != s.flights[k].addr
    requires FlightOk(s, s.flights[k]) && FlightOk(s, s.flights[m])
    ensures SizesOk(Returned(s, k)) && FlightOk(Returned(s, k), s.flights[m])
  {
  }

  lemma ReturnedAwaits(s: State, k: nat, i: nat, j: nat)
    requires SizesOk(s) && k < |s.flights| && FlightOk(s, s.flights[k]) && s.swapping
    requires i < s.active && Seg(j) && Awaited(s, i, j)
    requires SizesOk(Returned(s, k)) && Returned(s, k).active == s.active
    requires var p := Locate(s, s.flights[k].addr); Side(Returned(s, k).buffer[p.entry], Other(p.seg)).read
    ensures Awaited(Returned(s, k), i, j)
  {
    var t := Returned(s, k);
    if Side(t.buffer[i], j).issued && !Side(t.buffer[i], Other(j)).read {
      assert Side(s.buffer[i], j).issued && !Side(s.buffer[i], Other(j)).read;
      var m: nat :| m < |s.flights| && s.flights[m].addr == Base(s, j) + i;
      assert m != k;
      assert t.flights[if m < k then m else m - 1] == s.flights[m];
    }
  }

  lemma ReturnedKeeps(s: State, k: nat)
    requires Inv(s) && k < |s.flights|
    ensures Inv(Returned(s, k))
  {
    ReturnedFills(s, k);
    ReturnedFlights(s, k);
    var t := Returned(s, k);
    var p := Locate(s, s.flights[k].addr);
    assert FlightOk(s, s.flights[k]);
    assert OnlyEntry(s, t, p.entry);
    OthersKeep(s, t, p.entry);
    CountUpdate(s.buffer, p.entry, t.buffer[p.entry], s.active);
    assert EntryOk(s, p.entry) && SideOk(s, p.entry, p.seg) && SideOk(s, p.entry, Other(p.seg));
    ReturnedEntry(s, k, p.entry, p.seg);
  }

  lemma ReturnedEntry(s: State, k: nat, i: nat, j: nat)
    requires Inv(s) && k < |s.flights| && Locate(s, s.flights[k].addr) == Inside(j, i)
    requires SizesOk(Returned(s, k)) && Returned(s, k).active == s.active
    ensures EntryOk(Returned(s, k), i)
  {
    ReturnedFills(s, k);
    var t := Returned(s, k);
    assert EntryOk(s, i) && SideOk(s, i, j) && SideOk(s, i, Other(j));
    assert FlightOk(s, s.flights[k]);
    WantSettled(Orig(s, j)[i], s.log, i, Other(j), 0, |s.log|);
    assert SideOk(t, i, Other(j)) && SideOk(t, i, j);
  }

  /** The written cell gets the word and is to hold it. */
  lemma AbsorbedCell(m: Data, own: Data, other: Data, log: seq<Absorbed>, i: nat, j: nat,
                     c: Cell, d: Cell, finish: bool, w: Absorbed)
    requires CellOk(m, own, other, log, i, j, c, d, finish) && c.read && d.read
    requires w.seg == j && w.entry == i
    ensures CellOk(m, own, other, log + [w], i, j, c.(data := c.data.(word := w.word), dirty := true), d, false)
  {
    var n := |log|;
    WantPrefix(other, log, w, i, j, n);
    WantPrefix(other, log, w, i, j, c.flushed);
    assert (log + [w])[n] == w;
  }

  /** A write elsewhere changes nothing for this cell. */
  lemma ElsewhereCell(m: Data, own: Data, other: Data, log: seq<Absorbed>, i: nat, j: nat,
                      c: Cell, d: Cell, finish: bool, w: Absorbed)
    requires CellOk(m, own, other, log, i, j, c, d, finish) && !(w.seg == j && w.entry == i)
    ensures CellOk(m, own, other, log + [w], i, j, c, d, finish)
  {
    var n := |log|;
    WantPrefix(other, log, w, i, j, n);
    WantPrefix(other, log, w, i, j, c.flushed);
    assert (log + [w])[n] == w;
    assert forall k :: 0 <= k < n ==> (log + [w])[k] == log[k];
  }

  lemma WrittenSide(s: State, j: nat, i: nat, word: int, k: nat, l: nat)
    requires SizesOk(s) && Seg(j) && i < s.active && BothRead(s.buffer[i])
    requires k < s.active && Seg(l) && SideOk(s, k, l)
    ensures var t := Written(s, Base(s, j) + i, word, true);
            SizesOk(t) && t.active == s.active && SideOk(t, k, l)
  {
    var w := Absorbed(j, i, word);
    assert Locate(s, Base(s, j) + i) == Inside(j, i);
    var m, own, other := s.mem[Base(s, l) + k], Orig(s, l)[k], Orig(s, Other(l))[k];
    var c, d, f := Side(s.buffer[k], l), Side(s.buffer[k], Other(l)), s.buffer[k].finish;
    if k == i && l == j {
      AbsorbedCell(m, own, other, s.log, k, l, c, d, f, w);
    } else {
      ElsewhereCell(m, own, other, s.log, k, l, c, d, f, w);
    }
  }

  lemma PassedKeeps(s: State, addr: nat, d: Data, t: State)
    requires Inv(s) && addr < |s.mem| && Locate(s, addr).Outside? && t == s.(mem := s.mem[addr := d])
    ensures Inv(t)
  {
    forall i | 0 <= i < s.active ensures EntryOk(t, i) { assert EntryOk(s, i); }
    FlightsFrame(s, t);
  }

  lemma WrittenKeeps(s: State, addr: nat, word: int, ok: bool)
    requires Inv(s) && addr < |s.mem|
    ensures Inv(Written(s, addr, word, ok))
  {
    match Locate(s, addr)
    case Outside =>
      if ok { PassedKeeps(s, addr, s.mem[addr].(word := word), Written(s, addr, word, ok)); }
    case Inside(j, i) =>
      if BothRead(s.buffer[i]) { TakenKeeps(s, j, i, word); }
  }

  lemma TakenKeeps(s: State, j: nat, i: nat, word: int)
    requires Inv(s) && Seg(j) && i < s.active && BothRead(s.buffer[i])
    ensures Inv(Written(s, Base(s, j) + i, word, true))
  {
    var t := Written(s, Base(s, j) + i, word, true);
    assert Locate(s, Base(s, j) + i) == Inside(j, i);
    forall k | 0 <= k < s.active ensures SizesOk(t) && t.active == s.active && EntryOk(t, k) {
      assert EntryOk(s, k);
      WrittenSide(s, j, i, word, k, 1);
      WrittenSide(s, j, i, word, k, 2);
    }
    WrittenFlights(s, j, i, word);
    WrittenCount(s, j, i, word);
  }

  lemma WrittenFlights(s: State, j: nat, i: nat, word: int)
    requires Inv(s) && Seg(j) && i < s.active && BothRead(s.buffer[i])
    ensures var t := Written(s, Base(s, j) + i, word, true); SizesOk(t) && FlightsOk(t)
  {
    var t := Written(s, Base(s, j) + i, word, true);
    assert Locate(s, Base(s, j) + i) == Inside(j, i);
    FlightsFrame(s, t);
  }

  lemma WrittenCount(s: State, j: nat, i: nat, word: int)
    requires Inv(s) && Seg(j) && i < s.active && BothRead(s.buffer[i])
    ensures var t := Written(s, Base(s, j) + i, word, true);
            && |t.buffer| == ENTRIES && t.finished == FinishCount(t.buffer, s.active)
            && (forall k :: s.active <= k < ENTRIES ==> t.buffer[k] == EMPTY_ENTRY)
            && (forall k :: 0 <= k < |t.log| ==> Seg(t.log[k].seg) && t.log[k].entry < s.active)
  {
    var t := Written(s, Base(s, j) + i, word, true);
    assert Locate(s, Base(s, j) + i) == Inside(j, i);
    CountUpdate(s.buffer, i, t.buffer[i], s.active);
    if s.buffer[i].finish { CountPositive(s.buffer, s.active, i); }
  }

  // ----- Starting, growing, resetting ------------------------------------------------------------------

  lemma {:induction false} CountEmpty(b: seq<Entry>, m: nat, n: nat)
    requires m <= n <= |b| && forall k :: m <= k < n ==> !b[k].finish
    ensures FinishCount(b, n) == FinishCount(b, m)
  {
    if m < n { CountEmpty(b, m, n - 1); }
  }

  lemma NoFlights(s: State)
    requires SizesOk(s) && FlightsOk(s) && (forall i :: 0 <= i < s.active ==> BothRead(s.buffer[i]))
    ensures s.flights == []
  {
    assert |s.flights| > 0 ==> FlightOk(s, s.flights[0]);
  }

  lemma StartKeeps(s: State, base1: nat, base2: nat, size: nat)
    requires Inv(s) && Segments(s, base1, base2, size)
    ensures Inv(Start(s, base1, base2, size))
  {
    if !s.swapping {
      var t := Start(s, base1, base2, size);
      NoFlights(s);
      forall i | 0 <= i < size ensures EntryOk(t, i) {}
      CountEmpty(t.buffer, 0, size);
    }
  }

  lemma GrownEntries(s: State, t: State)
    requires Ok(s) && s.active < t.active && SizesOk(t) && t.mem == s.mem && t.buffer == s.buffer && t.log == s.log
    requires t.base1 == s.base1 && t.base2 == s.base2
    requires t.orig1 == s.orig1 + s.mem[s.base1 + s.active..s.base1 + t.active]
    requires t.orig2 == s.orig2 + s.mem[s.base2 + s.active..s.base2 + t.active]
    ensures forall i :: 0 <= i < t.active ==> EntryOk(t, i)
  {
    forall i | 0 <= i < s.active ensures EntryOk(t, i) { assert EntryOk(s, i); }
    forall i | s.active <= i < t.active ensures EntryOk(t, i) {}
  }

  lemma UpdateKeeps(s: State, base1: nat, base2: nat, size: nat)
    requires Ok(s) && Segments(s, base1, base2, size) && (s.swapping || Grows(s, base1, base2, size))
    ensures Inv(Update(s, base1, base2, size))
  {
    if Grows(s, base1, base2, size) {
      var t := Update(s, base1, base2, size);
      GrownEntries(s, t);
      CountEmpty(t.buffer, s.active, size);
      FlightsFrame(s, t);
    }
  }
}
