/** The swapping unit: a buffer that exchanges two segments of hardware lines over a memory that
    may stall and that answers reads late, while processor requests keep arriving. */
module SwappingUnit {

  const ENTRIES: nat := 64

  /** A line: the word a processor request carries and the rest of the line. */
  datatype Data = Data(word: int, rest: int)

  /** One side of a buffer entry: the data to be written to line `entry` of this segment, which
      comes from the other segment. `flushed` records how many absorbed writes the last write
      to memory contained. */
  datatype Cell = Cell(data: Data, issued: bool, read: bool, write: bool, dirty: bool, flushed: nat)

  datatype Entry = Entry(finish: bool, one: Cell, two: Cell)

  /** A read on its way, with the value it will return. */
  datatype Flight = Flight(addr: nat, value: Data)

  /** A processor write that was taken into the buffer. */
  datatype Absorbed = Absorbed(seg: nat, entry: nat, word: int)

  /** `orig1`, `orig2` and `log` record history: the lines as they were when they became part of
      the swap, and the processor writes absorbed since. Lines below `fast` are fast memory. */
  datatype State = State(mem: seq<Data>, fast: nat, buffer: seq<Entry>, base1: nat, base2: nat,
                         active: nat, finished: nat, swapping: bool, flights: seq<Flight>,
                         orig1: seq<Data>, orig2: seq<Data>, log: seq<Absorbed>)

  const EMPTY_CELL := Cell(Data(0, 0), false, false, false, false, 0)
  const EMPTY_ENTRY := Entry(false, EMPTY_CELL, EMPTY_CELL)

  predicate Seg(j: nat) {
    j == 1 || j == 2
  }

  function Other(j: nat): nat
    requires Seg(j)
  {
    3 - j
  }

  function Side(e: Entry, j: nat): Cell
    requires Seg(j)
  {
    if j == 1 then e.one else e.two
  }

  function SetSide(e: Entry, j: nat, c: Cell): Entry
    requires Seg(j)
  {
    if j == 1 then e.(one := c) else e.(two := c)
  }

  function Base(s: State, j: nat): nat
    requires Seg(j)
  {
    if j == 1 then s.base1 else s.base2
  }

  function Orig(s: State, j: nat): seq<Data>
    requires Seg(j)
  {
    if j == 1 then s.orig1 else s.orig2
  }

  predicate SizesOk(s: State) {
    && |s.buffer| == ENTRIES && s.active <= ENTRIES
    && |s.orig1| == |s.orig2| == s.active
    && s.base1 + s.active <= s.fast <= |s.mem|
    && (s.active > 0 ==> s.fast <= s.base2) && s.base2 + s.active <= |s.mem|
  }

  function SetCell(s: State, i: nat, j: nat, c: Cell): State
    requires i < |s.buffer| && Seg(j)
  {
    s.(buffer := s.buffer[i := SetSide(s.buffer[i], j, c)])
  }

  // ----- What the swap is to achieve -------------------------------------------------------------

  /** What a line is to hold after the first `n` absorbed writes: the line `d` that stood on the
      other side, with the words written to line `i` of segment `j` since. */
  function Want(d: Data, log: seq<Absorbed>, i: nat, j: nat, n: nat): Data
    requires n <= |log|
  {
    if n == 0 then d
    else
      var e := Want(d, log, i, j, n - 1);
      var w := log[n - 1];
      if w.seg == j && w.entry == i then e.(word := w.word) else e
  }

  /** A write was absorbed for the line after the first `n`. */
  predicate Touched(log: seq<Absorbed>, i: nat, j: nat, n: nat) {
    exists k :: n <= k < |log| && log[k].seg == j && log[k].entry == i
  }

  // ----- Starting and growing a swap ----------------------------------------------------------------

  /** The two segments lie in different memories. */
  predicate Segments(s: State, base1: nat, base2: nat, size: nat) {
    size <= ENTRIES && base1 + size <= s.fast <= base2 && base2 + size <= |s.mem|
  }

  function Start(s: State, base1: nat, base2: nat, size: nat): State
    requires Segments(s, base1, base2, size)
  {
    if s.swapping then s
    else s.(swapping := true, base1 := base1, base2 := base2, active := size,
            orig1 := s.mem[base1..base1 + size], orig2 := s.mem[base2..base2 + size], log := [])
  }

  predicate Grows(s: State, base1: nat, base2: nat, size: nat) {
    base1 == s.base1 && base2 == s.base2 && size > s.active
  }

  function Update(s: State, base1: nat, base2: nat, size: nat): State
    requires Segments(s, base1, base2, size)
  {
    if Grows(s, base1, base2, size) then
      s.(active := size, swapping := true,
         orig1 := s.orig1 + s.mem[base1 + s.active..base1 + size],
         orig2 := s.orig2 + s.mem[base2 + s.active..base2 + size])
    else s
  }

  function Reset(s: State): State {
    s.(swapping := false, buffer := seq(ENTRIES, i => EMPTY_ENTRY), base1 := 0, base2 := 0,
       active := 0, finished := 0, orig1 := [], orig2 := [], log := [])
  }

  // ----- One round of the unit -------------------------------------------------------------------------

  /** Rounds change neither the segments nor what is to be achieved. */
  predicate SameSwap(s: State, t: State) {
    && t.base1 == s.base1 && t.base2 == s.base2 && t.active == s.active && t.fast == s.fast
    && t.log == s.log && t.orig1 == s.orig1 && t.orig2 == s.orig2 && t.swapping == s.swapping
    && |t.mem| == |s.mem|
  }

  /** Which sends the memory accepts in a round. */
  datatype Accepts = Accepts(read: (nat, nat) -> bool, write: (nat, nat) -> bool)

  function SendRead(s: State, i: nat, j: nat, ok: bool): (t: State)
    requires SizesOk(s) && i < s.active && Seg(j)
    ensures SizesOk(t) && SameSwap(s, t) && t.mem == s.mem
  {
    var c := Side(s.buffer[i], j);
    if c.issued || !ok then s
    else
      var addr := Base(s, j) + i;
      SetCell(s, i, j, c.(issued := true)).(flights := s.flights + [Flight(addr, s.mem[addr])])
  }

  function EntryReads(s: State, i: nat, a: Accepts): (t: State)
    requires SizesOk(s) && i < s.active
    ensures SizesOk(t) && SameSwap(s, t) && t.mem == s.mem
  {
    if s.buffer[i].finish then s else SendRead(SendRead(s, i, 1, a.read(i, 1)), i, 2, a.read(i, 2))
  }

  function ReadPhase(s: State, n: nat, a: Accepts): (t: State)
    requires SizesOk(s) && n <= s.active
    ensures SizesOk(t) && SameSwap(s, t) && t.mem == s.mem
  {
    if n == 0 then s else EntryReads(ReadPhase(s, n - 1, a), n - 1, a)
  }

  predicate BothRead(e: Entry) {
    e.one.read && e.two.read
  }

  function SendWrite(s: State, i: nat, j: nat, ok: bool): (t: State)
    requires SizesOk(s) && i < s.active && Seg(j)
    ensures SizesOk(t) && SameSwap(s, t) && t.flights == s.flights
  {
    var c := Side(s.buffer[i], j);
    if (c.write && !c.dirty) || !ok then s
    else SetCell(s, i, j, c.(write := true, dirty := false, flushed := |s.log|))
         .(mem := s.mem[Base(s, j) + i := c.data])
  }

  function Mark(s: State, i: nat): (t: State)
    requires SizesOk(s) && i < s.active
    ensures SizesOk(t) && SameSwap(s, t) && t.flights == s.flights
  {
    var e := s.buffer[i];
    if e.one.write && e.two.write then
      s.(buffer := s.buffer[i := e.(finish := true)], finished := s.finished + 1)
    else s
  }

  function EntryWrites(s: State, i: nat, a: Accepts): (t: State)
    requires SizesOk(s) && i < s.active
    ensures SizesOk(t) && SameSwap(s, t) && t.flights == s.flights
  {
    if s.buffer[i].finish then s
    else if BothRead(s.buffer[i]) then
      Mark(SendWrite(SendWrite(s, i, 1, a.write(i, 1)), i, 2, a.write(i, 2)), i)
    else Mark(s, i)
  }

  function WritePhase(s: State, n: nat, a: Accepts): (t: State)
    requires SizesOk(s) && n <= s.active
    ensures SizesOk(t) && SameSwap(s, t) && t.flights == s.flights
  {
    if n == 0 then s else EntryWrites(WritePhase(s, n - 1, a), n - 1, a)
  }

  datatype Status = Idle | Busy | Done

  function Operated(s: State, a: Accepts): State
    requires SizesOk(s)
  {
    if !s.swapping then s
    else
      var t := WritePhase(ReadPhase(s, s.active, a), s.active, a);
      if t.finished == t.active then t.(swapping := false) else t
  }

  function StatusOf(s: State, a: Accepts): Status
    requires SizesOk(s)
  {
    if !s.swapping then Idle else if Operated(s, a).swapping then Busy else Done
  }

  // ----- Answers and processor requests ---------------------------------------------------------------------

  datatype Place = Outside | Inside(seg: nat, entry: nat)

  /** Where a hardware line lies relative to the active segments. */
  function Locate(s: State, addr: nat): (p: Place)
    ensures p.Inside? ==> Seg(p.seg) && p.entry < s.active && addr == Base(s, p.seg) + p.entry
    ensures p.Outside? ==> !(0 <= addr - s.base1 < s.active) && !(0 <= addr - s.base2 < s.active)
  {
    if s.base1 <= addr < s.base1 + s.active then Inside(1, addr - s.base1)
    else if s.base2 <= addr < s.base2 + s.active then Inside(2, addr - s.base2)
    else Outside
  }

  /** Read `k` on its way is answered. */
  function Returned(s: State, k: nat): State
    requires SizesOk(s) && k < |s.flights|
  {
    var f := s.flights[k];
    var t := s.(flights := s.flights[..k] + s.flights[k + 1..]);
    if !s.swapping then t
    else
      match Locate(s, f.addr)
      case Outside => t
      case Inside(seg, i) =>
        var e := s.buffer[i];
        var c := Side(e, Other(seg));
        if !e.finish && !c.write && !c.dirty then SetCell(t, i, Other(seg), c.(data := f.value, read := true))
        else t
  }

  datatype Answer = Stall | ToMemory | FromBuffer(word: int)

  function CheckRead(s: State, addr: nat): Answer
    requires SizesOk(s)
  {
    match Locate(s, addr)
    case Outside => ToMemory
    case Inside(j, i) =>
      var e := s.buffer[i];
      var c := Side(e, j);
      if e.finish || c.read || c.write || c.dirty then FromBuffer(c.data.word) else Stall
  }

  function CheckWrite(s: State, addr: nat, word: int): Answer
    requires SizesOk(s)
  {
    match Locate(s, addr)
    case Outside => ToMemory
    case Inside(j, i) => if BothRead(s.buffer[i]) then FromBuffer(word) else Stall
  }

  /** A processor write: absorbed by the buffer, held back, or sent to memory. */
  function Written(s: State, addr: nat, word: int, ok: bool): State
    requires SizesOk(s) && addr < |s.mem|
  {
    match Locate(s, addr)
    case Outside => if ok then s.(mem := s.mem[addr := s.mem[addr].(word := word)]) else s
    case Inside(j, i) =>
      var e := s.buffer[i];
      if BothRead(e) then
        var c := Side(e, j);
        var e' := SetSide(e, j, c.(data := c.data.(word := word), dirty := true));
        s.(buffer := s.buffer[i := e'.(finish := false)],
           finished := if e.finish && s.finished > 0 then s.finished - 1 else s.finished,
           log := s.log + [Absorbed(j, i, word)])
      else s
  }
}
