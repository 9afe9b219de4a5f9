/** Which line a hardware address stands for while a swap is under way. */
module SwappingValues {
  import opened SwappingUnit
  import opened SwappingInvariants
  import opened SwappingRuns

  /** The line that stood at `x` when the swap began, or that stands there when none is under way, with
      what the processor has made of it since. */
  function LineOf(s: State, x: nat): Data
    requires SizesOk(s) && x < |s.mem|
  {
    match Locate(s, x)
    case Outside => s.mem[x]
    case Inside(j, i) => Want(Orig(s, j)[i], s.log, i, Other(j), |s.log|)
  }

  /** The address on the other side; the place itself outside the segments. */
  function Facing(s: State, x: nat): nat {
    match Locate(s, x)
    case Outside => x
    case Inside(j, i) => Base(s, Other(j)) + i
  }

  lemma LocateFacing(s: State, x: nat)
    requires SizesOk(s) && x < |s.mem|
    ensures Facing(s, x) < |s.mem| && Facing(s, Facing(s, x)) == x
    ensures Locate(s, Facing(s, x)) == match Locate(s, x)
      case Outside => Outside
      case Inside(j, i) => Inside(Other(j), i)
  {
  }

  // ----- Rounds and answers ------------------------------------------------------------------------

  lemma OperatedLines(s: State, a: Accepts, t: State, x: nat)
    requires Inv(s) && s.swapping && t == Operated(s, a).(swapping := true) && x < |s.mem|
    ensures SizesOk(t) && |t.mem| == |s.mem| && t.active == s.active && t.fast == s.fast && t.log == s.log
    ensures LineOf(t, x) == LineOf(s, x)
  {
    OperatedKeeps(s, a);
  }

  lemma GrownLines(s: State, ask: Ask, t: State, x: nat)
    requires SizesOk(s) && ask.Ask? && Segments(s, ask.base1, ask.base2, ask.size) && x < |s.mem|
    requires t == Update(s, ask.base1, ask.base2, ask.size) && SizesOk(t)
    requires forall k :: 0 <= k < |s.log| ==> s.log[k].entry < s.active
    ensures |t.mem| == |s.mem| && LineOf(t, x) == LineOf(s, x)
  {
    match Locate(t, x)
    case Outside =>
    case Inside(j, i) =>
      if i >= s.active {
        assert Locate(s, x).Outside?;
        assert Orig(t, j)[i] == s.mem[x];
        WantSettled(s.mem[x], s.log, i, Other(j), 0, |s.log|);
      }
  }

  /** A cycle that does not end a swap changes no line. */
  lemma RoundKeepsLines(s: State, a: Accepts, ask: Ask, x: nat)
    requires Inv(s) && AskOk(s, ask) && x < |s.mem| && (s.swapping ==> Rounded(s, a, ask).swapping)
    ensures LineOf(Rounded(s, a, ask), x) == LineOf(s, x)
  {
    var t := Rounded(s, a, ask);
    if s.swapping {
      var u := Operated(s, a).(swapping := true);
      OperatedLines(s, a, u, x);
      RoundedGrows(s, a, ask, Operated(s, a));
      GrownLines(u, ask, t, x);
    } else if ask.Ask? {
      StartedLines(s, ask, x);
    }
  }

  lemma StartedLines(s: State, ask: Ask, x: nat)
    requires Inv(s) && !s.swapping && ask.Ask? && Segments(s, ask.base1, ask.base2, ask.size) && x < |s.mem|
    ensures SizesOk(Start(s, ask.base1, ask.base2, ask.size))
    ensures LineOf(Start(s, ask.base1, ask.base2, ask.size), x) == LineOf(s, x)
  {
    StartKeeps(s, ask.base1, ask.base2, ask.size);
  }

  lemma ReturnKeepsLines(s: State, k: nat, x: nat)
    requires Inv(s) && k < |s.flights| && x < |s.mem|
    ensures SizesOk(Returned(s, k)) && LineOf(Returned(s, k), x) == LineOf(s, x)
  {
  }

  /** The round leaves the last word of the line at `x` behind. */
  predicate Lost(s: State, a: Accepts, x: nat)
    requires SizesOk(s)
  {
    match Locate(s, x)
    case Outside => false
    case Inside(j, i) => LeftBehind(s, a, i, Other(j))
  }

  /** A cycle that ends a swap takes every line to the other side, unless its last word is left
      behind. */
  lemma RoundMovesLines(s: State, a: Accepts, ask: Ask, x: nat)
    requires Inv(s) && AskOk(s, ask) && s.swapping && !Rounded(s, a, ask).swapping && x < |s.mem|
    ensures Facing(s, x) < |s.mem|
    ensures LineOf(Rounded(s, a, ask), Facing(s, x)) == LineOf(s, x) <==> !Lost(s, a, x)
  {
    LocateFacing(s, x);
    OperatedKeeps(s, a);
    assert Rounded(s, a, ask) == Reset(Operated(s, a));
    match Locate(s, x)
    case Outside =>
    case Inside(j, i) => CompletionExact(s, a, i, Other(j));
  }

  // ----- Processor requests ----------------------------------------------------------------------------

  predicate Taken(s: State, addr: nat, word: int, ok: bool)
    requires SizesOk(s)
  {
    var answer := CheckWrite(s, addr, word);
    answer.FromBuffer? || (answer.ToMemory? && ok)
  }

  /** A write that is taken goes to the line that faces its address, and to no other. */
  lemma WriteLands(s: State, addr: nat, word: int, ok: bool, x: nat)
    requires Inv(s) && addr < |s.mem| && x < |s.mem|
    ensures SizesOk(Written(s, addr, word, ok))
    ensures LineOf(Written(s, addr, word, ok), x) ==
      if Taken(s, addr, word, ok) && x == Facing(s, addr) then LineOf(s, x).(word := word) else LineOf(s, x)
  {
    WrittenKeeps(s, addr, word, ok);
    var t := Written(s, addr, word, ok);
    if CheckWrite(s, addr, word).FromBuffer? {
      var p := Locate(s, addr);
      assert t.log == s.log + [Absorbed(p.seg, p.entry, word)];
      if Locate(s, x).Inside? {
        var q := Locate(s, x);
        WantPrefix(Orig(s, q.seg)[q.entry], s.log, Absorbed(p.seg, p.entry, word), q.entry, Other(q.seg), |s.log|);
      }
    }
  }

  /** A read that is answered, from the buffer or by the memory, gets the line that faces its address. */
  lemma ReadShows(s: State, addr: nat)
    requires Inv(s) && addr < |s.mem|
    ensures Facing(s, addr) < |s.mem|
    ensures match CheckRead(s, addr)
      case Stall => true
      case ToMemory => s.mem[addr] == LineOf(s, Facing(s, addr))
      case FromBuffer(word) => word == LineOf(s, Facing(s, addr)).word
  {
    LocateFacing(s, addr);
    ReadsServed(s, addr);
  }
}
