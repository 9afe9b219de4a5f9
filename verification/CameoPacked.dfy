/** The line location table packed into sixteen bits per group: five fields of three bits, refining
    the array form at every step. */
module CameoPacked {
  import opened Cameo

  const MEMBERS: nat := 5
  const DEFAULT: bv16 := 0x0538

  // ----- Fields of a word -----------------------------------------------------------------------------

  /** Member 0 is in bits 15 to 13, member 1 in 12 to 10, and so on; bit 0 is spare. */
  function Mask(i: nat): bv16
    requires i < MEMBERS
  {
    if i == 0 then 0xE000
    else if i == 1 then 0x1C00
    else if i == 2 then 0x0380
    else if i == 3 then 0x0070
    else 0x000E
  }

  /** The bits of a field, moved to the bottom. */
  function Field(w: bv16, i: nat): bv16
    requires i < MEMBERS
  {
    if i == 0 then (w & 0xE000) >> 13
    else if i == 1 then (w & 0x1C00) >> 10
    else if i == 2 then (w & 0x0380) >> 7
    else if i == 3 then (w & 0x0070) >> 4
    else (w & 0x000E) >> 1
  }

  /** A location, moved up to its field. */
  function Lifted(v: bv16, i: nat): bv16
    requires i < MEMBERS
  {
    if i == 0 then v << 13
    else if i == 1 then v << 10
    else if i == 2 then v << 7
    else if i == 3 then v << 4
    else v << 1
  }

  /** The field replaced by the same bits of `bits`. */
  function Replaced(w: bv16, bits: bv16, i: nat): bv16
    requires i < MEMBERS
  {
    (w & !Mask(i)) | (bits & Mask(i))
  }

  lemma ReplacedAt0(w: bv16, v: bv16, i: nat, j: nat)
    requires i == 0 && j < MEMBERS && v <= 7
    ensures Field(Replaced(w, Lifted(v, i), i), j) == if j == i then v else Field(w, j)
    ensures Replaced(w, Lifted(v, i), i) & 1 == w & 1
  {
  }

  lemma ReplacedAt1(w: bv16, v: bv16, i: nat, j: nat)
    requires i == 1 && j < MEMBERS && v <= 7
    ensures Field(Replaced(w, Lifted(v, i), i), j) == if j == i then v else Field(w, j)
    ensures Replaced(w, Lifted(v, i), i) & 1 == w & 1
  {
  }

  lemma ReplacedAt2(w: bv16, v: bv16, i: nat, j: nat)
    requires i == 2 && j < MEMBERS && v <= 7
    ensures Field(Replaced(w, Lifted(v, i), i), j) == if j == i then v else Field(w, j)
    ensures Replaced(w, Lifted(v, i), i) & 1 == w & 1
  {
  }

  lemma ReplacedAt3(w: bv16, v: bv16, i: nat, j: nat)
    requires i == 3 && j < MEMBERS && v <= 7
    ensures Field(Replaced(w, Lifted(v, i), i), j) == if j == i then v else Field(w, j)
    ensures Replaced(w, Lifted(v, i), i) & 1 == w & 1
  {
  }

  lemma ReplacedAt4(w: bv16, v: bv16, i: nat, j: nat)
    requires i == 4 && j < MEMBERS && v <= 7
    ensures Field(Replaced(w, Lifted(v, i), i), j) == if j == i then v else Field(w, j)
    ensures Replaced(w, Lifted(v, i), i) & 1 == w & 1
  {
  }

  /** A field written is a field read back; no other field and no spare bit changes. */
  lemma ReplacedField(w: bv16, v: bv16, i: nat, j: nat)
    requires i < MEMBERS && j < MEMBERS && v <= 7
    ensures Field(Replaced(w, Lifted(v, i), i), j) == if j == i then v else Field(w, j)
    ensures Replaced(w, Lifted(v, i), i) & 1 == w & 1
  {
    if i == 0 {
      ReplacedAt0(w, v, i, j);
    } else if i == 1 {
      ReplacedAt1(w, v, i, j);
    } else if i == 2 {
      ReplacedAt2(w, v, i, j);
    } else if i == 3 {
      ReplacedAt3(w, v, i, j);
    } else {
      ReplacedAt4(w, v, i, j);
    }
  }

  lemma FieldSmall(w: bv16, i: nat)
    requires i < MEMBERS
    ensures Field(w, i) <= 7
  {
  }

  // ----- A word as an entry ------------------------------------------------------------------------------

  function Location(w: bv16, i: nat): nat
    requires i < MEMBERS
  {
    Field(w, i) as nat
  }

  function Unpack(w: bv16): (e: Entry)
    ensures |e| == MEMBERS && forall i :: 0 <= i < MEMBERS ==> e[i] == Location(w, i)
  {
    seq(MEMBERS, i requires 0 <= i < MEMBERS => Location(w, i))
  }

  /** The two writes of a finish; both locations are read before the first. */
  function SwappedWord(w: bv16, fm: nat, sm: nat): bv16
    requires fm < MEMBERS && sm < MEMBERS
  {
    var f, m := Field(w, fm), Field(w, sm);
    var x := Replaced(w, Lifted(f, sm), sm);
    Replaced(x, Lifted(m, fm), fm)
  }

  lemma SwappedWordExact(w: bv16, fm: nat, sm: nat)
    requires fm < MEMBERS && sm < MEMBERS
    ensures Unpack(SwappedWord(w, fm, sm)) == Swapped(Unpack(w), fm, sm)
    ensures SwappedWord(w, fm, sm) & 1 == w & 1
  {
    var f, m := Field(w, fm), Field(w, sm);
    FieldSmall(w, fm);
    FieldSmall(w, sm);
    var x := Replaced(w, Lifted(f, sm), sm);
    ReplacedField(x, m, fm, fm);
    ReplacedField(w, f, sm, fm);
    forall i | 0 <= i < MEMBERS
      ensures Field(SwappedWord(w, fm, sm), i) == if i == fm then m else if i == sm then f else Field(w, i)
    {
      ReplacedField(w, f, sm, i);
      ReplacedField(x, m, fm, i);
    }
  }

  lemma DefaultIsIdentity()
    ensures Unpack(DEFAULT) == Identity(MEMBERS) && DEFAULT & 1 == 0
  {
    assert Field(DEFAULT, 0) == 0 && Field(DEFAULT, 1) == 1 && Field(DEFAULT, 2) == 2;
    assert Field(DEFAULT, 3) == 3 && Field(DEFAULT, 4) == 4;
  }

  // ----- The machine over packed words --------------------------------------------------------------------

  datatype Packed = Packed(fast: nat, members: nat, threshold: nat, words: seq<bv16>, counter: seq<nat>,
                           hot: seq<bool>, queue: seq<Request>, congestion: nat)

  /** The array form of the packed tables. */
  function Abs(p: Packed): State {
    State(p.fast, p.members, MEMBERS, p.threshold, seq(|p.words|, g requires 0 <= g < |p.words| => Unpack(p.words[g])),
          p.counter, p.hot, p.queue, p.congestion)
  }

  datatype PackedOutcome = Ongoing(packed: Packed) | Aborted

  function AbsOutcome(o: PackedOutcome): Outcome {
    match o
    case Ongoing(p) => Running(Abs(p))
    case Aborted => Stopped
  }

  function PackedInitial(fast: nat, members: nat, threshold: nat): Packed {
    Packed(fast, members, threshold, seq(fast, g => DEFAULT), seq(fast * members, b => 0),
           seq(fast * members, b => false), [], 0)
  }

  function FindZeroField(w: bv16, i: nat): (k: nat)
    requires i <= MEMBERS
    decreases MEMBERS - i
  {
    if i == MEMBERS || Field(w, i) == 0 then i else FindZeroField(w, i + 1)
  }

  function PackedEnqueued(p: Packed, r: Request): PackedOutcome
    requires Sized(Abs(p))
  {
    if exists k :: 0 <= k < |p.queue| && p.queue[k].fmLine % p.fast == r.fmLine % p.fast then Ongoing(p)
    else if |p.queue| >= QUEUE_LENGTH then Ongoing(p.(congestion := p.congestion + 1))
    else if r.fmLine == r.smLine then Aborted
    else Ongoing(p.(queue := p.queue + [r]))
  }

  function PackedCounted(p: Packed, line: nat): (q: Packed)
    requires Sized(Abs(p)) && line < |p.counter|
    ensures Abs(q) == Counted(Abs(p), line) && q.words == p.words && q.fast == p.fast
  {
    var c := if p.counter[line] < COUNTER_MAX then p.counter[line] + 1 else p.counter[line];
    p.(counter := p.counter[line := c], hot := p.hot[line := p.hot[line] || c >= p.threshold])
  }

  /** The exchange that brings member `m` of group `g` into fast memory. */
  function PackedPlanned(p: Packed, g: nat, m: nat, busy: bool): PackedOutcome
    requires Sized(Abs(p)) && g < |p.words| && m < MEMBERS
  {
    var w := p.words[g];
    var k := FindZeroField(w, 0);
    if k >= MEMBERS || Field(w, k) == Field(w, m) then Aborted
    else if busy then Ongoing(p)
    else PackedEnqueued(p, Request(LineAt(Abs(p), Location(w, k), g), LineAt(Abs(p), Location(w, m), g), k, m))
  }

  function PackedTracked(p: Packed, line: nat, busy: bool): PackedOutcome
    requires Sized(Abs(p))
  {
    if line >= |p.counter| then Ongoing(p)
    else
      var g, m := Group(Abs(p), line), Member(Abs(p), line);
      if m >= MEMBERS then Aborted
      else
        var q := PackedCounted(p, line);
        if !q.hot[line] || Field(p.words[g], m) == 0 then Ongoing(q)
        else PackedPlanned(q, g, m, busy)
  }

  function WordSum(w: bv16, n: nat): nat
    requires n <= MEMBERS
  {
    if n == 0 then 0 else (WordSum(w, n - 1) + Location(w, n - 1)) % 256
  }

  function PackedFinished(p: Packed): PackedOutcome
    requires Sized(Abs(p))
  {
    if p.queue == [] then Aborted
    else
      var r := p.queue[0];
      var g := r.fmLine % p.fast;
      var w := p.words[g];
      if r.fm >= MEMBERS || r.sm >= MEMBERS || Field(w, r.fm) == Field(w, r.sm) then Aborted
      else
        var x := SwappedWord(w, r.fm, r.sm);
        if WordSum(x, MEMBERS) != WrapSum(Identity(MEMBERS), MEMBERS) then Aborted
        else Ongoing(p.(queue := p.queue[1..], words := p.words[g := x]))
  }

  // ----- Refinement ---------------------------------------------------------------------------------------------

  lemma InitialRefines(fast: nat, members: nat, threshold: nat)
    ensures Abs(PackedInitial(fast, members, threshold)) == Initial(fast, members, MEMBERS, threshold)
  {
    DefaultIsIdentity();
  }

  lemma {:induction false} FindZeroRefines(w: bv16, i: nat)
    requires i <= MEMBERS
    ensures FindZeroField(w, i) == FindZero(Unpack(w), i)
    decreases MEMBERS - i
  {
    if i < MEMBERS {
      SameLocation(w, i, 0);
      FindZeroRefines(w, i + 1);
    }
  }

  /** Fields are equal when their locations are. */
  lemma SameLocation(w: bv16, i: nat, v: bv16)
    requires i < MEMBERS
    ensures Location(w, i) == v as nat <==> Field(w, i) == v
  {
    var f := Field(w, i);
    assert f as nat == v as nat ==> (f as nat) as bv16 == (v as nat) as bv16;
  }

  lemma {:induction false} WordSumRefines(w: bv16, n: nat)
    requires n <= MEMBERS
    ensures WordSum(w, n) == WrapSum(Unpack(w), n)
  {
    if n > 0 { WordSumRefines(w, n - 1); }
  }

  lemma EnqueuedRefines(p: Packed, r: Request)
    requires Sized(Abs(p))
    ensures AbsOutcome(PackedEnqueued(p, r)) == Enqueued(Abs(p), r)
  {
  }

  lemma PlannedRefines(p: Packed, g: nat, m: nat, busy: bool)
    requires Sized(Abs(p)) && g < |p.words| && m < MEMBERS
    ensures var s := Abs(p);
      var e := s.entries[g];
      var k := FindZero(e, 0);
      AbsOutcome(PackedPlanned(p, g, m, busy)) ==
        if k == |e| || e[k] == e[m] then Stopped
        else if busy then Running(s)
        else Enqueued(s, Request(LineAt(s, e[k], g), LineAt(s, e[m], g), k, m))
  {
    var w := p.words[g];
    FindZeroRefines(w, 0);
    var k := FindZeroField(w, 0);
    if k < MEMBERS {
      SameLocation(w, k, Field(w, m));
      EnqueuedRefines(p, Request(LineAt(Abs(p), Location(w, k), g), LineAt(Abs(p), Location(w, m), g), k, m));
    }
  }

  lemma TrackedRefines(p: Packed, line: nat, busy: bool)
    requires Sized(Abs(p))
    ensures AbsOutcome(PackedTracked(p, line, busy)) == Tracked(Abs(p), line, busy)
  {
    if line < |p.counter| && Member(Abs(p), line) < MEMBERS {
      var g, m := Group(Abs(p), line), Member(Abs(p), line);
      SameLocation(p.words[g], m, 0);
      PlannedRefines(PackedCounted(p, line), g, m, busy);
    }
  }

  lemma FinishedRefines(p: Packed)
    requires Sized(Abs(p))
    ensures AbsOutcome(PackedFinished(p)) == Finished(Abs(p))
  {
    if p.queue != [] {
      var r := p.queue[0];
      var w := p.words[r.fmLine % p.fast];
      if r.fm < MEMBERS && r.sm < MEMBERS {
        SameLocation(w, r.fm, Field(w, r.sm));
        SwappedWordExact(w, r.fm, r.sm);
        WordSumRefines(SwappedWord(w, r.fm, r.sm), MEMBERS);
      }
    }
  }

  function PackedStep(p: Packed, e: Event): (q: Packed)
    requires Inv(Abs(p))
    ensures Inv(Abs(q)) && Abs(q) == Step(Abs(p), e)
  {
    match e
    case Access(line, busy) =>
      TrackedRefines(p, line, busy);
      TrackedKeeps(Abs(p), line, busy);
      PackedTracked(p, line, busy).packed
    case Complete =>
      if p.queue == [] then p
      else
        FinishedRefines(p);
        FinishedKeeps(Abs(p));
        PackedFinished(p).packed
  }

  ghost function PackedAfter(p: Packed, events: seq<Event>): Packed
    requires Inv(Abs(p))
    decreases |events|
  {
    if events == [] then p else PackedAfter(PackedStep(p, events[0]), events[1..])
  }

  /** At every point of every run the packed table says what the array form says. */
  lemma {:induction false} RunRefines(p: Packed, events: seq<Event>)
    requires Inv(Abs(p))
    ensures Abs(PackedAfter(p, events)) == StateAfter(Abs(p), events)
    decreases |events|
  {
    if events != [] { RunRefines(PackedStep(p, events[0]), events[1..]); }
  }

  /** From tables in which every word is 0x0538, the packed form follows the array form through any
      run. */
  lemma PackedRun(fast: nat, members: nat, threshold: nat, events: seq<Event>)
    requires 0 < fast && 1 <= members <= MEMBERS
    ensures Inv(Initial(fast, members, MEMBERS, threshold))
    ensures Abs(PackedInitial(fast, members, threshold)) == Initial(fast, members, MEMBERS, threshold)
    ensures Abs(PackedAfter(PackedInitial(fast, members, threshold), events))
         == StateAfter(Initial(fast, members, MEMBERS, threshold), events)
  {
    InitialRefines(fast, members, threshold);
    InitialKeeps(fast, members, MEMBERS, threshold);
    RunRefines(PackedInitial(fast, members, threshold), events);
  }
}
