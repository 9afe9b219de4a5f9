/** One set of the variable-granularity remapper. */
module PlacementEntry {

  const LINES: nat := 64 // data lines in a page
  const SLOTS: nat := 5 // groups an entry can hold

  /** `size` fast lines hold lines `start..start+size` of slow page `tag`; tag 0 marks a hole. */
  datatype Group = Group(tag: nat, start: nat, size: nat)

  /** The groups record which lines of slow pages have traded places with lines of the set's fast
      page. The table keeps five slots and a cursor per set; no slot at or beyond the cursor is
      ever read, so an entry is the sequence of its live groups and the cursor is the length. */
  type Entry = seq<Group>

  /** A line of the set: page 0 is the fast page, every other page is a slow page. */
  datatype Line = Line(tag: nat, line: nat)

  // ----- Layout ------------------------------------------------------------------------

  /** First fast line of group `i`; groups are packed end to end. */
  function Offset(e: Entry, i: nat): nat
    requires i <= |e|
  {
    if i == 0 then 0 else Offset(e, i - 1) + e[i - 1].size
  }

  function Used(e: Entry): nat {
    Offset(e, |e|)
  }

  predicate WellFormed(e: Entry) {
    && |e| <= SLOTS
    && Used(e) <= LINES
    && forall i :: 0 <= i < |e| ==> 1 <= e[i].size && e[i].start + e[i].size <= LINES
  }

  /** The cursor never rests just behind a hole. */
  predicate Trimmed(e: Entry) {
    e != [] ==> e[|e| - 1].tag != 0
  }

  predicate Apart(s1: nat, n1: nat, s2: nat, n2: nat) {
    s1 + n1 <= s2 || s2 + n2 <= s1
  }

  /** No slow line is claimed by two groups. */
  predicate Disjoint(e: Entry) {
    forall i, j :: 0 <= i < j < |e| && e[i].tag != 0 && e[i].tag == e[j].tag ==>
      Apart(e[i].start, e[i].size, e[j].start, e[j].size)
  }

  lemma {:induction false} OffsetAgrees(e: Entry, f: Entry, i: nat)
    requires i <= |e| && i <= |f|
    requires forall j :: 0 <= j < i ==> e[j].size == f[j].size
    ensures Offset(e, i) == Offset(f, i)
  {
    if i > 0 {
      OffsetAgrees(e, f, i - 1);
    }
  }

  lemma {:induction false} OffsetGrows(e: Entry, i: nat, j: nat)
    requires i <= j <= |e|
    ensures Offset(e, i) <= Offset(e, j)
    ensures i < j ==> Offset(e, i) + e[i].size <= Offset(e, j)
  {
    if i < j {
      OffsetGrows(e, i, j - 1);
    }
  }

  // ----- Translation -------------------------------------------------------------------

  predicate Covers(g: Group, tag: nat, line: nat) {
    g.tag == tag && g.start <= line < g.start + g.size
  }

  /** First group at or behind `i` that holds line `line` of slow page `tag`. */
  function FindSlow(e: Entry, tag: nat, line: nat, i: nat): (k: nat)
    requires i <= |e|
    ensures i <= k <= |e|
    ensures k < |e| ==> Covers(e[k], tag, line)
    ensures forall j :: i <= j < k ==> !Covers(e[j], tag, line)
    decreases |e| - i
  {
    if i == |e| || Covers(e[i], tag, line) then i else FindSlow(e, tag, line, i + 1)
  }

  /** First group at or behind `i` that ends behind fast line `line`. */
  function FindFast(e: Entry, line: nat, i: nat): (k: nat)
    requires i <= |e|
    ensures i <= k <= |e|
    ensures k < |e| ==> line < Offset(e, k) + e[k].size
    ensures forall j :: i <= j < k ==> Offset(e, j) + e[j].size <= line
    decreases |e| - i
  {
    if i == |e| || line < Offset(e, i) + e[i].size then i else FindFast(e, line, i + 1)
  }

  /** Where the data of a physical line is kept. */
  function Translate(e: Entry, p: Line): Line {
    if p.tag != 0 then
      var k := FindSlow(e, p.tag, p.line, 0);
      if k < |e| then Line(0, Offset(e, k) + (p.line - e[k].start)) else p
    else
      var k := FindFast(e, p.line, 0);
      if k < |e| && e[k].tag != 0 && Offset(e, k) <= p.line then
        Line(e[k].tag, e[k].start + (p.line - Offset(e, k)))
      else p
  }

  predicate InPage(p: Line) {
    p.line < LINES
  }

  lemma FastSlot(e: Entry, k: nat, line: nat)
    requires k < |e| && Offset(e, k) <= line < Offset(e, k) + e[k].size
    ensures FindFast(e, line, 0) == k
  {
    var f := FindFast(e, line, 0);
    if f < k {
      OffsetGrows(e, f, k);
    }
  }

  lemma SlowSlot(e: Entry, k: nat, line: nat)
    requires Disjoint(e)
    requires k < |e| && e[k].tag != 0 && Covers(e[k], e[k].tag, line)
    ensures FindSlow(e, e[k].tag, line, 0) == k
  {
    var f := FindSlow(e, e[k].tag, line, 0);
    assert f < k ==> Apart(e[f].start, e[f].size, e[k].start, e[k].size);
  }

  // ----- Exchanging two line intervals ---------------------------------------------------

  /** Lines `fast..fast+n` of the fast page trade places with lines `slow..slow+n` of page `tag`. */
  function Exchange(fast: nat, tag: nat, slow: nat, n: nat, l: Line): Line {
    if l.tag == 0 && fast <= l.line < fast + n then Line(tag, slow + (l.line - fast))
    else if l.tag == tag && slow <= l.line < slow + n then Line(0, fast + (l.line - slow))
    else l
  }

  lemma ExchangeInvolution(fast: nat, tag: nat, slow: nat, n: nat, l: Line)
    requires tag != 0
    ensures Exchange(fast, tag, slow, n, Exchange(fast, tag, slow, n, l)) == l
  {
  }

  /** Group `k` moves the line: it is one of the fast or of the slow lines the group exchanges. */
  predicate MovedBy(e: Entry, k: nat, p: Line) {
    && k < |e| && e[k].tag != 0
    && (if p.tag == 0 then Offset(e, k) <= p.line < Offset(e, k) + e[k].size
        else Covers(e[k], p.tag, p.line))
  }

  function Partner(e: Entry, k: nat, p: Line): Line
    requires k < |e|
  {
    Exchange(Offset(e, k), e[k].tag, e[k].start, e[k].size, p)
  }

  lemma TranslateMoved(e: Entry, k: nat, p: Line)
    requires Disjoint(e) && MovedBy(e, k, p)
    ensures Translate(e, p) == Partner(e, k, p)
  {
    if p.tag == 0 {
      FastSlot(e, k, p.line);
    } else {
      SlowSlot(e, k, p.line);
    }
  }

  lemma TranslateHome(e: Entry, p: Line)
    requires forall k :: !MovedBy(e, k, p)
    ensures Translate(e, p) == p
  {
    if p.tag != 0 {
      assert !MovedBy(e, FindSlow(e, p.tag, p.line, 0), p);
    } else {
      assert !MovedBy(e, FindFast(e, p.line, 0), p);
    }
  }

  /** Translation never leaves the page, and is undone by translating again. */
  lemma TranslateInvolution(e: Entry, p: Line)
    requires WellFormed(e) && Disjoint(e) && InPage(p)
    ensures InPage(Translate(e, p))
    ensures Translate(e, Translate(e, p)) == p
  {
    if k: nat :| MovedBy(e, k, p) {
      TranslateMoved(e, k, p);
      OffsetGrows(e, k, |e|);
      TranslateMoved(e, k, Partner(e, k, p));
    } else {
      TranslateHome(e, p);
    }
  }

  ghost predicate Injective(e: Entry) {
    forall p, q :: InPage(p) && InPage(q) && Translate(e, p) == Translate(e, q) ==> p == q
  }

  /** A fast line inside a live group holds a line of the group's slow page. */
  lemma FastLineHolds(e: Entry, k: nat, p: Line, h: Line)
    requires WellFormed(e) && k < |e| && e[k].tag == h.tag != 0
    requires p.tag == 0 && Offset(e, k) <= p.line < Offset(e, k) + e[k].size
    requires h.line == e[k].start + (p.line - Offset(e, k))
    ensures InPage(p) && Translate(e, p) == h
  {
    OffsetGrows(e, k, |e|);
    FastSlot(e, k, p.line);
  }

  lemma OverlapShares(e: Entry, i: nat, j: nat)
    requires WellFormed(e) && i < j < |e| && e[i].tag == e[j].tag != 0
    requires !Apart(e[i].start, e[i].size, e[j].start, e[j].size)
    ensures !Injective(e)
  {
    var x := if e[i].start <= e[j].start then e[j].start else e[i].start;
    var p, q := Line(0, Offset(e, i) + (x - e[i].start)), Line(0, Offset(e, j) + (x - e[j].start));
    FastLineHolds(e, i, p, Line(e[i].tag, x));
    FastLineHolds(e, j, q, Line(e[i].tag, x));
    OffsetGrows(e, i, j);
  }

  /** Two physical lines share a hardware line exactly when two groups claim the same slow line. */
  lemma InjectiveIffDisjoint(e: Entry)
    requires WellFormed(e)
    ensures Injective(e) <==> Disjoint(e)
  {
    if Disjoint(e) {
      forall p, q | InPage(p) && InPage(q) && Translate(e, p) == Translate(e, q)
        ensures p == q
      {
        TranslateInvolution(e, p);
        TranslateInvolution(e, q);
      }
    } else {
      var i, j :| 0 <= i < j < |e| && e[i].tag != 0 && e[i].tag == e[j].tag
                  && !Apart(e[i].start, e[i].size, e[j].start, e[j].size);
      OverlapShares(e, i, j);
    }
  }

  // ----- Moving lines of a slow page in ---------------------------------------------------

  /** A request for the tag of the last group that does not start below it grows that group. */
  predicate Expands(e: Entry, tag: nat, start: nat) {
    e != [] && e[|e| - 1].tag == tag && e[|e| - 1].start <= start
  }

  function MovedIn(e: Entry, tag: nat, start: nat, n: nat): Entry {
    if Expands(e, tag, start) then
      e[|e| - 1 := e[|e| - 1].(size := e[|e| - 1].size + n)]
    else
      e + [Group(tag, start, n)]
  }

  /** The interval fits the space the entry has left. */
  predicate Fits(e: Entry, tag: nat, start: nat, n: nat) {
    && tag != 0 && 1 <= n
    && start + n <= LINES && Used(e) + n <= LINES
    && (if Expands(e, tag, start) then e[|e| - 1].start + e[|e| - 1].size + n <= LINES else |e| < SLOTS)
  }

  predicate FreeOfTag(e: Entry, tag: nat, start: nat, n: nat) {
    forall i :: 0 <= i < |e| && e[i].tag == tag ==> Apart(e[i].start, e[i].size, start, n)
  }

  /** None of the lines is in fast memory yet, and a growing group grows without a gap. */
  predicate Sound(e: Entry, tag: nat, start: nat, n: nat) {
    && FreeOfTag(e, tag, start, n)
    && (Expands(e, tag, start) ==> start == e[|e| - 1].start + e[|e| - 1].size)
  }

  /** The new translation is the old one followed by the exchange of the two intervals. */
  ghost predicate MoveInExchanges(e: Entry, tag: nat, start: nat, n: nat) {
    forall p :: InPage(p) ==>
      Translate(MovedIn(e, tag, start, n), p) == Exchange(Used(e), tag, start, n, Translate(e, p))
  }

  lemma MovedInShape(e: Entry, tag: nat, start: nat, n: nat)
    requires WellFormed(e) && Fits(e, tag, start, n)
    ensures var f := MovedIn(e, tag, start, n);
      WellFormed(f) && Trimmed(f) && Used(f) == Used(e) + n
  {
    var f := MovedIn(e, tag, start, n);
    OffsetAgrees(e, f, |f| - 1);
  }

  lemma MovedInDisjoint(e: Entry, tag: nat, start: nat, n: nat)
    requires WellFormed(e) && Disjoint(e) && Fits(e, tag, start, n) && Sound(e, tag, start, n)
    ensures Disjoint(MovedIn(e, tag, start, n))
  {
  }

  lemma MovedInLayout(e: Entry, tag: nat, start: nat, n: nat, i: nat)
    requires i < |e|
    ensures var f := MovedIn(e, tag, start, n);
      && Offset(f, i) == Offset(e, i) && Offset(e, i) + e[i].size <= Used(e)
      && f[i].tag == e[i].tag && f[i].start == e[i].start
      && f[i].size == e[i].size + (if Expands(e, tag, start) && i == |e| - 1 then n else 0)
  {
    OffsetGrows(e, i, |e|);
    OffsetAgrees(e, MovedIn(e, tag, start, n), i);
  }

  /** Groups agree below the last one, and only the last one covers more. */
  lemma MovedInCovers(e: Entry, tag: nat, start: nat, n: nat, i: nat, t: nat, line: nat)
    requires WellFormed(e) && Fits(e, tag, start, n) && Sound(e, tag, start, n) && i < |MovedIn(e, tag, start, n)|
    ensures Covers(MovedIn(e, tag, start, n)[i], t, line) <==>
      (i < |e| && Covers(e[i], t, line))
      || (i == |MovedIn(e, tag, start, n)| - 1 && t == tag && start <= line < start + n)
  {
  }

  /** A slow line goes to fast memory with the move, or stays where it is. */
  lemma MoveInSlowLine(e: Entry, tag: nat, start: nat, n: nat, p: Line)
    requires WellFormed(e) && Fits(e, tag, start, n) && Sound(e, tag, start, n) && p.tag != 0
    ensures Translate(MovedIn(e, tag, start, n), p) == Exchange(Used(e), tag, start, n, Translate(e, p))
  {
    var f := MovedIn(e, tag, start, n);
    var last := |f| - 1;
    var k, m := FindSlow(e, p.tag, p.line, 0), FindSlow(f, p.tag, p.line, 0);
    forall i: nat | i < |f| ensures Covers(f[i], p.tag, p.line) <==>
      (i < |e| && Covers(e[i], p.tag, p.line)) || (i == last && p.tag == tag && start <= p.line < start + n)
    {
      MovedInCovers(e, tag, start, n, i, p.tag, p.line);
    }
    OffsetAgrees(e, f, last);
    if k < |e| {
      MovedInLayout(e, tag, start, n, k);
      assert Covers(f[k], p.tag, p.line);
      assert e[k].tag == tag ==> Apart(e[k].start, e[k].size, start, n);
      assert m == k;
    } else {
      assert forall i :: 0 <= i < last ==> !Covers(f[i], p.tag, p.line);
      assert m == if p.tag == tag && start <= p.line < start + n then last else |f|;
    }
  }

  lemma FastBeyond(e: Entry, line: nat)
    requires Used(e) <= line
    ensures FindFast(e, line, 0) == |e|
  {
    var g := FindFast(e, line, 0);
    if g < |e| {
      OffsetGrows(e, g, |e|);
    }
  }

  /** A used fast line shows the same slow line as before. */
  lemma MoveInUsedLine(e: Entry, tag: nat, start: nat, n: nat, line: nat)
    requires WellFormed(e) && Fits(e, tag, start, n) && FreeOfTag(e, tag, start, n) && line < Used(e)
    ensures Translate(MovedIn(e, tag, start, n), Line(0, line)) == Translate(e, Line(0, line))
    ensures Exchange(Used(e), tag, start, n, Translate(e, Line(0, line))) == Translate(e, Line(0, line))
  {
    var k := FindFast(e, line, 0);
    FastCovered(e, line);
    MovedInLayout(e, tag, start, n, k);
    FastSlot(MovedIn(e, tag, start, n), k, line);
    assert e[k].tag == tag ==> Apart(e[k].start, e[k].size, start, n);
  }

  /** A free fast line is taken by the move or stays at home. */
  lemma MoveInFreeLine(e: Entry, tag: nat, start: nat, n: nat, line: nat)
    requires WellFormed(e) && Fits(e, tag, start, n) && Sound(e, tag, start, n) && line >= Used(e)
    ensures Translate(e, Line(0, line)) == Line(0, line)
    ensures Translate(MovedIn(e, tag, start, n), Line(0, line)) == Exchange(Used(e), tag, start, n, Line(0, line))
  {
    var f := MovedIn(e, tag, start, n);
    var last := |f| - 1;
    FastBeyond(e, line);
    MovedInShape(e, tag, start, n);
    if line < Used(e) + n {
      OffsetAgrees(e, f, last);
      FastSlot(f, last, line);
    } else {
      FastBeyond(f, line);
    }
  }

  /** A used fast line lies in the group the search finds. */
  lemma FastCovered(e: Entry, line: nat)
    requires line < Used(e)
    ensures FindFast(e, line, 0) < |e| && Offset(e, FindFast(e, line, 0)) <= line
  {
    var f := FindFast(e, line, 0);
    assert f > 0 ==> Offset(e, f - 1) + e[f - 1].size <= line;
  }

  /** Moving in a line that already is in fast memory sends some fast line to the wrong place. */
  lemma MoveInOverlapFails(e: Entry, tag: nat, start: nat, n: nat, i: nat)
    requires WellFormed(e) && Fits(e, tag, start, n)
    requires Expands(e, tag, start) ==> start == e[|e| - 1].start + e[|e| - 1].size
    requires i < |e| && e[i].tag == tag && !Apart(e[i].start, e[i].size, start, n)
    ensures !MoveInExchanges(e, tag, start, n)
  {
    var x := if e[i].start <= start then start else e[i].start;
    var p := Line(0, Offset(e, i) + (x - e[i].start));
    MovedInLayout(e, tag, start, n, i);
    MovedInShape(e, tag, start, n);
    FastLineHolds(e, i, p, Line(tag, x));
    FastLineHolds(MovedIn(e, tag, start, n), i, p, Line(tag, x));
  }

  /** Growing a group across a gap sends the first new fast line to the wrong place. */
  lemma MoveInGapFails(e: Entry, tag: nat, start: nat, n: nat)
    requires WellFormed(e) && Fits(e, tag, start, n)
    requires Expands(e, tag, start) && start != e[|e| - 1].start + e[|e| - 1].size
    ensures !MoveInExchanges(e, tag, start, n)
  {
    var p := Line(0, Used(e));
    var last := |e| - 1;
    MovedInLayout(e, tag, start, n, last);
    MovedInShape(e, tag, start, n);
    FastBeyond(e, p.line);
    FastLineHolds(MovedIn(e, tag, start, n), last, p, Line(tag, e[last].start + e[last].size));
  }

  /** Moving an interval in changes the translation by exactly the exchange of the two
      intervals if and only if the request is sound. */
  lemma MoveInExact(e: Entry, tag: nat, start: nat, n: nat)
    requires WellFormed(e) && Fits(e, tag, start, n)
    ensures MoveInExchanges(e, tag, start, n) <==> Sound(e, tag, start, n)
  {
    if Sound(e, tag, start, n) {
      forall p | InPage(p)
        ensures Translate(MovedIn(e, tag, start, n), p) == Exchange(Used(e), tag, start, n, Translate(e, p))
      {
        if p.tag != 0 {
          MoveInSlowLine(e, tag, start, n, p);
        } else {
          assert p == Line(0, p.line);
          if p.line < Used(e) {
            MoveInUsedLine(e, tag, start, n, p.line);
          } else {
            MoveInFreeLine(e, tag, start, n, p.line);
          }
        }
      }
    } else if Expands(e, tag, start) && start != e[|e| - 1].start + e[|e| - 1].size {
      MoveInGapFails(e, tag, start, n);
    } else {
      var i :| 0 <= i < |e| && e[i].tag == tag && !Apart(e[i].start, e[i].size, start, n);
      MoveInOverlapFails(e, tag, start, n, i);
    }
  }

  // ----- Evicting a group ------------------------------------------------------------------

  /** Drops the holes the cursor would rest behind. */
  function TrimHoles(e: Entry): (f: Entry)
    ensures f <= e && Trimmed(f)
    ensures forall i :: |f| <= i < |e| ==> e[i].tag == 0
  {
    if e != [] && e[|e| - 1].tag == 0 then TrimHoles(e[..|e| - 1]) else e
  }

  /** The lines of group `k` go home: the group becomes a hole, or the cursor steps back. */
  function Evicted(e: Entry, k: nat): Entry
    requires k < |e|
  {
    if k + 1 == |e| then TrimHoles(e[..k])
    else e[k := Group(0, Offset(e, k), e[k].size)]
  }

  /** Group `k` is the one a queued eviction names. */
  predicate Names(e: Entry, k: nat, fast: nat, tag: nat, slow: nat, n: nat) {
    k < |e| && tag != 0 && Offset(e, k) == fast && e[k] == Group(tag, slow, n)
  }

  lemma EvictedShape(e: Entry, k: nat)
    requires WellFormed(e) && k < |e|
    ensures var f := Evicted(e, k);
      && |f| <= |e| && Used(f) <= Used(e)
      && (forall i :: 0 <= i <= |f| ==> Offset(f, i) == Offset(e, i))
      && (forall i :: 0 <= i < |f| && i != k ==> f[i] == e[i])
      && (forall i :: 0 <= i < |e| && i != k && e[i].tag != 0 ==> i < |f|)
      && (k < |f| ==> f[k].tag == 0 && f[k].size == e[k].size)
  {
    var f := Evicted(e, k);
    forall i | 0 <= i <= |f| ensures Offset(f, i) == Offset(e, i) {
      OffsetAgrees(f, e, i);
    }
    OffsetGrows(e, |f|, |e|);
    forall i | 0 <= i < |e| && i != k && e[i].tag != 0 ensures i < |f| {
      if k + 1 == |e| {
        assert e[..k][i] == e[i];
      }
    }
  }

  lemma EvictedWellFormed(e: Entry, k: nat)
    requires WellFormed(e) && Trimmed(e) && k < |e|
    ensures WellFormed(Evicted(e, k)) && Trimmed(Evicted(e, k))
    ensures Disjoint(e) ==> Disjoint(Evicted(e, k))
  {
    EvictedShape(e, k);
    OffsetGrows(e, k, |e|);
  }

  /** No other group of the page claims a line of group `k`. */
  predicate Alone(e: Entry, k: nat)
    requires k < |e|
  {
    forall i :: 0 <= i < |e| && i != k && e[i].tag == e[k].tag ==>
      Apart(e[i].start, e[i].size, e[k].start, e[k].size)
  }

  /** The new translation is the old one followed by the exchange of the group's two intervals. */
  ghost predicate EvictExchanges(e: Entry, k: nat)
    requires k < |e|
  {
    forall p :: InPage(p) ==>
      Translate(Evicted(e, k), p) == Partner(e, k, Translate(e, p))
  }

  lemma FastApart(e: Entry, j: nat, k: nat)
    requires j < |e| && k < |e| && j != k
    ensures Apart(Offset(e, j), e[j].size, Offset(e, k), e[k].size)
  {
    if j < k {
      OffsetGrows(e, j, k);
    } else {
      OffsetGrows(e, k, j);
    }
  }

  lemma EvictedCovers(e: Entry, k: nat, i: nat, tag: nat, line: nat)
    requires WellFormed(e) && Trimmed(e) && k < |e| && tag != 0 && i < |e|
    ensures i < |Evicted(e, k)| && Covers(Evicted(e, k)[i], tag, line) <==> i != k && Covers(e[i], tag, line)
  {
    EvictedShape(e, k);
  }

  lemma EvictedSlowLine(e: Entry, k: nat, p: Line)
    requires WellFormed(e) && Trimmed(e) && k < |e| && e[k].tag != 0 && Alone(e, k) && p.tag != 0
    ensures Translate(Evicted(e, k), p) == Partner(e, k, Translate(e, p))
  {
    var f := Evicted(e, k);
    var j, m := FindSlow(e, p.tag, p.line, 0), FindSlow(f, p.tag, p.line, 0);
    EvictedShape(e, k);
    forall i: nat | i < |e|
      ensures i < |f| && Covers(f[i], p.tag, p.line) <==> i != k && Covers(e[i], p.tag, p.line)
    {
      EvictedCovers(e, k, i, p.tag, p.line);
    }
    if j == k {
      assert forall i :: 0 <= i < |f| ==> !Covers(f[i], p.tag, p.line);
      assert m == |f|;
    } else if j < |e| {
      FastApart(e, j, k);
      assert Covers(e[j], p.tag, p.line);
      assert forall i :: 0 <= i < j ==> !Covers(e[i], p.tag, p.line);
      assert m == j;
    } else {
      assert !Covers(e[k], p.tag, p.line);
      assert forall i :: 0 <= i < |f| ==> !Covers(f[i], p.tag, p.line);
      assert m == |f|;
    }
  }

  /** A fast line of the group comes home. */
  lemma EvictedGroupLine(e: Entry, k: nat, line: nat)
    requires WellFormed(e) && k < |e| && e[k].tag != 0 && Offset(e, k) <= line < Offset(e, k) + e[k].size
    ensures Translate(Evicted(e, k), Line(0, line)) == Line(0, line) == Partner(e, k, Translate(e, Line(0, line)))
  {
    var f := Evicted(e, k);
    EvictedShape(e, k);
    FastSlot(e, k, line);
    if k < |f| {
      FastSlot(f, k, line);
    } else {
      OffsetGrows(e, |f|, k);
      FastBeyond(f, line);
    }
  }

  /** The exchange leaves what a fast line of another group shows. */
  lemma OtherLineStays(e: Entry, k: nat, j: nat, line: nat)
    requires WellFormed(e) && k < |e| && e[k].tag != 0 && Alone(e, k) && j < |e| && j != k
    requires Offset(e, j) <= line < Offset(e, j) + e[j].size
    ensures Partner(e, k, Translate(e, Line(0, line))) == Translate(e, Line(0, line))
  {
    FastSlot(e, j, line);
    FastApart(e, j, k);
    var h := Translate(e, Line(0, line));
    assert h.tag == e[k].tag ==> Apart(e[j].start, e[j].size, e[k].start, e[k].size);
  }

  /** A fast line of another group shows the same slow line as before. */
  lemma EvictedOtherLine(e: Entry, k: nat, j: nat, line: nat)
    requires WellFormed(e) && k < |e| && j < |e| && j != k
    requires Offset(e, j) <= line < Offset(e, j) + e[j].size
    ensures Translate(Evicted(e, k), Line(0, line)) == Translate(e, Line(0, line))
  {
    var f := Evicted(e, k);
    EvictedShape(e, k);
    FastSlot(e, j, line);
    if j < |f| {
      FastSlot(f, j, line);
    } else {
      OffsetGrows(e, |f|, j);
      FastBeyond(f, line);
    }
  }

  lemma EvictedFreeLine(e: Entry, k: nat, line: nat)
    requires WellFormed(e) && k < |e| && e[k].tag != 0 && Used(e) <= line
    ensures Translate(Evicted(e, k), Line(0, line)) == Line(0, line) == Translate(e, Line(0, line))
    ensures Partner(e, k, Line(0, line)) == Line(0, line)
  {
    EvictedShape(e, k);
    OffsetGrows(e, k, |e|);
    FastBeyond(e, line);
    FastBeyond(Evicted(e, k), line);
  }

  lemma EvictedFastLine(e: Entry, k: nat, line: nat)
    requires WellFormed(e) && Trimmed(e) && k < |e| && e[k].tag != 0 && Alone(e, k)
    ensures Translate(Evicted(e, k), Line(0, line)) == Partner(e, k, Translate(e, Line(0, line)))
  {
    if line < Used(e) {
      var j := FindFast(e, line, 0);
      FastCovered(e, line);
      if j == k {
        EvictedGroupLine(e, k, line);
      } else {
        EvictedOtherLine(e, k, j, line);
        OtherLineStays(e, k, j, line);
      }
    } else {
      EvictedFreeLine(e, k, line);
    }
  }

  /** Another group that claims a line of the evicted group keeps it: that line does not go home. */
  lemma EvictOverlapFails(e: Entry, k: nat, i: nat)
    requires WellFormed(e) && Trimmed(e) && k < |e| && i < |e| && i != k && e[i].tag == e[k].tag != 0
    requires !Apart(e[i].start, e[i].size, e[k].start, e[k].size)
    ensures !EvictExchanges(e, k)
  {
    var x := if e[i].start <= e[k].start then e[k].start else e[i].start;
    var p := Line(0, Offset(e, i) + (x - e[i].start));
    EvictedShape(e, k);
    EvictedWellFormed(e, k);
    FastLineHolds(e, i, p, Line(e[i].tag, x));
    FastLineHolds(Evicted(e, k), i, p, Line(e[i].tag, x));
  }

  /** An eviction changes the translation by exactly the exchange of its two intervals if and only
      if no other group of the page claims one of its lines. */
  lemma EvictExact(e: Entry, k: nat)
    requires WellFormed(e) && Trimmed(e) && k < |e| && e[k].tag != 0
    ensures EvictExchanges(e, k) <==> Alone(e, k)
  {
    if Alone(e, k) {
      forall p | InPage(p)
        ensures Translate(Evicted(e, k), p) == Partner(e, k, Translate(e, p))
      {
        if p.tag != 0 {
          EvictedSlowLine(e, k, p);
        } else {
          assert p == Line(0, p.line);
          EvictedFastLine(e, k, p.line);
        }
      }
    } else {
      var i :| 0 <= i < |e| && i != k && e[i].tag == e[k].tag && !Apart(e[i].start, e[i].size, e[k].start, e[k].size);
      EvictOverlapFails(e, k, i);
    }
  }

  /** Finishing one eviction leaves every other queued eviction of the entry intact. */
  lemma EvictionKeepsNames(e: Entry, k: nat, j: nat, fast: nat, tag: nat, slow: nat, n: nat)
    requires WellFormed(e) && k < |e| && j != k
    requires Names(e, j, fast, tag, slow, n)
    ensures Names(Evicted(e, k), j, fast, tag, slow, n)
  {
    EvictedShape(e, k);
  }

  /** The group an eviction names is fixed by its fast line. */
  lemma NamesUnique(e: Entry, i: nat, j: nat, f1: nat, t1: nat, s1: nat, n1: nat, f2: nat, t2: nat, s2: nat, n2: nat)
    requires WellFormed(e) && Names(e, i, f1, t1, s1, n1) && Names(e, j, f2, t2, s2, n2)
    ensures i == j <==> f1 == f2
  {
    if i < j {
      OffsetGrows(e, i, j);
    } else if j < i {
      OffsetGrows(e, j, i);
    }
  }

  /** What can be checked of a queued eviction: no group at other fast lines claims its slow lines. */
  predicate SoundEviction(e: Entry, fast: nat, tag: nat, slow: nat, n: nat) {
    forall i :: 0 <= i < |e| && e[i].tag == tag && Offset(e, i) != fast ==> Apart(e[i].start, e[i].size, slow, n)
  }

  lemma SoundIsAlone(e: Entry, k: nat, fast: nat, tag: nat, slow: nat, n: nat)
    requires WellFormed(e) && Names(e, k, fast, tag, slow, n)
    ensures SoundEviction(e, fast, tag, slow, n) <==> Alone(e, k)
  {
    forall i: nat | i < |e| ensures Offset(e, i) == fast <==> i == k {
      if i != k { FastApart(e, i, k); }
    }
  }

  lemma DisjointIsAlone(e: Entry, k: nat)
    requires Disjoint(e) && k < |e| && e[k].tag != 0
    ensures Alone(e, k)
  {
    forall i | 0 <= i < |e| && i != k && e[i].tag == e[k].tag
      ensures Apart(e[i].start, e[i].size, e[k].start, e[k].size)
    {
      assert if i < k then Apart(e[i].start, e[i].size, e[k].start, e[k].size)
             else Apart(e[k].start, e[k].size, e[i].start, e[i].size);
    }
  }
}
