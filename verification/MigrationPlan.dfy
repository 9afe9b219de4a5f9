/** Choosing which lines of a hot slow page to bring in. */
module MigrationPlan {
  import opened PlacementEntry

  // ----- Granularity helpers -----------------------------------------------------------

  /** Smallest supported granularity above the distance of the two lines. */
  function Granularity(start: nat, end: nat): (g: nat)
    requires start <= end < LINES
    ensures end - start < g <= LINES
    ensures g in {1, 2, 4, 8, 16, 32, 64}
    ensures g == 1 || g / 2 <= end - start
  {
    var d := end - start;
    if d < 1 then 1
    else if d < 2 then 2
    else if d < 4 then 4
    else if d < 8 then 8
    else if d < 16 then 16
    else if d < 32 then 32
    else 64
  }

  /** Last line of a move of `g` lines: kept at `end` when the move would leave the page. */
  function Stretch(start: nat, end: nat, g: nat): (last: nat)
    requires 1 <= g
    ensures start + g < 65 ==> last + 1 == start + g
    ensures 65 <= start + g ==> last == end
  {
    if start + g <= LINES then start + g - 1 else end
  }

  function AtMost(a: nat, b: nat): nat {
    if a <= b then a else b
  }

  method Adjust(start: nat, end: nat, granularity: nat) returns (end': nat, g: nat)
    requires start <= end < LINES && 1 <= granularity
    ensures end' == Stretch(start, end, granularity)
    ensures g == end' + 1 - start
  {
    g := granularity;
    while start + g - 1 >= LINES
      invariant g == granularity || (g == end - start + 1 && start + granularity > LINES)
      decreases if start + g - 1 >= LINES then 1 else 0
    {
      g := end - start + 1;
    }
    end' := start + g - 1;
  }

  method RoundDown(start: nat, end: nat, granularity: nat) returns (end': nat, g: nat)
    requires start <= end && 1 <= granularity
    ensures end' == AtMost(end, start + granularity - 1)
    ensures g == end' + 1 - start
  {
    g := granularity;
    while start + g - 1 > end
      invariant g == granularity || (g == end - start + 1 && start + granularity - 1 > end)
      decreases if start + g - 1 > end then 1 else 0
    {
      g := end - start + 1;
    }
    end' := start + g - 1;
  }

  /** Lines the set's fast page has left. */
  method FreeSpace(e: Entry) returns (free: nat)
    requires WellFormed(e)
    ensures free == LINES - Used(e)
  {
    var left: int := LINES;
    for i := 0 to |e|
      invariant left == LINES - Offset(e, i)
    {
      left := left - e[i].size;
    }
    assert left >= 0;
    free := left;
  }

  // ----- The accessed span ---------------------------------------------------------------

  predicate Bits(access: seq<bool>) {
    |access| == LINES && exists i :: 0 <= i < LINES && access[i]
  }

  /** First and last accessed line. */
  ghost predicate Spans(access: seq<bool>, first: nat, last: nat)
    requires |access| == LINES
  {
    && first <= last < LINES && access[first] && access[last]
    && forall i :: 0 <= i < LINES && access[i] ==> first <= i <= last
  }

  function First(access: seq<bool>, i: nat): (f: nat)
    requires |access| == LINES && i <= LINES
    requires exists j :: i <= j < LINES && access[j]
    ensures i <= f < LINES && access[f]
    ensures forall j :: i <= j < f ==> !access[j]
    decreases LINES - i
  {
    if access[i] then i else First(access, i + 1)
  }

  function Last(access: seq<bool>, n: nat): (l: nat)
    requires |access| == LINES && n <= LINES
    requires exists j :: 0 <= j < n && access[j]
    ensures l < n && access[l]
    ensures forall j :: l < j < n ==> !access[j]
  {
    if access[n - 1] then n - 1 else Last(access, n - 1)
  }

  method AccessedSpan(access: seq<bool>) returns (start: nat, end: nat)
    requires Bits(access)
    ensures start == First(access, 0) && end == Last(access, LINES)
    ensures Spans(access, start, end)
  {
    start := 0;
    for i := 0 to LINES
      invariant start == 0
      invariant forall j :: 0 <= j < i ==> !access[j]
    {
      if access[i] {
        start := i;
        break;
      }
    }
    end := 0;
    var i: nat := LINES - 1;
    while i > 0
      invariant i < LINES && end == 0
      invariant forall j :: i < j < LINES ==> !access[j]
    {
      if access[i] {
        end := i;
        break;
      }
      i := i - 1;
    }
    assert access[start] && access[end];
  }

  // ----- The plan --------------------------------------------------------------------------

  datatype Plan =
    | Hit // nothing to move
    | Evict // no room: look for a cold group to send home
    | MoveIn(start: nat, size: nat)

  /** A page new to the last slot, bounded by the space that is left. */
  function Append(e: Entry, start: nat, end: nat): Plan
    requires WellFormed(e) && start <= end
  {
    var free := LINES - Used(e);
    if free == 0 || |e| == SLOTS then Evict else MoveIn(start, AtMost(end + 1 - start, free))
  }

  /** Growing the last group up to line `end`. When the space runs out the size is clamped
      but the start is still counted back from `end`. */
  function Grow(e: Entry, end: nat): Plan
    requires WellFormed(e) && e != [] && e[|e| - 1].start + e[|e| - 1].size <= end < LINES
  {
    var g := e[|e| - 1];
    var free := LINES - Used(e);
    var remain := end + 1 - g.start - g.size;
    if remain <= free then MoveIn(g.start + g.size, remain)
    else if free > 0 then MoveIn(end + 1 - free, free)
    else Evict
  }

  /** The walk over the groups from `i` on, with `start..end` the lines still wanted.
      `limited` says that an earlier group already cut the rear off. */
  function Walk(e: Entry, tag: nat, i: nat, start: nat, end: nat, limited: bool): Plan
    requires WellFormed(e) && i <= |e| && start <= end < LINES
    decreases |e| - i
  {
    if i == |e| then Append(e, start, end)
    else if e[i].tag != tag then Walk(e, tag, i + 1, start, end, limited)
    else
      var lo := e[i].start;
      var hi := lo + e[i].size - 1;
      if i + 1 < |e| then
        if start <= hi < end then
          // cut the front off; unless limited the rear moves up by as much
          Walk(e, tag, i + 1, hi + 1, if limited then end else Stretch(hi + 1, end, end + 1 - start), limited)
        else if lo <= start && end <= hi then Hit
        else if start < lo <= end then Walk(e, tag, i + 1, start, lo - 1, true)
        else Walk(e, tag, i + 1, start, end, limited)
      else if start < lo then Append(e, start, AtMost(lo - 1, end))
      else if end <= hi then Hit
      else Grow(e, if limited then end else Stretch(lo, end, Granularity(lo, end)))
  }

  function PlanFor(e: Entry, tag: nat, first: nat, last: nat): Plan
    requires WellFormed(e) && first <= last < LINES
  {
    Walk(e, tag, 0, first, Stretch(first, last, Granularity(first, last)), false)
  }

  /** The branch for a span that starts inside or behind the last group, which is the page's. */
  method PlanGrowth(e: Entry, last: nat, limited: bool, free: nat) returns (p: Plan)
    requires WellFormed(e) && e != [] && free == LINES - Used(e)
    requires e[|e| - 1].start <= last < LINES
    ensures var lo := e[|e| - 1].start;
      p == if last < lo + e[|e| - 1].size then Hit
           else Grow(e, if limited then last else Stretch(lo, last, Granularity(lo, last)))
  {
    var g := e[|e| - 1];
    var start, end := g.start, last;
    if g.start + g.size - 1 < end {
      var granularity := Granularity(start, end);
      if limited {
        end, granularity := RoundDown(start, end, granularity);
      } else {
        end, granularity := Adjust(start, end, granularity);
      }
      assert g.size < granularity;
      var remain := granularity - g.size;
      if remain <= free {
        start := (end + 1) - remain;
        return MoveIn(start, remain);
      } else if free > 0 {
        start := (end + 1) - free;
        return MoveIn(start, free);
      } else {
        return Evict;
      }
    }
    return Hit;
  }

  /** The source's loop, with the cases its guards allow and all its size bookkeeping. */
  method MakePlan(e: Entry, tag: nat, first: nat, last: nat) returns (p: Plan)
    requires WellFormed(e) && tag != 0 && first <= last < LINES
    ensures p == PlanFor(e, tag, first, last)
  {
    var free := FreeSpace(e);
    var start: nat := first;
    var granularity: nat := Granularity(first, last);
    var end: nat;
    end, granularity := Adjust(start, last, granularity);
    var limited := false;
    var i := 0;
    while i < |e|
      invariant i <= |e| && start <= end < LINES && granularity == end + 1 - start
      invariant Walk(e, tag, i, start, end, limited) == PlanFor(e, tag, first, last)
    {
      if e[i].tag == tag {
        var lo := e[i].start;
        var hi := e[i].start + e[i].size - 1;
        if |e| - 1 != i {
          if start <= hi && hi < end {
            start := hi + 1;
            if limited {
              end, granularity := RoundDown(start, end, granularity);
            } else {
              end, granularity := Adjust(start, end, granularity);
            }
          } else if start < lo && hi < end {
            assert false; // the case above already took every such span
          } else if lo <= start && end <= hi {
            return Hit;
          } else if start < lo && lo <= end {
            limited := true;
            end := lo - 1;
            end, granularity := RoundDown(start, end, granularity);
          }
        } else if start < lo {
          limited := true;
          end := lo - 1;
          end, granularity := RoundDown(start, end, granularity);
          i := |e|;
          break;
        } else {
          p := PlanGrowth(e, end, limited, free);
          return;
        }
      }
      i := i + 1;
    }
    assert granularity != 0;
    if granularity <= free {
      if |e| == SLOTS {
        return Evict;
      }
    } else if free > 0 {
      if |e| == SLOTS {
        return Evict;
      }
      granularity := free;
    } else {
      return Evict;
    }
    p := MoveIn(start, granularity);
  }

  // ----- What a plan promises ----------------------------------------------------------------

  lemma AppendFits(e: Entry, tag: nat, start: nat, end: nat)
    requires WellFormed(e) && tag != 0 && start <= end < LINES && !Expands(e, tag, start)
    ensures var p := Append(e, start, end);
      p.MoveIn? ==> Fits(e, tag, p.start, p.size)
  {
  }

  lemma GrowFits(e: Entry, end: nat)
    requires WellFormed(e) && e != [] && e[|e| - 1].start + e[|e| - 1].size <= end < LINES
    requires e[|e| - 1].tag != 0
    ensures var p := Grow(e, end);
      p.MoveIn? ==> Fits(e, e[|e| - 1].tag, p.start, p.size)
  {
  }

  lemma {:induction false} WalkFits(e: Entry, tag: nat, i: nat, start: nat, end: nat, limited: bool)
    requires WellFormed(e) && tag != 0 && i <= |e| && start <= end < LINES
    requires i == |e| ==> e == [] || e[|e| - 1].tag != tag
    ensures var p := Walk(e, tag, i, start, end, limited);
      p.MoveIn? ==> Fits(e, tag, p.start, p.size)
    decreases |e| - i
  {
    if i == |e| {
      AppendFits(e, tag, start, end);
    } else {
      var lo := e[i].start;
      var hi := lo + e[i].size - 1;
      if e[i].tag != tag {
        WalkFits(e, tag, i + 1, start, end, limited);
      } else if i + 1 < |e| {
        if start <= hi < end {
          WalkFits(e, tag, i + 1, hi + 1, if limited then end else Stretch(hi + 1, end, end + 1 - start), limited);
        } else if start < lo <= end {
          WalkFits(e, tag, i + 1, start, lo - 1, true);
        } else {
          WalkFits(e, tag, i + 1, start, end, limited);
        }
      } else if start < lo {
        AppendFits(e, tag, start, AtMost(lo - 1, end));
      } else if hi < end {
        GrowFits(e, if limited then end else Stretch(lo, end, Granularity(lo, end)));
      }
    }
  }

  /** Every planned move stays inside both pages, inside the free space and inside the slots. */
  lemma PlanFits(e: Entry, tag: nat, first: nat, last: nat)
    requires WellFormed(e) && tag != 0 && first <= last < LINES
    ensures var p := PlanFor(e, tag, first, last);
      p.MoveIn? ==> Fits(e, tag, p.start, p.size)
  {
    WalkFits(e, tag, 0, first, Stretch(first, last, Granularity(first, last)), false);
  }

  predicate NoGroupFrom(e: Entry, tag: nat, i: nat) {
    forall j :: i <= j < |e| ==> e[j].tag != tag
  }

  lemma {:induction false} WalkWithoutGroups(e: Entry, tag: nat, i: nat, start: nat, end: nat, limited: bool)
    requires WellFormed(e) && i <= |e| && start <= end < LINES && NoGroupFrom(e, tag, i)
    ensures Walk(e, tag, i, start, end, limited) == Append(e, start, end)
    decreases |e| - i
  {
    if i < |e| {
      WalkWithoutGroups(e, tag, i + 1, start, end, limited);
    }
  }

  /** A page with nothing in fast memory: the move starts at the first accessed line, reaches
      the last one unless space runs out, and is always sound. */
  lemma NewPagePlan(e: Entry, tag: nat, first: nat, last: nat)
    requires WellFormed(e) && tag != 0 && first <= last < LINES && NoGroupFrom(e, tag, 0)
    ensures var p := PlanFor(e, tag, first, last);
      && (p.Evict? <==> Used(e) == LINES || |e| == SLOTS)
      && !p.Hit?
      && (p.MoveIn? ==>
            && p.start == first && (last < p.start + p.size || p.size == LINES - Used(e))
            && Sound(e, tag, p.start, p.size))
  {
    WalkWithoutGroups(e, tag, 0, first, Stretch(first, last, Granularity(first, last)), false);
  }

  predicate OnlyGroup(e: Entry, tag: nat, k: nat) {
    k < |e| && forall j :: 0 <= j < |e| && e[j].tag == tag ==> j == k
  }

  lemma {:induction false} WalkOneGroup(e: Entry, tag: nat, k: nat, i: nat, start: nat, end: nat)
    requires WellFormed(e) && tag != 0 && OnlyGroup(e, tag, k) && e[k].tag == tag
    requires i <= k && start <= end < LINES
    ensures var p := Walk(e, tag, i, start, end, false);
      p.MoveIn? ==> FreeOfTag(e, tag, p.start, p.size)
    decreases k - i
  {
    var lo := e[k].start;
    var hi := lo + e[k].size - 1;
    if i < k {
      WalkOneGroup(e, tag, k, i + 1, start, end);
    } else if k + 1 < |e| {
      if start <= hi < end {
        WalkWithoutGroups(e, tag, k + 1, hi + 1, Stretch(hi + 1, end, end + 1 - start), false);
      } else if start < lo <= end {
        WalkWithoutGroups(e, tag, k + 1, start, lo - 1, true);
      } else {
        WalkWithoutGroups(e, tag, k + 1, start, end, false);
      }
    }
  }

  /** What growing the last group `k` asks for exceeds the space: the guard of the clamping branch. */
  predicate Clamped(e: Entry, k: nat, first: nat, last: nat)
    requires WellFormed(e) && k < |e| && first <= last < LINES
  {
    k == |e| - 1 && e[k].start <= first &&
    var end := Stretch(first, last, Granularity(first, last));
    var lo := e[k].start;
    Stretch(lo, end, Granularity(lo, end)) + 1 - lo - e[k].size > LINES - Used(e)
  }

  /** A page with a single group: its plan is sound if and only if growing does not ask for more
      than the space that is left. */
  lemma OneGroupPlanSound(e: Entry, tag: nat, k: nat, first: nat, last: nat)
    requires WellFormed(e) && tag != 0 && OnlyGroup(e, tag, k) && e[k].tag == tag && first <= last < LINES
    ensures var p := PlanFor(e, tag, first, last);
      p.MoveIn? ==> (Sound(e, tag, p.start, p.size) <==> !Clamped(e, k, first, last))
  {
    var p := PlanFor(e, tag, first, last);
    var end := Stretch(first, last, Granularity(first, last));
    WalkOneGroup(e, tag, k, 0, first, end);
    if p.MoveIn? {
      PlanFits(e, tag, first, last);
      WalkTo(e, tag, k, 0, first, end);
      if k == |e| - 1 && e[k].start <= first {
        GrowSound(e, Stretch(e[k].start, end, Granularity(e[k].start, end)));
      }
    }
  }

  /** The walk passes other pages' groups by. */
  lemma {:induction false} WalkTo(e: Entry, tag: nat, k: nat, i: nat, start: nat, end: nat)
    requires WellFormed(e) && OnlyGroup(e, tag, k) && i <= k && start <= end < LINES
    ensures Walk(e, tag, i, start, end, false) == Walk(e, tag, k, start, end, false)
    decreases k - i
  {
    if i < k { WalkTo(e, tag, k, i + 1, start, end); }
  }

  // ----- Plans for pages with any number of groups ------------------------------------------------

  /** None of the page's groups among the first `n` claims a line in `from..to`. */
  predicate Clear(e: Entry, tag: nat, n: nat, from: nat, to: nat)
    requires n <= |e| && from <= to
  {
    forall j :: 0 <= j < n && e[j].tag == tag ==> Apart(e[j].start, e[j].size, from, to - from)
  }

  /** Growing the last group is sound if and only if the space suffices and no earlier group of the
      page claims a line up to the new end. */
  lemma GrowSound(e: Entry, end: nat)
    requires WellFormed(e) && e != [] && e[|e| - 1].tag != 0
    requires e[|e| - 1].start + e[|e| - 1].size <= end < LINES
    ensures var g, p := e[|e| - 1], Grow(e, end);
      p.MoveIn? ==>
        (Sound(e, g.tag, p.start, p.size) <==>
           end + 1 - g.start - g.size <= LINES - Used(e)
           && Clear(e, g.tag, |e| - 1, g.start + g.size, end + 1))
  {
  }

  /** A move to a new slot is sound if and only if no group of the page claims one of its lines. */
  lemma AppendSound(e: Entry, tag: nat, start: nat, end: nat)
    requires WellFormed(e) && tag != 0 && start <= end < LINES && !Expands(e, tag, start)
    ensures var p := Append(e, start, end);
      p.MoveIn? ==>
        (Sound(e, tag, p.start, p.size) <==>
           Clear(e, tag, |e|, start, start + AtMost(end + 1 - start, LINES - Used(e))))
  {
  }

  lemma ClearPart(e: Entry, tag: nat, n: nat, from: nat, to: nat, from': nat, to': nat)
    requires n <= |e| && from <= from' <= to' <= to && from' < to' && Clear(e, tag, n, from, to)
    ensures Clear(e, tag, n, from', to')
  {
    forall j | 0 <= j < n && e[j].tag == tag ensures Apart(e[j].start, e[j].size, from', to' - from') {
      assert Apart(e[j].start, e[j].size, from, to - from);
    }
  }

  lemma ClearJoin(e: Entry, tag: nat, n: nat, from: nat, mid: nat, to: nat)
    requires WellFormed(e) && n <= |e| && from < mid <= to
    requires Clear(e, tag, n, from, mid) && Clear(e, tag, n, mid, to)
    ensures Clear(e, tag, n, from, to)
  {
    forall j | 0 <= j < n && e[j].tag == tag ensures Apart(e[j].start, e[j].size, from, to - from) {
      assert Apart(e[j].start, e[j].size, from, mid - from) && Apart(e[j].start, e[j].size, mid, to - mid);
    }
  }

  /** The last group cut: the plan is sound if and only if the part of the stretched span that finds
      room stays clear of the groups examined before. */
  lemma LastCutSound(e: Entry, tag: nat, i: nat, start: nat, end: nat)
    requires WellFormed(e) && tag != 0 && i + 1 < |e| && e[i].tag == tag && NoGroupFrom(e, tag, i + 1)
    requires start <= e[i].start + e[i].size - 1 < end < LINES
    ensures var p := Walk(e, tag, i, start, end, false);
      var next := e[i].start + e[i].size;
      var rear := Stretch(next, end, end + 1 - start);
      p.MoveIn? ==>
        && p.start == next
        && (Sound(e, tag, p.start, p.size) <==>
              Clear(e, tag, i, next, next + AtMost(rear + 1 - next, LINES - Used(e))))
  {
    var next := e[i].start + e[i].size;
    var rear := Stretch(next, end, end + 1 - start);
    WalkWithoutGroups(e, tag, i + 1, next, rear, false);
    AppendSound(e, tag, next, rear);
  }

  // ----- Exactly when the walk's plan is sound ------------------------------------------------------

  /** None of the first `n` groups claims a line of `start..stop` at or behind `known`. */
  predicate ClearFrom(e: Entry, tag: nat, n: nat, start: nat, known: nat, stop: nat)
    requires n <= |e|
  {
    var from := if start <= known then known else start;
    from < stop ==> Clear(e, tag, n, from, stop)
  }

  /** A move of `start..end` to a new slot, cut to the space that is left. */
  predicate KeepsAppended(e: Entry, tag: nat, start: nat, known: nat, end: nat)
    requires WellFormed(e) && start <= end
  {
    ClearFrom(e, tag, |e|, start, known, start + AtMost(end + 1 - start, LINES - Used(e)))
  }

  /** The walk keeps clear of the page's groups. The lines wanted up to `known` cannot meet a group
      examined so far; those behind, which a cut at the front brings in, can. */
  predicate Keeps(e: Entry, tag: nat, i: nat, start: nat, known: nat, end: nat, limited: bool)
    requires WellFormed(e) && i <= |e| && start <= end < LINES
    decreases |e| - i
  {
    if i == |e| then KeepsAppended(e, tag, start, known, end)
    else if e[i].tag != tag then Keeps(e, tag, i + 1, start, known, end, limited)
    else
      var lo := e[i].start;
      var hi := lo + e[i].size - 1;
      if i + 1 < |e| then
        if start <= hi < end then
          Keeps(e, tag, i + 1, hi + 1, known, if limited then end else Stretch(hi + 1, end, end + 1 - start), limited)
        else if lo <= start && end <= hi then true
        else if start < lo <= end then Keeps(e, tag, i + 1, start, AtMost(known, lo), lo - 1, true)
        else Keeps(e, tag, i + 1, start, known, end, limited)
      else if start < lo then KeepsAppended(e, tag, start, AtMost(known, lo), AtMost(lo - 1, end))
      else if end <= hi then true
      else
        var rear := if limited then end else Stretch(lo, end, Granularity(lo, end));
        rear - hi <= LINES - Used(e) && Clear(e, tag, i, hi + 1, rear + 1)
  }

  lemma AppendKeeps(e: Entry, tag: nat, start: nat, known: nat, end: nat)
    requires WellFormed(e) && tag != 0 && start <= end < LINES && !Expands(e, tag, start)
    requires start < known ==> Clear(e, tag, |e|, start, known)
    ensures var p := Append(e, start, end);
      p.MoveIn? ==> (Sound(e, tag, p.start, p.size) <==> KeepsAppended(e, tag, start, known, end))
  {
    AppendSound(e, tag, start, end);
    var stop := start + AtMost(end + 1 - start, LINES - Used(e));
    if start < known && start < stop {
      if known < stop {
        if Clear(e, tag, |e|, known, stop) { ClearJoin(e, tag, |e|, start, known, stop); }
        if Clear(e, tag, |e|, start, stop) { ClearPart(e, tag, |e|, start, stop, known, stop); }
      } else {
        ClearPart(e, tag, |e|, start, known, start, stop);
      }
    }
  }

  /** One more group is examined: lines beside it stay known. */
  lemma KnownNext(e: Entry, tag: nat, i: nat, start: nat, known: nat, start': nat, known': nat)
    requires WellFormed(e) && i < |e| && start <= start' && known' <= known
    requires start < known ==> Clear(e, tag, i, start, known)
    requires e[i].tag == tag && start' < known' ==> Apart(e[i].start, e[i].size, start', known' - start')
    ensures start' < known' ==> Clear(e, tag, i + 1, start', known')
  {
    if start' < known' { ClearPart(e, tag, i, start, known, start', known'); }
  }

  lemma LastKeeps(e: Entry, tag: nat, start: nat, known: nat, end: nat, limited: bool)
    requires WellFormed(e) && tag != 0 && start <= end < LINES && e != [] && e[|e| - 1].tag == tag
    requires known <= end + 1 && (start < known ==> Clear(e, tag, |e| - 1, start, known))
    ensures var p := Walk(e, tag, |e| - 1, start, end, limited);
      p.MoveIn? ==> (Sound(e, tag, p.start, p.size) <==> Keeps(e, tag, |e| - 1, start, known, end, limited))
  {
    var i := |e| - 1;
    var lo := e[i].start;
    if start < lo {
      KnownNext(e, tag, i, start, known, start, AtMost(known, lo));
      AppendKeeps(e, tag, start, AtMost(known, lo), AtMost(lo - 1, end));
    } else if lo + e[i].size <= end {
      GrowSound(e, if limited then end else Stretch(lo, end, Granularity(lo, end)));
    }
  }

  lemma {:induction false} WalkKeeps(e: Entry, tag: nat, i: nat, start: nat, known: nat, end: nat, limited: bool)
    requires WellFormed(e) && tag != 0 && i <= |e| && start <= end < LINES && known <= end + 1
    requires i == |e| ==> e == [] || e[|e| - 1].tag != tag
    requires start < known ==> Clear(e, tag, i, start, known)
    ensures var p := Walk(e, tag, i, start, end, limited);
      p.MoveIn? ==> (Sound(e, tag, p.start, p.size) <==> Keeps(e, tag, i, start, known, end, limited))
    decreases |e| - i
  {
    if i == |e| {
      AppendKeeps(e, tag, start, known, end);
    } else {
      var lo := e[i].start;
      var hi := lo + e[i].size - 1;
      if e[i].tag != tag {
        KnownNext(e, tag, i, start, known, start, known);
        WalkKeeps(e, tag, i + 1, start, known, end, limited);
      } else if i + 1 < |e| {
        if start <= hi < end {
          KnownNext(e, tag, i, start, known, hi + 1, known);
          var rear := if limited then end else Stretch(hi + 1, end, end + 1 - start);
          WalkKeeps(e, tag, i + 1, hi + 1, known, rear, limited);
        } else if start < lo <= end {
          KnownNext(e, tag, i, start, known, start, AtMost(known, lo));
          WalkKeeps(e, tag, i + 1, start, AtMost(known, lo), lo - 1, true);
        } else if !(lo <= start && end <= hi) {
          KnownNext(e, tag, i, start, known, start, known);
          WalkKeeps(e, tag, i + 1, start, known, end, limited);
        }
      } else {
        LastKeeps(e, tag, start, known, end, limited);
      }
    }
  }

  /** Whatever groups the page has: the plan is sound if and only if the walk keeps clear of them. */
  lemma PlanSound(e: Entry, tag: nat, first: nat, last: nat)
    requires WellFormed(e) && tag != 0 && first <= last < LINES
    ensures var p := PlanFor(e, tag, first, last);
      var end := Stretch(first, last, Granularity(first, last));
      p.MoveIn? ==> (Sound(e, tag, p.start, p.size) <==> Keeps(e, tag, 0, first, end + 1, end, false))
  {
    var end := Stretch(first, last, Granularity(first, last));
    WalkKeeps(e, tag, 0, first, end + 1, end, false);
  }
}
