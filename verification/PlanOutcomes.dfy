/** Which of its three answers the planner gives. */
module PlanOutcomes {
  import opened PlacementEntry
  import opened MigrationPlan

  function Room(e: Entry): nat
    requires WellFormed(e)
  {
    LINES - Used(e)
  }

  /** What is left to do about lines `start..end` that no group has: they move in as far as there is
      room, when there are room and a slot at all. */
  predicate Adds(e: Entry, start: nat, end: nat, p: Plan)
    requires WellFormed(e) && start <= end
  {
    if Room(e) == 0 || |e| == SLOTS then p.Evict?
    else p.MoveIn? && p.start == start && p.size == AtMost(end + 1 - start, Room(e))
  }

  // ----- A page with a single group -------------------------------------------------------------------

  /** The plan for a page with the single group `k` on lines `lo..hi`, when lines `first..end` are wanted.
      It is a hit exactly when the group has all of them. Otherwise the lines behind the group are
      added when the group has the end of the wanted part in front of them, and else those in front
      of it; the last group of the entry grows instead, and lines that lie apart are added whole. */
  lemma OneGroupPlanExact(e: Entry, tag: nat, k: nat, first: nat, last: nat)
    requires WellFormed(e) && tag != 0 && OnlyGroup(e, tag, k) && e[k].tag == tag && first <= last < LINES
    ensures var p := PlanFor(e, tag, first, last);
      var end := Stretch(first, last, Granularity(first, last));
      var lo, hi := e[k].start, e[k].start + e[k].size - 1;
      && (p.Hit? <==> lo <= first && end <= hi)
      && (k == |e| - 1 && first < lo ==> Adds(e, first, AtMost(lo - 1, end), p))
      && (k == |e| - 1 && lo <= first && hi < end ==>
            var rear := Stretch(lo, end, Granularity(lo, end));
            if Room(e) == 0 then p.Evict?
            else p == if rear - hi <= Room(e) then MoveIn(hi + 1, rear - hi) else MoveIn(rear + 1 - Room(e), Room(e)))
      && (k < |e| - 1 && first <= hi < end ==> Adds(e, hi + 1, Stretch(hi + 1, end, end + 1 - first), p))
      && (k < |e| - 1 && first < lo <= end <= hi ==> Adds(e, first, lo - 1, p))
      && (k < |e| - 1 && (hi < first || end < lo) ==> Adds(e, first, end, p))
  {
    var end := Stretch(first, last, Granularity(first, last));
    var lo, hi := e[k].start, e[k].start + e[k].size - 1;
    WalkTo(e, tag, k, 0, first, end);
    if k < |e| - 1 {
      if first <= hi < end {
        WalkWithoutGroups(e, tag, k + 1, hi + 1, Stretch(hi + 1, end, end + 1 - first), false);
      } else if first < lo <= end {
        WalkWithoutGroups(e, tag, k + 1, first, lo - 1, true);
      } else if !(lo <= first && end <= hi) {
        WalkWithoutGroups(e, tag, k + 1, first, end, false);
      }
    }
  }

  // ----- Any number of groups ---------------------------------------------------------------------------

  /** The line is the first one wanted, or lies directly behind a group of the page. */
  predicate Begins(e: Entry, tag: nat, first: nat, x: nat) {
    x == first || exists j :: 0 <= j < |e| && e[j].tag == tag && x == e[j].start + e[j].size
  }

  /** A group of the page has such a line. */
  predicate Held(e: Entry, tag: nat, first: nat) {
    exists j, x: nat {:trigger Begins(e, tag, first, x), e[j].tag} ::
      0 <= j < |e| && e[j].tag == tag && e[j].start <= x < e[j].start + e[j].size && Begins(e, tag, first, x)
  }

  /** The lines up to `end` reach the last one wanted, or a group of the page. */
  predicate Reaches(e: Entry, tag: nat, last: nat, end: nat) {
    last <= end || exists j :: 0 <= j < |e| && e[j].tag == tag && end + 1 == e[j].start
  }

  /** When the last group of the entry is the page's, such a line lies in front of it. */
  predicate InFront(e: Entry, tag: nat, first: nat) {
    e != [] && e[|e| - 1].tag == tag ==> exists x: nat :: Begins(e, tag, first, x) && x < e[|e| - 1].start
  }

  /** The lines moved in start where wanted lines begin and reach their end, as far as there is room. */
  predicate Serves(e: Entry, tag: nat, first: nat, last: nat, p: Plan)
    requires WellFormed(e) && p.MoveIn? && p.size > 0
  {
    && (p.size < Room(e) ==> Begins(e, tag, first, p.start) && Reaches(e, tag, last, p.start + p.size - 1))
    && p.size <= Room(e)
  }

  /** What the walk answers from group `i` on, for wanted lines `start..end`. */
  predicate Answers(e: Entry, tag: nat, first: nat, last: nat, p: Plan)
    requires WellFormed(e)
  {
    match p
    case Hit => Held(e, tag, first)
    case Evict => Room(e) == 0 || (|e| == SLOTS && InFront(e, tag, first))
    case MoveIn(start, n) => 0 < n && Serves(e, tag, first, last, p)
  }

  lemma AppendAnswers(e: Entry, tag: nat, first: nat, last: nat, start: nat, end: nat)
    requires WellFormed(e) && start <= end < LINES && Begins(e, tag, first, start) && Reaches(e, tag, last, end)
    requires e != [] && e[|e| - 1].tag == tag ==> start < e[|e| - 1].start
    ensures Answers(e, tag, first, last, Append(e, start, end))
  {
  }

  lemma GrowAnswers(e: Entry, tag: nat, first: nat, last: nat, end: nat)
    requires WellFormed(e) && e != [] && e[|e| - 1].tag == tag && Reaches(e, tag, last, end)
    requires e[|e| - 1].start + e[|e| - 1].size <= end < LINES
    ensures Answers(e, tag, first, last, Grow(e, end))
  {
    assert Begins(e, tag, first, e[|e| - 1].start + e[|e| - 1].size);
  }

  lemma LastAnswers(e: Entry, tag: nat, first: nat, last: nat, start: nat, end: nat, limited: bool)
    requires WellFormed(e) && tag != 0 && start <= end < LINES && e != [] && e[|e| - 1].tag == tag
    requires Begins(e, tag, first, start) && Reaches(e, tag, last, end) && (!limited ==> last <= end)
    ensures Answers(e, tag, first, last, Walk(e, tag, |e| - 1, start, end, limited))
  {
    var lo := e[|e| - 1].start;
    if start < lo {
      assert Reaches(e, tag, last, AtMost(lo - 1, end));
      AppendAnswers(e, tag, first, last, start, AtMost(lo - 1, end));
    } else if lo + e[|e| - 1].size <= end {
      GrowAnswers(e, tag, first, last, if limited then end else Stretch(lo, end, Granularity(lo, end)));
    }
  }

  lemma CutReaches(e: Entry, tag: nat, first: nat, last: nat, i: nat)
    requires i < |e| && e[i].tag == tag
    ensures e[i].start > 0 ==> Reaches(e, tag, last, e[i].start - 1)
    ensures Begins(e, tag, first, e[i].start + e[i].size)
  {
  }

  lemma HitAnswers(e: Entry, tag: nat, first: nat, last: nat, i: nat, start: nat)
    requires WellFormed(e) && i < |e| && e[i].tag == tag && e[i].start <= start < e[i].start + e[i].size
    requires Begins(e, tag, first, start)
    ensures Answers(e, tag, first, last, Hit)
  {
  }

  lemma {:induction false} WalkAnswers(e: Entry, tag: nat, first: nat, last: nat, i: nat, start: nat, end: nat,
                                       limited: bool, p: Plan)
    requires WellFormed(e) && tag != 0 && i <= |e| && start <= end < LINES
    requires i == |e| ==> e == [] || e[|e| - 1].tag != tag
    requires Begins(e, tag, first, start) && Reaches(e, tag, last, end)
    requires !limited ==> last <= end
    requires p == Walk(e, tag, i, start, end, limited)
    ensures Answers(e, tag, first, last, p)
    decreases |e| - i
  {
    if i == |e| {
      AppendAnswers(e, tag, first, last, start, end);
    } else {
      var lo := e[i].start;
      var hi := lo + e[i].size - 1;
      if e[i].tag != tag {
        WalkAnswers(e, tag, first, last, i + 1, start, end, limited, p);
      } else if i + 1 < |e| {
        if start <= hi < end {
          var rear := if limited then end else Stretch(hi + 1, end, end + 1 - start);
          CutReaches(e, tag, first, last, i);
          WalkAnswers(e, tag, first, last, i + 1, hi + 1, rear, limited, p);
        } else if lo <= start && end <= hi {
          HitAnswers(e, tag, first, last, i, start);
        } else if start < lo <= end {
          CutReaches(e, tag, first, last, i);
          WalkAnswers(e, tag, first, last, i + 1, start, lo - 1, true, p);
        } else {
          WalkAnswers(e, tag, first, last, i + 1, start, end, limited, p);
        }
      } else {
        LastAnswers(e, tag, first, last, start, end, limited);
      }
    }
  }

  /** Whatever groups the page has. A hit means that a group has the first wanted line or one directly
      behind a group. Nothing is moved in for want of room, or of a slot when the last group of the
      entry cannot grow for it. And what is moved in starts where wanted lines begin and reaches the
      last of them or the next group of the page, or takes all the room there is. */
  lemma PlanAnswers(e: Entry, tag: nat, first: nat, last: nat)
    requires WellFormed(e) && tag != 0 && first <= last < LINES
    ensures Answers(e, tag, first, last, PlanFor(e, tag, first, last))
  {
    var end := Stretch(first, last, Granularity(first, last));
    WalkAnswers(e, tag, first, last, 0, first, end, false, PlanFor(e, tag, first, last));
  }
}
