/** The frequent-segment counter of MemPod. */
module MeaCounter {

  const COUNTERS: nat := 16
  const MAX: nat := 4

  type Table = map<nat, nat>

  // ----- One update -----------------------------------------------------------------------------------

  /** A round: every counter drops by one, and segments that reach zero leave the table. */
  function Dropped(t: Table): Table {
    map p | p in t && t[p] > 1 :: t[p] - 1
  }

  function Updated(t: Table, p: nat): Table {
    if p in t then (if t[p] < MAX + 1 then t[p := t[p] + 1] else t)
    else if |t| >= COUNTERS then Dropped(t)
    else t[p := 1]
  }

  predicate IsRound(t: Table, p: nat) {
    p !in t && |t| >= COUNTERS
  }

  /** The segment's counter is full and the occurrence is not counted. */
  predicate IsSaturated(t: Table, p: nat) {
    p in t && t[p] >= MAX + 1
  }

  // ----- Histories since a reset -------------------------------------------------------------------------

  function Front(xs: seq<nat>): seq<nat>
    requires xs != []
  {
    xs[..|xs| - 1]
  }

  function Last(xs: seq<nat>): nat
    requires xs != []
  {
    xs[|xs| - 1]
  }

  function TableAfter(xs: seq<nat>): Table {
    if xs == [] then map[] else Updated(TableAfter(Front(xs)), Last(xs))
  }

  function Rounds(xs: seq<nat>): nat {
    if xs == [] then 0
    else Rounds(Front(xs)) + (if IsRound(TableAfter(Front(xs)), Last(xs)) then 1 else 0)
  }

  function Occurrences(xs: seq<nat>, p: nat): nat {
    if xs == [] then 0 else Occurrences(Front(xs), p) + (if Last(xs) == p then 1 else 0)
  }

  /** Occurrences of the segment that found its counter full. */
  function Saturated(xs: seq<nat>, p: nat): nat {
    if xs == [] then 0
    else Saturated(Front(xs), p) + (if Last(xs) == p && IsSaturated(TableAfter(Front(xs)), p) then 1 else 0)
  }

  function AllSaturated(xs: seq<nat>): nat {
    if xs == [] then 0
    else AllSaturated(Front(xs)) + (if IsSaturated(TableAfter(Front(xs)), Last(xs)) then 1 else 0)
  }

  function Count(t: Table, p: nat): nat {
    if p in t then t[p] else 0
  }

  // ----- Sums ---------------------------------------------------------------------------------------------

  ghost function Sum(t: Table): nat {
    if t == map[] then 0
    else
      var p :| p in t;
      t[p] + Sum(t - {p})
  }

  lemma {:induction false} SumWithout(t: Table, p: nat)
    requires p in t
    ensures Sum(t) == t[p] + Sum(t - {p})
    decreases |t|
  {
    var q :| q in t && Sum(t) == t[q] + Sum(t - {q});
    if q != p {
      SumWithout(t - {q}, p);
      SumWithout(t - {p}, q);
      assert t - {q} - {p} == t - {p} - {q};
    }
  }

  lemma SumSet(t: Table, p: nat, v: nat)
    ensures Sum(t[p := v]) == Sum(t) - Count(t, p) + v
  {
    var u := t[p := v];
    SumWithout(u, p);
    if p in t {
      SumWithout(t, p);
      assert u - {p} == t - {p};
    } else {
      assert u - {p} == t;
    }
  }

  /** A round takes one from every counter. */
  lemma {:induction false} SumDropped(t: Table)
    requires forall p :: p in t ==> t[p] >= 1
    ensures Sum(Dropped(t)) + |t| == Sum(t)
    decreases |t|
  {
    if t != map[] {
      var p :| p in t;
      SumDropped(t - {p});
      SumWithout(t, p);
      assert |t - {p}| == |t| - 1;
      if t[p] > 1 {
        SumWithout(Dropped(t), p);
        assert Dropped(t) - {p} == Dropped(t - {p});
      } else {
        assert Dropped(t) == Dropped(t - {p});
      }
    }
  }

  // ----- What is kept ------------------------------------------------------------------------------------

  predicate TableOk(t: Table) {
    |t| <= COUNTERS && forall p :: p in t ==> 1 <= t[p] <= MAX + 1
  }

  lemma DroppedSmaller(t: Table)
    ensures |Dropped(t)| <= |t|
  {
    var d := Dropped(t);
    assert d.Keys <= t.Keys;
    SubsetSize(d.Keys, t.Keys);
  }

  lemma {:induction false} SubsetSize(a: set<nat>, b: set<nat>)
    requires a <= b
    ensures |a| <= |b|
  {
    if a != {} {
      var x :| x in a;
      SubsetSize(a - {x}, b - {x});
    }
  }

  lemma UpdatedKeeps(t: Table, p: nat)
    requires TableOk(t)
    ensures TableOk(Updated(t, p))
  {
    DroppedSmaller(t);
  }

  lemma {:induction false} AfterKeeps(xs: seq<nat>)
    ensures TableOk(TableAfter(xs))
  {
    if xs != [] {
      AfterKeeps(Front(xs));
      UpdatedKeeps(TableAfter(Front(xs)), Last(xs));
    }
  }

  lemma CountedSum(t: Table, p: nat)
    requires p in t && t[p] < MAX + 1
    ensures Sum(Updated(t, p)) == Sum(t) + 1
  {
    SumSet(t, p, t[p] + 1);
  }

  lemma NewSum(t: Table, p: nat)
    requires p !in t && |t| < COUNTERS
    ensures Sum(Updated(t, p)) == Sum(t) + 1
  {
    SumSet(t, p, 1);
  }

  lemma RoundSum(t: Table, p: nat)
    requires TableOk(t) && IsRound(t, p)
    ensures Sum(Updated(t, p)) + COUNTERS == Sum(t)
  {
    SumDropped(t);
  }

  /** An update adds one to the counters, is met by a full one, or takes one from each of them. */
  lemma UpdatedSum(t: Table, p: nat)
    requires TableOk(t)
    ensures Sum(t) + 1 == Sum(Updated(t, p)) + (if IsRound(t, p) then COUNTERS + 1 else 0)
                                             + (if IsSaturated(t, p) then 1 else 0)
  {
    if p in t {
      if t[p] < MAX + 1 { CountedSum(t, p); }
    } else if |t| >= COUNTERS {
      RoundSum(t, p);
    } else {
      NewSum(t, p);
    }
  }

  /** Every update is accounted for: it is in a counter, was met by a full counter, or was used up
      by a round together with one count of each of the counters. */
  lemma {:induction false} Accounted(xs: seq<nat>)
    ensures |xs| == Sum(TableAfter(xs)) + (COUNTERS + 1) * Rounds(xs) + AllSaturated(xs)
  {
    if xs != [] {
      Accounted(Front(xs));
      AfterKeeps(Front(xs));
      UpdatedSum(TableAfter(Front(xs)), Last(xs));
    }
  }

  /** A segment's unsaturated occurrences exceed its counter by at most the number of rounds, and
      its counter never exceeds them. */
  lemma {:induction false} CountBounds(xs: seq<nat>, p: nat)
    ensures Count(TableAfter(xs), p) + Saturated(xs, p) <= Occurrences(xs, p)
    ensures Occurrences(xs, p) <= Count(TableAfter(xs), p) + Saturated(xs, p) + Rounds(xs)
  {
    if xs != [] {
      CountBounds(Front(xs), p);
      AfterKeeps(Front(xs));
    }
  }

  /** No frequent segment is missed: whatever occurs, apart from saturated occurrences, in more than
      one in seventeen of the updates since the reset is in the table. */
  lemma FrequentKept(xs: seq<nat>, p: nat)
    requires (Occurrences(xs, p) - Saturated(xs, p)) * (COUNTERS + 1) > |xs|
    ensures p in TableAfter(xs)
  {
    CountBounds(xs, p);
    Accounted(xs);
  }

  // ----- The counter as an object ---------------------------------------------------------------------------

  class Counter {
    var table: Table
    ghost var seen: seq<nat>

    ghost predicate Valid()
      reads this
    {
      table == TableAfter(seen)
    }

    constructor ()
      ensures Valid() && seen == []
    {
      table, seen := map[], [];
    }

    /** An interval ends. */
    method Reset()
      modifies this
      ensures Valid() && seen == []
    {
      table, seen := map[], [];
    }

    /** Drops every counter by one and returns the segments that reach zero. */
    method DecrementAll() returns (toDelete: seq<nat>)
      requires TableOk(table)
      modifies this`table
      ensures table.Keys == old(table).Keys
      ensures forall q :: q in table ==> table[q] == old(table)[q] - 1
      ensures forall q :: q in toDelete <==> q in table && table[q] == 0
    {
      toDelete := [];
      var left := table.Keys;
      while left != {}
        invariant left <= table.Keys == old(table).Keys
        invariant forall q :: q in table ==> table[q] == if q in left then old(table)[q] else old(table)[q] - 1
        invariant forall q :: q in toDelete <==> q in table && q !in left && table[q] == 0
        decreases |left|
      {
        var q :| q in left;
        left := left - {q};
        table := table[q := table[q] - 1];
        if table[q] == 0 {
          toDelete := toDelete + [q];
        }
      }
    }

    method Erase(toDelete: seq<nat>)
      modifies this`table
      ensures forall q :: q in table <==> q in old(table) && q !in toDelete
      ensures forall q :: q in table ==> table[q] == old(table)[q]
    {
      for i := 0 to |toDelete|
        invariant forall q :: q in table <==> q in old(table) && q !in toDelete[..i]
        invariant forall q :: q in table ==> table[q] == old(table)[q]
      {
        table := table - {toDelete[i]};
        assert toDelete[..i + 1] == toDelete[..i] + [toDelete[i]];
      }
      assert toDelete[..|toDelete|] == toDelete;
    }

    method Update(p: nat)
      requires Valid()
      modifies this
      ensures Valid() && seen == old(seen) + [p] && table == Updated(old(table), p)
    {
      AfterKeeps(seen);
      ghost var before := table;
      if p in table {
        if table[p] < MAX + 1 {
          table := table[p := table[p] + 1];
        }
      } else if |table| >= COUNTERS {
        var toDelete := DecrementAll();
        Erase(toDelete);
        assert table == Dropped(before);
      } else {
        table := table[p := 1];
      }
      seen := seen + [p];
      assert Front(seen) == old(seen) && Last(seen) == p;
    }
  }
}
