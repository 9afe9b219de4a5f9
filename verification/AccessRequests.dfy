/** Which requests an access adds to the queue. A fast line calls the group home that occupies it, a hot
    slow block follows the plan for the lines accessed so far, and a cold one that no group holds makes
    room by sending the groups of a cold page home. The queue may refuse any of these requests. */
module AccessRequests {
  import opened PlacementEntry
  import opened MigrationPlan
  import opened VariableGranularity

  // ----- Sending a cold page home ---------------------------------------------------------------------

  /** A queued request rules this one out. */
  predicate RuledOut(queue: seq<Request>, r: Request) {
    exists j :: 0 <= j < |queue| && !Compatible(queue[j], r)
  }

  /** The request is the eviction of a group from `i` on of page `cold`. */
  predicate SendsGroup(e: Entry, index: nat, cold: nat, i: nat, r: Request) {
    exists k :: i <= k < |e| && e[k].tag == cold && r == EvictionRequest(e, index, k)
  }

  /** `t` adds to the queue of `s` evictions of groups from `i` on of page `cold` in set `index`, and all
      those that the queue allows. */
  ghost predicate SendsHome(s: State, t: State, index: nat, cold: nat, i: nat)
    requires index < |s.placement|
  {
    var e := s.placement[index];
    && t == s.(queue := t.queue, congestion := t.congestion) && s.queue <= t.queue
    && (forall j :: |s.queue| <= j < |t.queue| ==> SendsGroup(e, index, cold, i, t.queue[j]))
    && (forall k :: i <= k < |e| && e[k].tag == cold ==>
          || EvictionRequest(e, index, k) in t.queue
          || RuledOut(s.queue, EvictionRequest(e, index, k))
          || |t.queue| == QUEUE_LENGTH)
  }

  /** A new eviction joins the queue, or the queue stays as it is for a reason. */
  lemma EvictionJoins(s: State, index: nat, k: nat)
    requires Inv(s) && index < s.sets && k < |s.placement[index]| && s.placement[index][k].tag != 0
    ensures var r := EvictionRequest(s.placement[index], index, k);
      var t := Enqueue(s, r);
      && Inv(t) && t == s.(queue := t.queue, congestion := t.congestion)
      && (t.queue == s.queue + [r] || (t.queue == s.queue && (RuledOut(s.queue, r) || |s.queue| == QUEUE_LENGTH)))
  {
    var r := EvictionRequest(s.placement[index], index, k);
    EvictionRequestOk(s, index, k);
    EnqueueKeeps(s, r);
    EnqueueExact(s, r);
  }

  /** Evictions of different groups may stand beside each other. */
  lemma GroupsCompatible(e: Entry, index: nat, k: nat, l: nat)
    requires WellFormed(e) && k < l < |e| && e[k].tag != 0 && e[l].tag != 0
    ensures Compatible(EvictionRequest(e, index, k), EvictionRequest(e, index, l))
  {
    OffsetGrows(e, k, l);
  }

  lemma JoinSendsHome(s: State, u: State, t: State, index: nat, cold: nat, i: nat)
    requires index < |s.placement| && WellFormed(s.placement[index]) && i < |s.placement[index]|
    requires s.placement[index][i].tag == cold != 0
    requires u == s.(queue := u.queue, congestion := u.congestion) && SendsHome(u, t, index, cold, i + 1)
    requires var r := EvictionRequest(s.placement[index], index, i);
      u.queue == s.queue + [r] || (u.queue == s.queue && (RuledOut(s.queue, r) || |s.queue| == QUEUE_LENGTH))
    requires |t.queue| <= QUEUE_LENGTH
    ensures SendsHome(s, t, index, cold, i)
  {
    var e := s.placement[index];
    var r := EvictionRequest(e, index, i);
    forall j | |s.queue| <= j < |t.queue| ensures SendsGroup(e, index, cold, i, t.queue[j]) {
      if j < |u.queue| {
        assert t.queue[j] == u.queue[j] == r;
      } else {
        assert SendsGroup(e, index, cold, i + 1, t.queue[j]);
      }
    }
    forall k | i <= k < |e| && e[k].tag == cold
      ensures EvictionRequest(e, index, k) in t.queue || RuledOut(s.queue, EvictionRequest(e, index, k))
              || |t.queue| == QUEUE_LENGTH
    {
      if k == i {
        if u.queue == s.queue + [r] { assert t.queue[|s.queue|] == u.queue[|s.queue|] == r; }
      } else if RuledOut(u.queue, EvictionRequest(e, index, k)) {
        var j :| 0 <= j < |u.queue| && !Compatible(u.queue[j], EvictionRequest(e, index, k));
        GroupsCompatible(e, index, i, k);
        assert j < |s.queue| && u.queue[j] == s.queue[j];
      }
    }
  }

  lemma {:induction false} EvictPageSends(s: State, index: nat, cold: nat, i: nat)
    requires Inv(s) && index < s.sets && i <= |s.placement[index]| && cold != 0
    ensures var t := EvictPage(s, s.placement[index], index, cold, i, false);
      Inv(t) && SendsHome(s, t, index, cold, i)
    decreases |s.placement[index]| - i
  {
    var e := s.placement[index];
    assert EntryOk(s, index, e);
    if i < |e| {
      if e[i].tag == cold {
        var u := Enqueue(s, EvictionRequest(e, index, i));
        EvictionJoins(s, index, i);
        EvictPageSends(u, index, cold, i + 1);
        JoinSendsHome(s, u, EvictPage(u, e, index, cold, i + 1, false), index, cold, i);
      } else {
        EvictPageSends(s, index, cold, i + 1);
        SkipSendsHome(s, EvictPage(s, e, index, cold, i + 1, false), index, cold, i);
      }
    }
  }

  lemma SkipSendsHome(s: State, t: State, index: nat, cold: nat, i: nat)
    requires index < |s.placement| && i < |s.placement[index]| && s.placement[index][i].tag != cold
    requires SendsHome(s, t, index, cold, i + 1)
    ensures SendsHome(s, t, index, cold, i)
  {
    var e := s.placement[index];
    forall j | |s.queue| <= j < |t.queue| ensures SendsGroup(e, index, cold, i, t.queue[j]) {
      assert SendsGroup(e, index, cold, i + 1, t.queue[j]);
    }
  }

  predicate FirstCold(s: State, index: nat, tag: nat, k: nat)
    requires TablesOk(s) && index < s.sets && k < |s.placement[index]|
  {
    ColdGroup(s, index, tag, k) && forall j :: 0 <= j < k ==> !ColdGroup(s, index, tag, j)
  }

  /** The page of the first cold group is sent home, and nothing else; nothing is when no other page of
      the set is cold, or the queue is busy. */
  lemma EvictColdExact(s: State, index: nat, tag: nat, busy: bool)
    requires Inv(s) && index < s.sets
    ensures var t := EvictCold(s, index, tag, busy);
      var e := s.placement[index];
      && Inv(t)
      && (busy || (forall j :: 0 <= j < |e| ==> !ColdGroup(s, index, tag, j)) ==> t == s)
      && (forall k :: 0 <= k < |e| && FirstCold(s, index, tag, k) && !busy ==> SendsHome(s, t, index, e[k].tag, 0))
  {
    var e := s.placement[index];
    var k := FindCold(s, index, tag, 0);
    EvictColdKeeps(s, index, tag, busy);
    assert forall l :: 0 <= l < |e| && FirstCold(s, index, tag, l) ==> l == k;
    if k < |e| {
      if busy {
        BusyPage(s, index, e[k].tag, k);
      } else {
        EvictPageSends(s, index, e[k].tag, k);
        AllSendsHome(s, EvictCold(s, index, tag, false), index, tag, k);
      }
    }
  }

  /** The first cold group is the first of its page. */
  lemma AllSendsHome(s: State, t: State, index: nat, tag: nat, k: nat)
    requires TablesOk(s) && index < s.sets && k < |s.placement[index]| && FirstCold(s, index, tag, k)
    requires SendsHome(s, t, index, s.placement[index][k].tag, k)
    ensures SendsHome(s, t, index, s.placement[index][k].tag, 0)
  {
    var e := s.placement[index];
    forall j | |s.queue| <= j < |t.queue| ensures SendsGroup(e, index, e[k].tag, 0, t.queue[j]) {
      assert SendsGroup(e, index, e[k].tag, k, t.queue[j]);
    }
    forall l | 0 <= l < |e| && e[l].tag == e[k].tag ensures l >= k {
      assert ColdGroup(s, index, tag, l);
    }
  }

  lemma {:induction false} BusyPage(s: State, index: nat, cold: nat, i: nat)
    requires index < |s.placement| && i <= |s.placement[index]|
    ensures EvictPage(s, s.placement[index], index, cold, i, true) == s
    decreases |s.placement[index]| - i
  {
    if i < |s.placement[index]| { BusyPage(s, index, cold, i + 1); }
  }

  /** The queue stays as it is if and only if it is busy or full, no other page of the set is cold, or
      queued requests rule out every group of the first cold page. */
  lemma EvictColdIdle(s: State, index: nat, tag: nat, busy: bool)
    requires Inv(s) && index < s.sets
    ensures var t := EvictCold(s, index, tag, busy);
      var e := s.placement[index];
      var k := FindCold(s, index, tag, 0);
      t.queue == s.queue <==>
        || busy || |s.queue| == QUEUE_LENGTH || k == |e|
        || forall l :: 0 <= l < |e| && e[l].tag == e[k].tag ==> RuledOut(s.queue, EvictionRequest(e, index, l))
  {
    var e := s.placement[index];
    var k := FindCold(s, index, tag, 0);
    var t := EvictCold(s, index, tag, busy);
    EvictColdExact(s, index, tag, busy);
    if !busy && k < |e| {
      assert SendsHome(s, t, index, e[k].tag, 0);
      if t.queue != s.queue {
        var n := |s.queue|;
        assert t.queue[..n] == s.queue;
        assert SendsGroup(e, index, e[k].tag, 0, t.queue[n]);
        var l :| 0 <= l < |e| && e[l].tag == e[k].tag && t.queue[n] == EvictionRequest(e, index, l);
        forall j | 0 <= j < n ensures Compatible(s.queue[j], t.queue[n]) {
          assert Compatible(t.queue[j], t.queue[n]);
        }
      } else {
        forall l | 0 <= l < |e| && e[l].tag == e[k].tag && |s.queue| != QUEUE_LENGTH
          ensures RuledOut(s.queue, EvictionRequest(e, index, l))
        {
          var r := EvictionRequest(e, index, l);
          if r in s.queue {
            var j :| 0 <= j < |s.queue| && s.queue[j] == r;
            assert !Compatible(s.queue[j], r);
          }
        }
      }
    }
  }

  // ----- What an access does ------------------------------------------------------------------------------

  /** The request joins the queue, unless it is busy or full or a queued request rules this one out. */
  ghost predicate Joins(s: State, t: State, r: Request, busy: bool) {
    && t == s.(queue := t.queue, congestion := t.congestion)
    && t.queue == if !busy && |s.queue| < QUEUE_LENGTH && !RuledOut(s.queue, r) then s.queue + [r] else s.queue
  }

  /** A group of the entry occupies the fast line. */
  predicate Occupies(e: Entry, k: nat, line: nat)
    requires k < |e|
  {
    e[k].tag != 0 && Offset(e, k) <= line < Offset(e, k) + e[k].size
  }

  lemma EvictionJoinsExact(s: State, index: nat, k: nat, busy: bool)
    requires Inv(s) && index < s.sets && k < |s.placement[index]| && s.placement[index][k].tag != 0
    ensures var r := EvictionRequest(s.placement[index], index, k); Joins(s, EnqueueUnless(s, busy, r), r, busy)
  {
    var r := EvictionRequest(s.placement[index], index, k);
    EvictionJoins(s, index, k);
    EvictionRequestOk(s, index, k);
    ScanFull(s, r);
  }

  /** The group that occupies the fast line is called home; without one nothing happens. */
  ghost predicate CallsHome(s: State, t: State, index: nat, line: nat, busy: bool)
    requires index < |s.placement|
  {
    var e := s.placement[index];
    && (forall k :: 0 <= k < |e| && Occupies(e, k, line) ==> Joins(s, t, EvictionRequest(e, index, k), busy))
    && ((forall k :: 0 <= k < |e| ==> !Occupies(e, k, line)) ==> t == s)
  }

  /** An access to a fast line calls home exactly the group that occupies it. */
  lemma CallHomeExact(s: State, index: nat, line: nat, busy: bool)
    requires Inv(s) && index < s.sets
    ensures CallsHome(s, CallHome(s, index, line, busy), index, line, busy)
  {
    var e := s.placement[index];
    assert EntryOk(s, index, e);
    var k := FindFast(e, line, 0);
    forall l | 0 <= l < |e| && Occupies(e, l, line) ensures l == k { FastSlot(e, l, line); }
    if k < |e| && e[k].tag != 0 {
      FastStarts(e, k, line);
      assert Occupies(e, k, line);
      EvictionJoinsExact(s, index, k, busy);
    }
  }

  /** The first group that ends behind the line starts at or before it. */
  lemma FastStarts(e: Entry, k: nat, line: nat)
    requires WellFormed(e) && k == FindFast(e, line, 0) < |e|
    ensures Offset(e, k) <= line < Offset(e, k) + e[k].size
  {
    if k > 0 { assert Offset(e, k) == Offset(e, k - 1) + e[k - 1].size; }
  }

  lemma ScanFull(s: State, r: Request)
    requires Inv(s) && RequestOk(s, r)
    ensures Enqueue(s, r).queue == s.queue + [r] <==> |s.queue| < QUEUE_LENGTH && !RuledOut(s.queue, r)
  {
    EnqueueExact(s, r);
  }

  predicate OnlyQueue(s: State, t: State) {
    t == s.(queue := t.queue, congestion := t.congestion)
  }

  /** The plan is followed: nothing, a cold page sent home, or a move. */
  ghost predicate Follows(s: State, t: State, index: nat, tag: nat, p: Plan, busy: bool)
    requires TablesOk(s) && index < s.sets
  {
    match p
    case Hit => t == s
    case Evict => t == EvictCold(s, index, tag, busy)
    case MoveIn(start, n) =>
      t == if busy then s else Enqueue(s, MoveInRequest(s.placement[index], index, tag, start, n))
  }

  /** A cold block: when no group has the line, a cold page makes room. */
  ghost predicate MakesRoom(s: State, t: State, index: nat, tag: nat, line: nat, busy: bool)
    requires TablesOk(s) && index < s.sets
  {
    var e := s.placement[index];
    t == if exists k :: 0 <= k < |e| && Covers(e[k], tag, line) then s else EvictCold(s, index, tag, busy)
  }

  /** What an access does beyond counting: in the fast page it calls a group home, in a hot slow block
      it follows the plan for the lines accessed so far, and in a cold one it makes room. */
  lemma TrackExact(s: State, block: nat, line: nat, busy: bool, tag: nat, index: nat)
    requires Inv(s) && line < LINES && block < |s.counter| && index < s.sets && block == Block(s.sets, tag, index)
    ensures var c := Count(s, block, line);
      var t := Track(s, block, line, busy);
      && Inv(c) && OnlyQueue(c, t)
      && (tag == 0 ==> CallsHome(c, t, index, line, busy))
      && (tag != 0 && !c.hot[block] ==> MakesRoom(c, t, index, tag, line, busy))
      && (tag != 0 && c.hot[block] ==>
            forall first, last :: Spans(c.access[block], first, last) ==>
              Follows(c, t, index, tag, PlanFor(c.placement[index], tag, first, last), busy))
  {
    CountKeeps(s, block, line);
    SplitUnique(s.sets, block, tag, index);
    var c := Count(s, block, line);
    if tag == 0 {
      CallHomeExact(c, index, line, busy);
    } else if c.hot[block] {
      assert c.access[block][line];
      forall first, last | Spans(c.access[block], first, last)
        ensures first == First(c.access[block], 0) && last == Last(c.access[block], LINES)
      {
      }
      EvictColdKeeps(c, index, tag, busy);
    } else {
      EvictColdKeeps(c, index, tag, busy);
    }
  }

  /** Beyond counting an access changes nothing but the queue. */
  lemma TrackCounts(s: State, block: nat, line: nat, busy: bool)
    requires Inv(s) && line < LINES && block < |s.counter|
    ensures Inv(Count(s, block, line)) && OnlyQueue(Count(s, block, line), Track(s, block, line, busy))
  {
    BlockSplit(s, block);
    TrackExact(s, block, line, busy, block / s.sets, block % s.sets);
  }

  lemma SplitUnique(n: nat, block: nat, q: nat, m: nat)
    requires m < n && block == q * n + m
    ensures block / n == q && block % n == m
  {
    var a := block / n;
    assert block == a * n + block % n;
    if a < q {
      MulBelow(a, q, n);
    } else if q < a {
      MulBelow(q, a, n);
    }
  }

  lemma MulBelow(a: nat, b: nat, n: nat)
    requires a < b
    ensures a * n + n <= b * n
  {
    assert b * n >= (a + 1) * n == a * n + n;
  }
}
