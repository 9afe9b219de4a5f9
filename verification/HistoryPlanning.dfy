/** What planning and carrying out do, over whole runs. */
module HistoryPlanning {
  import opened HistoryRemap

  // ----- Planning ----------------------------------------------------------------------------------

  /** While hot pages `q` of the list `hot` are still to be placed: the plan so far can be carried
      out, moves listed pages in and unlisted pages out, and names no page twice. */
  predicate PlanOk(s: State, hot: seq<nat>, q: seq<nat>) {
    && AllPlaced(s) && VictimsDistinct(s.queue) && ComersDistinct(s.queue) && |s.queue| <= QUEUE_LENGTH
    && Pages(s, q) && Distinct(q) && (forall i :: 0 <= i < |q| ==> q[i] in hot)
    && (forall k :: 0 <= k < |s.queue| ==> ComerOk(s.queue[k].sm, hot, q))
  }

  predicate ComerOk(h: nat, hot: seq<nat>, q: seq<nat>) {
    h in hot && h !in q
  }

  /** What a pass adds to the plan: its victims are candidates, its comers come from `q`. */
  predicate Added(s: State, t: State, hot: seq<nat>, q: seq<nat>, spared: seq<nat>, pass: Pass)
    requires Sized(s)
  {
    && s.queue <= t.queue
    && forall k :: |s.queue| <= k < |t.queue| ==>
         t.queue[k].fm < |s.table| && Candidate(s, hot, spared, pass, t.queue[k].fm) && t.queue[k].sm in q
  }

  lemma AddedStep(s: State, hot: seq<nat>, q: seq<nat>, spared: seq<nat>, pass: Pass, k: nat, p: nat, t: State)
    requires Sized(s) && p < |s.table| && Candidate(s, hot, spared, pass, p) && k < |q|
    requires Added(Enqueued(s, Request(p, q[k])), t, hot, q[k + 1..], spared, pass)
    ensures Added(s, t, hot, q, spared, pass)
  {
    var u := Enqueued(s, Request(p, q[k]));
    forall l | |s.queue| <= l < |t.queue|
      ensures t.queue[l].fm < |s.table| && Candidate(s, hot, spared, pass, t.queue[l].fm) && t.queue[l].sm in q
    {
      if l >= |u.queue| {
        assert Candidate(u, hot, spared, pass, t.queue[l].fm) && t.queue[l].sm in q[k + 1..];
      }
    }
  }

  lemma {:induction false} PassKeeps(s: State, hot: seq<nat>, q: seq<nat>, spared: seq<nat>, pass: Pass, busy: bool,
                                     p: nat)
    requires Sized(s) && PlanOk(s, hot, q) && p <= |s.table|
    ensures var t := PassFrom(s, hot, q, spared, pass, busy, p);
      PlanOk(t.state, hot, t.rest) && Added(s, t.state, hot, q, spared, pass)
    decreases |s.table| - p
  {
    if p < |s.table| && q != [] {
      if !Candidate(s, hot, spared, pass, p) {
        PassKeeps(s, hot, q, spared, pass, busy, p + 1);
      } else {
        var k := Skipped(s, q);
        if k < |q| {
          if !busy {
            var u := Enqueued(s, Request(p, q[k]));
            PassKeeps(u, hot, q[k + 1..], spared, pass, busy, p + 1);
            AddedStep(s, hot, q, spared, pass, k, p, PassFrom(u, hot, q[k + 1..], spared, pass, busy, p + 1).state);
          }
        }
      }
    }
  }

  /** A plan made on an empty queue: victims are unlisted pages in fast memory, comers are listed
      pages in slow memory, no page is named twice, and no spared page moves out. */
  lemma PlannedExact(s: State, hot: seq<nat>, spared: seq<nat>, limit: nat, busy: bool)
    requires Sized(s) && s.queue == [] && Pages(s, hot) && Distinct(hot)
    ensures var t := Planned(s, hot, spared, limit, busy);
      && AllPlaced(t) && VictimsDistinct(t.queue) && ComersDistinct(t.queue) && |t.queue| <= QUEUE_LENGTH
      && forall k :: 0 <= k < |t.queue| ==>
           && t.queue[k].sm in hot && t.queue[k].fm !in hot && t.queue[k].fm !in spared
           && t.queue[k].fm < |s.table|
           && (s.table[t.queue[k].fm].flag == 0 || s.counter[t.queue[k].fm] < limit)
  {
    PassKeeps(s, hot, hot, spared, Untouched, busy, 0);
    var first := PassFrom(s, hot, hot, spared, Untouched, busy, 0);
    PassKeeps(first.state, hot, first.rest, spared, Cold(limit), busy, 0);
    var t := Planned(s, hot, spared, limit, busy);
    forall k | 0 <= k < |t.queue| ensures ComerOk(t.queue[k].sm, hot, []) {
    }
    assert Added(s, first.state, hot, hot, spared, Untouched);
    assert Added(first.state, t, hot, first.rest, spared, Cold(limit));
  }

  predicate Comes(queue: seq<Request>, h: nat) {
    exists k :: 0 <= k < |queue| && queue[k].sm == h
  }

  /** Comers of the plan cover every page of `q` that lies in slow memory. */
  predicate AllComing(s: State, q: seq<nat>, queue: seq<Request>)
    requires Pages(s, q)
  {
    forall i :: 0 <= i < |q| && !InFast(s, q[i]) ==> Comes(queue, q[i])
  }

  /** Nothing is left undone without a reason: a first pass that is not held up either plans a place
      for every hot page in slow memory or uses every candidate. */
  lemma {:induction false} PassComplete(s: State, hot: seq<nat>, q: seq<nat>, spared: seq<nat>, pass: Pass, p: nat)
    requires Sized(s) && Pages(s, q) && p <= |s.table|
    requires forall k :: 0 <= k < |s.queue| ==> s.queue[k].fm < p
    requires PassFrom(s, hot, q, spared, pass, false, p).state.congestion == s.congestion
    ensures var t := PassFrom(s, hot, q, spared, pass, false, p);
      && s.queue <= t.state.queue
      && (AllComing(s, q, t.state.queue)
          || forall c: nat :: p <= c < |s.table| && Candidate(s, hot, spared, pass, c) ==> Names(t.state.queue, c))
    decreases |s.table| - p
  {
    if p < |s.table| && q != [] {
      if !Candidate(s, hot, spared, pass, p) {
        PassComplete(s, hot, q, spared, pass, p + 1);
      } else {
        var k := Skipped(s, q);
        if k < |q| {
          var u := Enqueued(s, Request(p, q[k]));
          CongestionGrows(u, hot, q[k + 1..], spared, pass, p + 1);
          PassComplete(u, hot, q[k + 1..], spared, pass, p + 1);
          PassCompleteStep(s, hot, q, spared, pass, p, k);
        }
      }
    }
  }

  lemma PassCompleteStep(s: State, hot: seq<nat>, q: seq<nat>, spared: seq<nat>, pass: Pass, p: nat, k: nat)
    requires Sized(s) && Pages(s, q) && p < |s.table| && k < |q| && !InFast(s, q[k])
    requires forall i :: 0 <= i < k ==> InFast(s, q[i])
    requires !Names(s.queue, p)
    requires var u := Enqueued(s, Request(p, q[k]));
      var t := PassFrom(u, hot, q[k + 1..], spared, pass, false, p + 1);
      && u.congestion == s.congestion && u.queue <= t.state.queue
      && (AllComing(u, q[k + 1..], t.state.queue)
          || forall c: nat :: p + 1 <= c < |s.table| && Candidate(u, hot, spared, pass, c) ==> Names(t.state.queue, c))
    ensures var t := PassFrom(Enqueued(s, Request(p, q[k])), hot, q[k + 1..], spared, pass, false, p + 1);
      && s.queue <= t.state.queue
      && (AllComing(s, q, t.state.queue)
          || forall c: nat :: p <= c < |s.table| && Candidate(s, hot, spared, pass, c) ==> Names(t.state.queue, c))
  {
    var u := Enqueued(s, Request(p, q[k]));
    var t := PassFrom(u, hot, q[k + 1..], spared, pass, false, p + 1);
    var n := |s.queue|;
    assert t.state.queue[n] == u.queue[n] == Request(p, q[k]);
    if AllComing(u, q[k + 1..], t.state.queue) {
      forall i | 0 <= i < |q| && !InFast(s, q[i])
        ensures Comes(t.state.queue, q[i])
      {
        if i > k { assert q[k + 1..][i - (k + 1)] == q[i]; }
      }
    } else {
      assert forall c: nat :: Sized(u) && c < |s.table| ==>
        Candidate(u, hot, spared, pass, c) == Candidate(s, hot, spared, pass, c);
    }
  }

  lemma {:induction false} CongestionGrows(s: State, hot: seq<nat>, q: seq<nat>, spared: seq<nat>, pass: Pass, p: nat)
    requires Sized(s) && Pages(s, q) && p <= |s.table|
    ensures PassFrom(s, hot, q, spared, pass, false, p).state.congestion >= s.congestion
    decreases |s.table| - p
  {
    if p < |s.table| && q != [] {
      if !Candidate(s, hot, spared, pass, p) {
        CongestionGrows(s, hot, q, spared, pass, p + 1);
      } else {
        var k := Skipped(s, q);
        if k < |q| {
          CongestionGrows(Enqueued(s, Request(p, q[k])), hot, q[k + 1..], spared, pass, p + 1);
        }
      }
    }
  }

  // ----- Carrying out ------------------------------------------------------------------------------------

  predicate Named(queue: seq<Request>, p: nat) {
    exists k :: 0 <= k < |queue| && (queue[k].fm == p || queue[k].sm == p)
  }

  /** The pages of every request trade frames and get the mark; all other pages stay put. */
  predicate Traded(s: State, queue: seq<Request>, mark: nat, t: State)
    requires forall k :: 0 <= k < |queue| ==> queue[k].fm < |s.table| && queue[k].sm < |s.table|
  {
    && t == s.(table := t.table, queue := []) && |t.table| == |s.table|
    && (forall k :: 0 <= k < |queue| ==>
          && t.table[queue[k].fm] == Mapping(s.table[queue[k].sm].frame, mark)
          && t.table[queue[k].sm] == Mapping(s.table[queue[k].fm].frame, mark))
    && (forall p: nat :: p < |s.table| && !Named(queue, p) ==> t.table[p] == s.table[p])
  }

  /** The state after the first request, when it can be carried out. */
  function First(s: State, mark: nat): State
    requires s.queue != [] && Placed(s, s.queue[0])
  {
    var r := s.queue[0];
    s.(queue := s.queue[1..],
       table := s.table[r.fm := Mapping(s.table[r.sm].frame, mark)][r.sm := Mapping(s.table[r.fm].frame, mark)])
  }

  lemma DrainStep(s: State, mark: nat, refuse: bool)
    requires s.queue != [] && Placed(s, s.queue[0])
    requires refuse ==> s.table[s.queue[0].sm].flag != 0
    ensures Drained(s, mark, refuse) == Drained(First(s, mark), mark, refuse)
  {
    var r := s.queue[0];
    var m := Marked(s, r, mark);
    assert Finished(m).Running? && Finished(m).state.table == First(s, mark).table;
  }

  lemma {:induction false} DrainTrades(s: State, mark: nat, refuse: bool)
    requires AllPlaced(s) && VictimsDistinct(s.queue) && ComersDistinct(s.queue) && mark != 0
    requires refuse ==> ComersAccessed(s)
    ensures Drained(s, mark, refuse).Running? && Traded(s, s.queue, mark, Drained(s, mark, refuse).state)
    decreases |s.queue|
  {
    if s.queue != [] {
      assert Placed(s, s.queue[0]);
      DrainStep(s, mark, refuse);
      DrainTrades(First(s, mark), mark, refuse);
      TradedStep(s, mark, Drained(First(s, mark), mark, refuse).state);
    }
  }

  lemma TradedStep(s: State, mark: nat, t: State)
    requires s.queue != [] && AllPlaced(s) && VictimsDistinct(s.queue) && ComersDistinct(s.queue)
    requires AllPlaced(First(s, mark)) && Traded(First(s, mark), First(s, mark).queue, mark, t)
    ensures Traded(s, s.queue, mark, t)
  {
    var u := First(s, mark);
    var q := s.queue;
    forall k | 0 <= k < |q|
      ensures t.table[q[k].fm] == Mapping(s.table[q[k].sm].frame, mark)
      ensures t.table[q[k].sm] == Mapping(s.table[q[k].fm].frame, mark)
    {
      assert Placed(s, q[k]) && Placed(s, q[0]);
      if k == 0 {
      } else {
        assert u.queue[k - 1] == q[k];
      }
    }
    forall p: nat | p < |s.table| && !Named(q, p) ensures t.table[p] == s.table[p] {
      assert !Named(u.queue, p) by {
        assert forall k :: 0 <= k < |u.queue| ==> u.queue[k] == q[k + 1];
      }
    }
  }

  /** A page that has reached fast memory and is not to leave it blocks every later request for it. */
  lemma {:induction false} DrainBlocked(s: State, mark: nat, k: nat)
    requires k < |s.queue| && s.queue[k].sm < |s.table| && InFast(s, s.queue[k].sm)
    requires forall i :: 0 <= i < |s.queue| ==> s.queue[i].fm != s.queue[k].sm
    ensures Drained(s, mark, false).Stopped?
    decreases |s.queue|
  {
    var r := s.queue[0];
    if k > 0 && r.fm < |s.table| && r.sm < |s.table| {
      var m := Marked(s, r, mark);
      if Finished(m).Running? {
        var t := Finished(m).state;
        assert t.queue == s.queue[1..] && t.queue[k - 1] == s.queue[k];
        DrainBlocked(t, mark, k - 1);
      }
    }
  }

  lemma {:induction false} DrainRepeated(s: State, mark: nat, i: nat, j: nat)
    requires AllPlaced(s) && VictimsDistinct(s.queue) && mark != 0
    requires i < j < |s.queue| && s.queue[i].sm == s.queue[j].sm
    ensures Drained(s, mark, false).Stopped?
    decreases i
  {
    assert Placed(s, s.queue[0]) && Placed(s, s.queue[j]);
    DrainStep(s, mark, false);
    var u := First(s, mark);
    assert forall k :: 0 <= k < |u.queue| ==> u.queue[k] == s.queue[k + 1] && Placed(s, s.queue[k + 1]);
    if s.queue[0].sm == s.queue[j].sm {
      DrainBlocked(u, mark, j - 1);
    } else {
      DrainOther(s, mark, i, j);
    }
  }

  lemma DrainOther(s: State, mark: nat, i: nat, j: nat)
    requires AllPlaced(s) && VictimsDistinct(s.queue) && mark != 0
    requires 0 < i < j < |s.queue| && s.queue[i].sm == s.queue[j].sm != s.queue[0].sm
    ensures Drained(First(s, mark), mark, false).Stopped?
    decreases i, 0
  {
    var u := First(s, mark);
    if m: nat :| 0 < m < |s.queue| && s.queue[m].sm == s.queue[0].sm {
      assert u.queue[m - 1] == s.queue[m];
      assert Placed(s, s.queue[m]) && Placed(s, s.queue[0]);
      forall k | 0 <= k < |u.queue| ensures u.queue[k].fm != u.queue[m - 1].sm {
        assert u.queue[k] == s.queue[k + 1] && Placed(s, s.queue[k + 1]);
      }
      DrainBlocked(u, mark, m - 1);
    } else {
      forall k | 0 <= k < |u.queue| ensures Placed(u, u.queue[k]) {
        assert u.queue[k] == s.queue[k + 1] && Placed(s, s.queue[k + 1]) && Placed(s, s.queue[0]);
      }
      assert u.queue[i - 1] == s.queue[i] && u.queue[j - 1] == s.queue[j];
      DrainRepeated(u, mark, i - 1, j - 1);
    }
  }

  /** Carrying out a queue whose requests were each possible when they were planned, with different
      victims, goes through if and only if no page is to come in twice; then every pair trades
      frames and all other pages stay put. */
  lemma DrainExact(s: State, mark: nat)
    requires AllPlaced(s) && VictimsDistinct(s.queue) && mark != 0
    ensures Drained(s, mark, false).Running? <==> ComersDistinct(s.queue)
    ensures Drained(s, mark, false).Running? ==> Traded(s, s.queue, mark, Drained(s, mark, false).state)
  {
    if ComersDistinct(s.queue) {
      DrainTrades(s, mark, false);
    } else {
      var i: nat, j: nat :| i < j < |s.queue| && s.queue[i].sm == s.queue[j].sm;
      DrainRepeated(s, mark, i, j);
    }
  }

  /** The request's pages were both never accessed, which a garbage collection refuses. */
  predicate Refused(s: State, r: Request)
    requires Placed(s, r)
  {
    s.table[r.fm].flag == 0 && s.table[r.sm].flag == 0
  }

  lemma {:induction false} DrainRefuses(s: State, mark: nat)
    requires AllPlaced(s) && VictimsDistinct(s.queue) && ComersDistinct(s.queue) && mark != 0
    ensures Drained(s, mark, true).Running? <==> forall k :: 0 <= k < |s.queue| ==> !Refused(s, s.queue[k])
    ensures Drained(s, mark, true).Running? ==> Traded(s, s.queue, mark, Drained(s, mark, true).state)
    decreases |s.queue|
  {
    if s.queue != [] {
      assert Placed(s, s.queue[0]);
      if !Refused(s, s.queue[0]) {
        RefuseStep(s, mark);
        var u := First(s, mark);
        FirstPlaced(s, mark);
        DrainRefuses(u, mark);
        assert forall k :: 0 <= k < |u.queue| ==> u.queue[k] == s.queue[k + 1];
        assert forall k :: 1 <= k < |s.queue| ==> s.queue[k] == u.queue[k - 1];
        if Drained(u, mark, true).Running? { TradedStep(s, mark, Drained(u, mark, true).state); }
      }
    }
  }

  lemma RefuseStep(s: State, mark: nat)
    requires s.queue != [] && Placed(s, s.queue[0]) && !Refused(s, s.queue[0])
    ensures Drained(s, mark, true) == Drained(First(s, mark), mark, true)
  {
    var m := Marked(s, s.queue[0], mark);
    assert Finished(m).Running? && Finished(m).state.table == First(s, mark).table;
  }

  /** The other requests stay placed, with pages flagged as before. */
  lemma FirstPlaced(s: State, mark: nat)
    requires s.queue != [] && AllPlaced(s) && VictimsDistinct(s.queue) && ComersDistinct(s.queue)
    ensures Placed(s, s.queue[0]) && AllPlaced(First(s, mark))
    ensures forall k :: 1 <= k < |s.queue| ==>
      Placed(s, s.queue[k]) && (Refused(s, s.queue[k]) <==> Refused(First(s, mark), s.queue[k]))
  {
    assert Placed(s, s.queue[0]);
    var u := First(s, mark);
    forall k | 1 <= k < |s.queue|
      ensures Placed(s, s.queue[k]) && Placed(u, s.queue[k])
      ensures Refused(s, s.queue[k]) <==> Refused(u, s.queue[k])
    {
      assert Placed(s, s.queue[k]);
    }
    forall k | 0 <= k < |u.queue| ensures Placed(u, u.queue[k]) { assert u.queue[k] == s.queue[k + 1]; }
  }

  // ----- Runs -------------------------------------------------------------------------------------------

  lemma FirstInv(s: State, mark: nat)
    requires Inv(s) && s.queue != [] && 2 <= mark <= 3
    ensures Inv(First(s, mark))
  {
    var u := First(s, mark);
    assert Placed(s, s.queue[0]);
    forall p | 0 <= p < |u.table| ensures PageOk(u, p) { assert PageOk(s, p); }
  }

  lemma {:induction false} DrainKeeps(s: State, mark: nat, refuse: bool)
    requires Inv(s) && 2 <= mark <= 3
    ensures Drained(s, mark, refuse).Running? && Inv(Drained(s, mark, refuse).state)
    ensures Drained(s, mark, refuse).state.queue == []
    decreases |s.queue|
  {
    if s.queue != [] {
      assert Placed(s, s.queue[0]);
      DrainStep(s, mark, refuse);
      FirstInv(s, mark);
      DrainKeeps(First(s, mark), mark, refuse);
    }
  }

  lemma PlannedKeeps(s: State, order: seq<nat>, threshold: nat, cap: nat, spared: seq<nat>, limit: nat, busy: bool)
    requires Inv(s) && s.queue == [] && Ranking(order, s.counter) && threshold > 0
    ensures Inv(Planned(s, HotList(s, order, threshold, cap), spared, limit, busy))
  {
    HotListExact(s, order, threshold, cap);
    var hot := HotList(s, order, threshold, cap);
    PlannedExact(s, hot, spared, limit, busy);
    var t := Planned(s, hot, spared, limit, busy);
    forall k | 0 <= k < |t.queue| ensures t.queue[k].sm < |t.table| && t.table[t.queue[k].sm].flag != 0 {
      assert t.queue[k].sm in hot && Placed(t, t.queue[k]) && PageOk(s, t.queue[k].sm);
    }
    forall p | 0 <= p < |t.table| ensures PageOk(t, p) { assert PageOk(s, p); }
  }

  lemma EpochKeeps(s: State, order: seq<nat>, busy: bool)
    requires Inv(s) && s.queue == [] && Ranking(order, s.counter)
    ensures Inv(Epoch(s, order, busy))
  {
    PlannedKeeps(s, order, HOTNESS, MAX_PAGES, [], COLDNESS, busy);
    var u := Planned(s, HotList(s, order, HOTNESS, MAX_PAGES), [], COLDNESS, busy);
    var t := Epoch(s, order, busy);
    forall p | 0 <= p < |t.table| ensures PageOk(t, p) { assert PageOk(u, p); }
    forall k | 0 <= k < |t.queue| ensures Placed(t, t.queue[k]) { assert Placed(u, u.queue[k]); }
  }

  lemma ForgottenKeeps(s: State, pages: seq<nat>)
    requires Inv(s)
    ensures Inv(Forgotten(s, pages))
  {
    var t := Forgotten(s, pages);
    forall p | 0 <= p < |t.table| ensures PageOk(t, p) { assert PageOk(s, p); }
    forall k | 0 <= k < |t.queue| ensures Placed(t, t.queue[k]) { assert Placed(s, s.queue[k]); }
  }

  lemma GcKeeps(s: State, unmarked: seq<nat>, order: seq<nat>)
    requires Inv(s) && s.queue == [] && Ranking(order, Forgotten(s, unmarked).counter)
    ensures Inv(GcPlanned(s, unmarked, order))
    ensures Gc(s, unmarked, order).Running? && Inv(Gc(s, unmarked, order).state)
    ensures Gc(s, unmarked, order).state.queue == []
  {
    ForgottenKeeps(s, unmarked);
    PlannedKeeps(Forgotten(s, unmarked), order, GC_HOTNESS, GC_MAX_PAGES, unmarked, GC_COLDNESS, false);
    DrainKeeps(GcPlanned(s, unmarked, order), 3, true);
  }

  lemma ClearedKeeps(s: State)
    requires Inv(s)
    ensures Inv(Cleared(s))
  {
    var t := Cleared(s);
    forall p | 0 <= p < |t.table| ensures PageOk(t, p) { assert PageOk(s, p); }
    forall k | 0 <= k < |t.queue| ensures Placed(t, t.queue[k]) { assert Placed(s, s.queue[k]); }
  }

  lemma DroppedKeeps(s: State)
    requires Inv(s)
    ensures Inv(s.(queue := []))
  {
    var t := s.(queue := []);
    forall p | 0 <= p < |t.table| ensures PageOk(t, p) { assert PageOk(s, p); }
  }

  /** A garbage collection may begin while an epoch's plan is still queued. */
  lemma CollectionKeeps(s: State, unmarked: seq<nat>, order: seq<nat>)
    requires Inv(s) && Ranking(order, Forgotten(s, unmarked).counter)
    ensures var r := Collection(s, unmarked, order);
      r.Running? && Inv(r.state) && r.state.queue == []
      && forall p :: 0 <= p < |r.state.counter| ==> r.state.counter[p] == 0
  {
    var t := s.(queue := []);
    DroppedKeeps(s);
    assert Forgotten(t, unmarked).counter == Forgotten(s, unmarked).counter;
    GcKeeps(t, unmarked, order);
    ClearedKeeps(Gc(t, unmarked, order).state);
  }

  /** A garbage collection plans no request with an unmarked page on either side. */
  lemma GcSparesUnmarked(s: State, unmarked: seq<nat>, order: seq<nat>)
    requires Inv(s) && s.queue == [] && Ranking(order, Forgotten(s, unmarked).counter)
    ensures var q := GcPlanned(s, unmarked, order).queue;
      forall k :: 0 <= k < |q| ==> q[k].fm !in unmarked && q[k].sm !in unmarked
  {
    var t := Forgotten(s, unmarked);
    var hot := HotList(t, order, GC_HOTNESS, GC_MAX_PAGES);
    HotListExact(t, order, GC_HOTNESS, GC_MAX_PAGES);
    PlannedExact(t, hot, unmarked, GC_COLDNESS, false);
    var q := GcPlanned(s, unmarked, order).queue;
    forall k | 0 <= k < |q| ensures q[k].sm !in unmarked {
      assert q[k].sm in hot && t.counter[q[k].sm] >= GC_HOTNESS;
    }
  }

  datatype Event =
    | Access(page: nat)
    | EndEpoch(order: seq<nat>, busy: bool)
    | Drain
    | Collect(unmarked: seq<nat>, order: seq<nat>)

  /** The plan of an epoch presumes that the last one has been carried out; a collection drops it. */
  predicate Enabled(s: State, e: Event)
    requires Sized(s)
  {
    match e
    case Access(p) => p < |s.table|
    case EndEpoch(order, _) => s.queue == [] && Ranking(order, s.counter)
    case Drain => true
    case Collect(unmarked, order) => Ranking(order, Forgotten(s, unmarked).counter)
  }

  function Step(s: State, e: Event): Outcome
    requires Sized(s) && Enabled(s, e)
  {
    match e
    case Access(p) => Running(Tracked(Translated(s, p), p))
    case EndEpoch(order, busy) => Running(Epoch(s, order, busy))
    case Drain => Drained(s, 2, false)
    case Collect(unmarked, order) => Collection(s, unmarked, order)
  }

  /** No event ever meets one of the program's error exits, and every event keeps the table a
      permutation with never-moved pages at home. */
  lemma StepKeeps(s: State, e: Event)
    requires Inv(s) && Enabled(s, e)
    ensures Step(s, e).Running? && Inv(Step(s, e).state)
  {
    match e
    case Access(p) => AccessKeeps(s, p);
    case EndEpoch(order, busy) => EpochKeeps(s, order, busy);
    case Drain => DrainKeeps(s, 2, false);
    case Collect(unmarked, order) => CollectionKeeps(s, unmarked, order);
  }

  ghost predicate Run(s: State, events: seq<Event>)
    requires Inv(s)
    decreases |events|
  {
    events == [] ||
    (&& Enabled(s, events[0])
     && (StepKeeps(s, events[0]); Run(Step(s, events[0]).state, events[1..])))
  }

  ghost function StateAfter(s: State, events: seq<Event>): (t: State)
    requires Inv(s) && Run(s, events)
    ensures Inv(t)
    decreases |events|
  {
    if events == [] then s
    else
      StepKeeps(s, events[0]);
      StateAfter(Step(s, events[0]).state, events[1..])
  }

  /** In every run from the start, every page keeps a frame of its own, a page no migration has
      moved is in its home frame, and a page with a count has been accessed. */
  lemma RunKeepsTable(pages: nat, fast: nat, events: seq<Event>, p: nat, q: nat)
    requires fast <= pages && Inv(Initial(pages, fast)) && Run(Initial(pages, fast), events)
    requires p < q < |StateAfter(Initial(pages, fast), events).table|
    ensures var t := StateAfter(Initial(pages, fast), events);
      && |t.counter| == |t.table| && t.table[p].frame != t.table[q].frame && t.table[p].frame < |t.table|
      && (t.table[p].flag <= 1 ==> t.table[p].frame == p)
      && (t.counter[p] != 0 ==> t.table[p].flag != 0)
  {
    var t := StateAfter(Initial(pages, fast), events);
    assert PageOk(t, p);
  }

  /** An epoch and the carrying out of its plan: every planned page was hot and in slow memory and
      ends up in fast memory, in exchange for a page that was never accessed or cold; no other page
      moves. */
  lemma EpochMoves(s: State, order: seq<nat>, busy: bool, k: nat)
    requires Inv(s) && s.queue == [] && Ranking(order, s.counter)
    requires k < |Epoch(s, order, busy).queue|
    ensures var t := Epoch(s, order, busy);
      var r := t.queue[k];
      Placed(s, r) && AllPlaced(t) && Drained(t, 2, false).Running? &&
      var u := Drained(t, 2, false).state;
      && Traded(t, t.queue, 2, u)
      && s.counter[r.sm] >= HOTNESS && (s.table[r.fm].flag == 0 || s.counter[r.fm] < COLDNESS)
      && u.table[r.sm].frame == s.table[r.fm].frame && u.table[r.fm].frame == s.table[r.sm].frame
  {
    var hot := HotList(s, order, HOTNESS, MAX_PAGES);
    HotListExact(s, order, HOTNESS, MAX_PAGES);
    PlannedExact(s, hot, [], COLDNESS, busy);
    EpochKeeps(s, order, busy);
    var t := Epoch(s, order, busy);
    assert Placed(t, t.queue[k]);
    DrainTrades(t, 2, false);
  }

  /** What a collection may plan: a marked page of slow memory that is hot comes in for a marked, unlisted
      page of fast memory that was never accessed or is cold. */
  predicate GcTrade(s: State, unmarked: seq<nat>, order: seq<nat>, r: Request)
    requires Sized(s) && Ranking(order, Forgotten(s, unmarked).counter)
  {
    && Placed(s, r) && r.sm !in unmarked && r.fm !in unmarked
    && s.counter[r.sm] >= GC_HOTNESS && (s.table[r.fm].flag == 0 || s.counter[r.fm] < GC_COLDNESS)
    && r.fm !in HotList(Forgotten(s, unmarked), order, GC_HOTNESS, GC_MAX_PAGES)
  }

  /** A garbage collection carries out what it plans: the pages of every request trade frames and get the
      mark 3, and no other page moves. */
  lemma GcMoves(s: State, unmarked: seq<nat>, order: seq<nat>)
    requires Inv(s) && s.queue == [] && Ranking(order, Forgotten(s, unmarked).counter)
    ensures var t := GcPlanned(s, unmarked, order);
      && t.table == s.table && t.fast == s.fast && AllPlaced(t)
      && (forall k :: 0 <= k < |t.queue| ==> GcTrade(s, unmarked, order, t.queue[k]))
      && VictimsDistinct(t.queue) && ComersDistinct(t.queue)
      && Gc(s, unmarked, order).Running? && Traded(t, t.queue, 3, Gc(s, unmarked, order).state)
  {
    GcKeeps(s, unmarked, order);
    GcSparesUnmarked(s, unmarked, order);
    var f := Forgotten(s, unmarked);
    var hot := HotList(f, order, GC_HOTNESS, GC_MAX_PAGES);
    HotListExact(f, order, GC_HOTNESS, GC_MAX_PAGES);
    PlannedExact(f, hot, unmarked, GC_COLDNESS, false);
    var t := GcPlanned(s, unmarked, order);
    forall k | 0 <= k < |t.queue| ensures GcTrade(s, unmarked, order, t.queue[k]) {
      assert Placed(t, t.queue[k]);
    }
    DrainTrades(t, 3, true);
  }

  /** The whole collection, whatever was queued before: its own plan is carried out, nothing else moves,
      and all counters are cleared. */
  lemma CollectionMoves(s: State, unmarked: seq<nat>, order: seq<nat>)
    requires Inv(s) && Ranking(order, Forgotten(s, unmarked).counter)
    ensures Collection(s, unmarked, order).Running? && Sized(s.(queue := []))
    ensures Ranking(order, Forgotten(s.(queue := []), unmarked).counter)
    ensures var t, u := GcPlanned(s.(queue := []), unmarked, order), Collection(s, unmarked, order).state;
      && t.table == s.table && t.fast == s.fast && AllPlaced(t)
      && (forall k :: 0 <= k < |t.queue| ==> GcTrade(s, unmarked, order, t.queue[k]))
      && VictimsDistinct(t.queue) && ComersDistinct(t.queue)
      && Traded(t, t.queue, 3, u.(counter := t.counter))
      && |u.counter| == |s.counter| && forall p :: 0 <= p < |u.counter| ==> u.counter[p] == 0
  {
    var d := s.(queue := []);
    DroppedKeeps(s);
    assert Forgotten(d, unmarked) == Forgotten(s, unmarked).(queue := []);
    GcMoves(d, unmarked, order);
    CollectionKeeps(s, unmarked, order);
    var t := GcPlanned(d, unmarked, order);
    HotListSame(Forgotten(s, unmarked), Forgotten(d, unmarked), order, GC_HOTNESS, GC_MAX_PAGES, 0, 0);
    forall k | 0 <= k < |t.queue| ensures GcTrade(s, unmarked, order, t.queue[k]) {
      assert GcTrade(d, unmarked, order, t.queue[k]);
    }
  }

  lemma {:induction false} HotListSame(s: State, t: State, order: seq<nat>, threshold: nat, cap: nat, i: nat,
                                       slow: nat)
    requires Sized(s) && t == s.(queue := t.queue) && |order| == |s.table| && Pages(s, order) && i <= s.fast
    ensures Listed(s, order, threshold, cap, i, slow) == Listed(t, order, threshold, cap, i, slow)
    decreases s.fast - i
  {
    if i < s.fast {
      HotListSame(s, t, order, threshold, cap, i + 1, slow);
      HotListSame(s, t, order, threshold, cap, i + 1, slow + 1);
    }
  }

  // ----- Planning on a plan that is still queued -------------------------------------------------------

  /** A pass on any queue plans only what can be carried out, for different victims. */
  lemma {:induction false} PassPlaced(s: State, hot: seq<nat>, q: seq<nat>, spared: seq<nat>, pass: Pass, busy: bool,
                                      p: nat)
    requires Sized(s) && Pages(s, q) && p <= |s.table| && AllPlaced(s) && VictimsDistinct(s.queue)
    ensures var t := PassFrom(s, hot, q, spared, pass, busy, p).state;
      AllPlaced(t) && VictimsDistinct(t.queue) && s.queue <= t.queue
    decreases |s.table| - p
  {
    if p < |s.table| && q != [] {
      if !Candidate(s, hot, spared, pass, p) {
        PassPlaced(s, hot, q, spared, pass, busy, p + 1);
      } else {
        var k := Skipped(s, q);
        if k < |q| && !busy {
          PassPlaced(Enqueued(s, Request(p, q[k])), hot, q[k + 1..], spared, pass, busy, p + 1);
        }
      }
    }
  }

  /** What comes in for what is planned now. */
  lemma {:induction false} PassComers(s: State, hot: seq<nat>, q: seq<nat>, spared: seq<nat>, pass: Pass, busy: bool,
                                      p: nat)
    requires Sized(s) && Pages(s, q) && p <= |s.table| && Distinct(q)
    ensures var t := PassFrom(s, hot, q, spared, pass, busy, p);
      && s.queue <= t.state.queue && Distinct(t.rest) && (forall h :: h in t.rest ==> h in q)
      && Fresh(s.queue, t.state.queue, q, t.rest)
    decreases |s.table| - p
  {
    if p < |s.table| && q != [] {
      if !Candidate(s, hot, spared, pass, p) {
        PassComers(s, hot, q, spared, pass, busy, p + 1);
      } else {
        var k := Skipped(s, q);
        if k < |q| && !busy {
          var u := Enqueued(s, Request(p, q[k]));
          PassComers(u, hot, q[k + 1..], spared, pass, busy, p + 1);
          FreshStep(s.queue, u.queue, PassFrom(u, hot, q[k + 1..], spared, pass, busy, p + 1), p, q, k);
        }
      }
    }
  }

  /** The comers added to `queue` come from list `q`, each once, and are not left on it. */
  predicate Fresh(queue: seq<Request>, later: seq<Request>, q: seq<nat>, rest: seq<nat>) {
    && (forall k :: |queue| <= k < |later| ==> later[k].sm in q && later[k].sm !in rest)
    && (forall i, j :: |queue| <= i < j < |later| ==> later[i].sm != later[j].sm)
  }

  lemma FreshStep(queue: seq<Request>, next: seq<Request>, t: Plan, p: nat, q: seq<nat>, k: nat)
    requires k < |q| && Distinct(q) && (next == queue || next == queue + [Request(p, q[k])])
    requires next <= t.state.queue && Fresh(next, t.state.queue, q[k + 1..], t.rest)
    requires forall h :: h in t.rest ==> h in q[k + 1..]
    ensures queue <= t.state.queue && Fresh(queue, t.state.queue, q, t.rest)
  {
    assert q[k] !in q[k + 1..];
    var later := t.state.queue;
    if next != queue { assert later[|queue|] == next[|queue|]; }
  }

  lemma FreshJoin(queue: seq<Request>, next: seq<Request>, later: seq<Request>, q: seq<nat>, rest: seq<nat>,
                  last: seq<nat>)
    requires queue <= next <= later && Fresh(queue, next, q, rest) && Fresh(next, later, rest, last)
    requires forall h :: h in rest ==> h in q
    requires forall h :: h in last ==> h in rest
    ensures Fresh(queue, later, q, last)
  {
  }

  /** A new plan on any queue, whatever is still in it. */
  lemma PlannedFresh(s: State, hot: seq<nat>, spared: seq<nat>, limit: nat, busy: bool)
    requires Sized(s) && Pages(s, hot) && Distinct(hot) && AllPlaced(s) && VictimsDistinct(s.queue)
    ensures var t := Planned(s, hot, spared, limit, busy);
      && AllPlaced(t) && VictimsDistinct(t.queue) && s.queue <= t.queue && Fresh(s.queue, t.queue, hot, [])
  {
    var first := PassFrom(s, hot, hot, spared, Untouched, busy, 0);
    var last := PassFrom(first.state, hot, first.rest, spared, Cold(limit), busy, 0);
    PassPlaced(s, hot, hot, spared, Untouched, busy, 0);
    PassComers(s, hot, hot, spared, Untouched, busy, 0);
    PassPlaced(first.state, hot, first.rest, spared, Cold(limit), busy, 0);
    PassComers(first.state, hot, first.rest, spared, Cold(limit), busy, 0);
    FreshJoin(s.queue, first.state.queue, last.state.queue, hot, first.rest, last.rest);
  }

  /** An epoch's plan names a page for which a request is queued already. */
  predicate NamesAgain(queue: seq<Request>, later: seq<Request>) {
    exists k :: |queue| <= k < |later| && Comes(queue, later[k].sm)
  }

  /** An epoch that plans while the last plan is still queued: carrying out goes through if and only if
      no page is named that is to come in already, and then exactly the named pairs trade frames. In
      particular it goes through when no page that is to come in is hot again. */
  lemma StalePlanExact(s: State, order: seq<nat>, busy: bool)
    requires Inv(s) && Ranking(order, s.counter)
    ensures var t := Epoch(s, order, busy);
      && s.queue <= t.queue && AllPlaced(t) && VictimsDistinct(t.queue)
      && (Drained(t, 2, false).Running? <==> !NamesAgain(s.queue, t.queue))
      && (Drained(t, 2, false).Running? ==> Traded(t, t.queue, 2, Drained(t, 2, false).state))
      && ((forall k :: 0 <= k < |s.queue| ==> s.queue[k].sm !in HotList(s, order, HOTNESS, MAX_PAGES)) ==>
            Drained(t, 2, false).Running?)
  {
    var hot := HotList(s, order, HOTNESS, MAX_PAGES);
    HotListExact(s, order, HOTNESS, MAX_PAGES);
    PlannedFresh(s, hot, [], COLDNESS, busy);
    var u := Planned(s, hot, [], COLDNESS, busy);
    var t := Epoch(s, order, busy);
    assert AllPlaced(t) by {
      forall k | 0 <= k < |t.queue| ensures Placed(t, t.queue[k]) { assert Placed(u, u.queue[k]); }
    }
    ComersSplit(s.queue, t.queue, hot);
    DrainExact(t, 2);
  }

  lemma ComersSplit(queue: seq<Request>, later: seq<Request>, hot: seq<nat>)
    requires queue <= later && ComersDistinct(queue) && Fresh(queue, later, hot, [])
    ensures ComersDistinct(later) <==> !NamesAgain(queue, later)
  {
    if !NamesAgain(queue, later) {
      forall i, j | 0 <= i < j < |later| ensures later[i].sm != later[j].sm {
        if i < |queue| {
          assert queue[i] == later[i];
          if j < |queue| {
            assert queue[j] == later[j];
          } else {
            assert !Comes(queue, later[j].sm);
          }
        }
      }
    } else {
      var k :| |queue| <= k < |later| && Comes(queue, later[k].sm);
      var i :| 0 <= i < |queue| && queue[i].sm == later[k].sm;
      assert later[i] == queue[i];
    }
  }

  /** Page 2 is planned to come in for page 0 and is hot again before that has happened. */
  const STALE := State(2, [Mapping(0, 1), Mapping(1, 1), Mapping(2, 1)], [100, 0, 1280], [Request(0, 2)], 0)
  const RANKS: seq<nat> := [2, 0, 1]
  const TWICE: seq<Request> := [Request(0, 2), Request(1, 2)]

  lemma StaleHot()
    ensures Inv(STALE) && Ranking(RANKS, STALE.counter) && HotList(STALE, RANKS, HOTNESS, MAX_PAGES) == [2]
  {
    assert RANKS[0] == 2 && RANKS[1] == 0 && RANKS[2] == 1;
    assert Listed(STALE, RANKS, HOTNESS, MAX_PAGES, 1, 1) == 1;
  }

  lemma StalePlan(s: State)
    requires s == STALE
    ensures Planned(s, [2], [], COLDNESS, false) == s.(queue := TWICE)
  {
    assert Skipped(s, [2]) == 0 && [2][1..] == [];
    assert PassFrom(s, [2], [2], [], Untouched, false, 1) == Plan(s, [2]);
    assert Enqueued(s, Request(1, 2)) == s.(queue := TWICE);
    assert PassFrom(s, [2], [2], [], Cold(COLDNESS), false, 1) == Plan(s.(queue := TWICE), []);
  }

  /** Planning while an old plan is still queued is what can go wrong: a page planned twice stops
      the program when the queue is carried out. */
  lemma StalePlanStops()
    ensures Inv(STALE) && Ranking(RANKS, STALE.counter)
    ensures Epoch(STALE, RANKS, false).queue == TWICE
    ensures Drained(Epoch(STALE, RANKS, false), 2, false) == Stopped
  {
    StaleHot();
    StalePlan(STALE);
    var t := Epoch(STALE, RANKS, false);
    assert Placed(t, TWICE[0]) && Placed(t, TWICE[1]);
    assert TWICE[0].sm == TWICE[1].sm;
    DrainExact(t, 2);
  }
}
