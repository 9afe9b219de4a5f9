/** How complete the plan of an epoch is. */
module HistoryCompleteness {
  import opened HistoryRemap
  import opened HistoryPlanning

  /** Every hot page in slow memory has its place in the plan, or every candidate of the pass is used. */
  ghost predicate Exhausts(s: State, hot: seq<nat>, spared: seq<nat>, pass: Pass, queue: seq<Request>)
    requires Sized(s) && Pages(s, hot)
  {
    || AllComing(s, hot, queue)
    || forall c: nat :: c < |s.table| && Candidate(s, hot, spared, pass, c) ==> Names(queue, c)
  }

  // ----- Counting ------------------------------------------------------------------------------------

  /** How many candidates there are among the pages from `p` up to `c`. */
  function Rank(s: State, hot: seq<nat>, spared: seq<nat>, pass: Pass, p: nat, c: nat): nat
    requires Sized(s) && p <= c <= |s.table|
    decreases c - p
  {
    if p == c then 0
    else Rank(s, hot, spared, pass, p + 1, c) + (if Candidate(s, hot, spared, pass, p) then 1 else 0)
  }

  /** How many pages of the list lie in slow memory. */
  function SlowOf(s: State, q: seq<nat>): nat
    requires Pages(s, q)
  {
    if q == [] then 0 else SlowOf(s, q[1..]) + (if InFast(s, q[0]) then 0 else 1)
  }

  lemma {:induction false} SlowSkipped(s: State, q: seq<nat>)
    requires Pages(s, q)
    ensures var k := Skipped(s, q);
      SlowOf(s, q) == if k == |q| then 0 else 1 + SlowOf(s, q[k + 1..])
  {
    if q != [] && InFast(s, q[0]) {
      SlowSkipped(s, q[1..]);
      var k := Skipped(s, q[1..]);
      assert k < |q[1..]| ==> q[1..][k + 1..] == q[k + 2..];
    }
  }

  lemma {:induction false} NoneSlow(s: State, q: seq<nat>)
    requires Pages(s, q)
    ensures SlowOf(s, q) == 0 <==> forall i :: 0 <= i < |q| ==> InFast(s, q[i])
  {
    if q != [] {
      NoneSlow(s, q[1..]);
      assert forall i :: 1 <= i < |q| ==> q[i] == q[1..][i - 1];
    }
  }

  /** The two states differ in their plans only. */
  predicate Alike(s: State, u: State) {
    Sized(s) && u.table == s.table && u.counter == s.counter && u.fast == s.fast
  }

  lemma {:induction false} SameSkipped(s: State, u: State, q: seq<nat>)
    requires Alike(s, u) && Pages(s, q)
    ensures Skipped(u, q) == Skipped(s, q)
  {
    if q != [] { SameSkipped(s, u, q[1..]); }
  }

  // ----- The first pass --------------------------------------------------------------------------------

  /** Of the slow pages of the list a pass takes as many as there are candidates. */
  lemma {:induction false} PassLeaves(s: State, u: State, hot: seq<nat>, q: seq<nat>, spared: seq<nat>, pass: Pass,
                                      p: nat)
    requires Alike(s, u) && Pages(s, q) && p <= |s.table|
    ensures var left := SlowOf(s, q) - Rank(s, hot, spared, pass, p, |s.table|);
      SlowOf(s, PassFrom(u, hot, q, spared, pass, false, p).rest) == if left > 0 then left else 0
    decreases |s.table| - p
  {
    if p < |s.table| && q != [] {
      if !Candidate(s, hot, spared, pass, p) {
        PassLeaves(s, u, hot, q, spared, pass, p + 1);
      } else {
        SameSkipped(s, u, q);
        SlowSkipped(s, q);
        var k := Skipped(s, q);
        if k < |q| {
          PassLeaves(s, Enqueued(u, Request(p, q[k])), hot, q[k + 1..], spared, pass, p + 1);
        }
      }
    }
  }

  /** Every slow page of the list is still to be placed or has its place in the plan. */
  predicate Kept(s: State, q: seq<nat>, t: Plan)
    requires Pages(s, q)
  {
    forall i :: 0 <= i < |q| && !InFast(s, q[i]) ==> q[i] in t.rest || Comes(t.state.queue, q[i])
  }

  /** A first pass plans a place for every slow page it takes from the list. */
  lemma {:induction false} PassPlaces(s: State, hot: seq<nat>, q: seq<nat>, spared: seq<nat>, pass: Pass, p: nat)
    requires Sized(s) && Pages(s, q) && p <= |s.table|
    requires forall k :: 0 <= k < |s.queue| ==> s.queue[k].fm < p
    requires PassFrom(s, hot, q, spared, pass, false, p).state.congestion == s.congestion
    ensures var t := PassFrom(s, hot, q, spared, pass, false, p);
      s.queue <= t.state.queue && Kept(s, q, t)
    decreases |s.table| - p
  {
    if p < |s.table| && q != [] {
      if !Candidate(s, hot, spared, pass, p) {
        PassPlaces(s, hot, q, spared, pass, p + 1);
      } else {
        var k := Skipped(s, q);
        if k < |q| {
          var u := Enqueued(s, Request(p, q[k]));
          CongestionGrows(u, hot, q[k + 1..], spared, pass, p + 1);
          PassPlaces(u, hot, q[k + 1..], spared, pass, p + 1);
          assert u.queue[|s.queue|].sm == q[k];
          KeptStep(s, u, q, k, PassFrom(u, hot, q[k + 1..], spared, pass, false, p + 1));
        }
      }
    }
  }

  lemma KeptStep(s: State, u: State, q: seq<nat>, k: nat, t: Plan)
    requires Alike(s, u) && Pages(s, q) && k < |q| && forall i :: 0 <= i < k ==> InFast(s, q[i])
    requires Comes(u.queue, q[k]) && u.queue <= t.state.queue && Kept(u, q[k + 1..], t)
    ensures Kept(s, q, t)
  {
    forall i | 0 <= i < |q| && !InFast(s, q[i]) ensures q[i] in t.rest || Comes(t.state.queue, q[i]) {
      if i == k {
        ComesStill(u.queue, t.state.queue, q[k]);
      } else {
        assert q[i] == q[k + 1..][i - (k + 1)];
      }
    }
  }

  lemma ComesStill(queue: seq<Request>, later: seq<Request>, h: nat)
    requires Comes(queue, h) && queue <= later
    ensures Comes(later, h)
  {
    var k :| 0 <= k < |queue| && queue[k].sm == h;
    assert later[k] == queue[k];
  }

  // ----- The second pass ---------------------------------------------------------------------------------

  /** Among the first `n` candidates from page `p` on there is an untouched page. */
  ghost predicate Drops(s: State, hot: seq<nat>, spared: seq<nat>, limit: nat, p: nat, n: nat)
    requires Sized(s)
  {
    exists c: nat :: p <= c < |s.table| && Candidate(s, hot, spared, Cold(limit), c) && s.table[c].flag == 0
      && Rank(s, hot, spared, Cold(limit), p, c) < n
  }

  /** After the first `n` candidates from page `p` on there is a cold page that was accessed. */
  ghost predicate Leaves(s: State, hot: seq<nat>, spared: seq<nat>, limit: nat, p: nat, n: nat)
    requires Sized(s)
  {
    exists d: nat :: p <= d < |s.table| && Candidate(s, hot, spared, Cold(limit), d) && s.table[d].flag != 0
      && n <= Rank(s, hot, spared, Cold(limit), p, d)
  }

  lemma DropsStep(s: State, hot: seq<nat>, spared: seq<nat>, limit: nat, p: nat, n: nat)
    requires Sized(s) && p < |s.table|
    ensures !Candidate(s, hot, spared, Cold(limit), p) ==>
      (Drops(s, hot, spared, limit, p, n) <==> Drops(s, hot, spared, limit, p + 1, n))
    ensures Candidate(s, hot, spared, Cold(limit), p) ==>
      (Drops(s, hot, spared, limit, p, n + 1) <==> s.table[p].flag == 0 || Drops(s, hot, spared, limit, p + 1, n))
  {
    assert Rank(s, hot, spared, Cold(limit), p, p) == 0;
  }

  lemma LeavesStep(s: State, hot: seq<nat>, spared: seq<nat>, limit: nat, p: nat, n: nat)
    requires Sized(s) && p < |s.table|
    ensures !Candidate(s, hot, spared, Cold(limit), p) ==>
      (Leaves(s, hot, spared, limit, p, n) <==> Leaves(s, hot, spared, limit, p + 1, n))
    ensures Candidate(s, hot, spared, Cold(limit), p) ==>
      (Leaves(s, hot, spared, limit, p, n + 1) <==> Leaves(s, hot, spared, limit, p + 1, n))
  {
    assert Rank(s, hot, spared, Cold(limit), p, p) == 0;
  }

  /** Every untouched candidate from page `p` on has been named, and no other one. */
  ghost predicate Resumes(s: State, queue: seq<Request>, hot: seq<nat>, spared: seq<nat>, limit: nat, p: nat)
    requires Sized(s)
  {
    forall c: nat :: p <= c < |s.table| && Candidate(s, hot, spared, Cold(limit), c) ==>
      (Names(queue, c) <==> s.table[c].flag == 0)
  }

  lemma NamesAfter(queue: seq<Request>, r: Request, c: nat)
    ensures Names(queue + [r], c) <==> Names(queue, c) || c == r.fm
  {
    var next := queue + [r];
    if Names(queue, c) {
      var k :| 0 <= k < |queue| && queue[k].fm == c;
      assert next[k].fm == c;
    }
    assert next[|queue|] == r;
  }

  /** The step of the second pass at candidate `p` for the slow page `h`. */
  lemma SecondStep(s: State, u: State, hot: seq<nat>, spared: seq<nat>, limit: nat, p: nat, h: nat, v: State)
    requires Alike(s, u) && p < |s.table| && Candidate(s, hot, spared, Cold(limit), p)
    requires Resumes(s, u.queue, hot, spared, limit, p) && v == Enqueued(u, Request(p, h))
    requires v.congestion == u.congestion
    ensures v.queue == if s.table[p].flag == 0 then u.queue else u.queue + [Request(p, h)]
    ensures Alike(s, v) && Resumes(s, v.queue, hot, spared, limit, p + 1) && Names(v.queue, p)
  {
    forall c | true ensures Names(u.queue + [Request(p, h)], c) <==> Names(u.queue, c) || c == p {
      NamesAfter(u.queue, Request(p, h), c);
    }
  }

  /** Which candidates the second pass names: of those from page `p` on the untouched ones, and of
      the others those met while slow pages of the list are left. */
  ghost predicate Resumed(s: State, queue: seq<Request>, hot: seq<nat>, spared: seq<nat>, limit: nat, p: nat, n: nat)
    requires Sized(s)
  {
    forall c: nat :: p <= c < |s.table| && Candidate(s, hot, spared, Cold(limit), c) ==>
      (Names(queue, c) <==> s.table[c].flag == 0 || Rank(s, hot, spared, Cold(limit), p, c) < n)
  }

  lemma NamesStill(queue: seq<Request>, later: seq<Request>, c: nat)
    requires Names(queue, c) && queue <= later
    ensures Names(later, c)
  {
    var k :| 0 <= k < |queue| && queue[k].fm == c;
    assert later[k] == queue[k];
  }

  lemma ResumedStep(s: State, queue: seq<Request>, hot: seq<nat>, spared: seq<nat>, limit: nat, p: nat, n: nat)
    requires Sized(s) && p < |s.table|
    requires Resumed(s, queue, hot, spared, limit, p + 1, n)
    ensures !Candidate(s, hot, spared, Cold(limit), p) ==> Resumed(s, queue, hot, spared, limit, p, n)
    ensures Names(queue, p) && Candidate(s, hot, spared, Cold(limit), p) ==>
      Resumed(s, queue, hot, spared, limit, p, n + 1)
  {
  }

  lemma {:induction false} SecondNames(s: State, u: State, hot: seq<nat>, q: seq<nat>, spared: seq<nat>, limit: nat,
                                       p: nat)
    requires Alike(s, u) && Pages(s, q) && p <= |s.table| && Resumes(s, u.queue, hot, spared, limit, p)
    requires PassFrom(u, hot, q, spared, Cold(limit), false, p).state.congestion == u.congestion
    ensures var t := PassFrom(u, hot, q, spared, Cold(limit), false, p);
      u.queue <= t.state.queue && Resumed(s, t.state.queue, hot, spared, limit, p, SlowOf(s, q))
    decreases |s.table| - p
  {
    var t := PassFrom(u, hot, q, spared, Cold(limit), false, p);
    if p < |s.table| && q != [] {
      if !Candidate(s, hot, spared, Cold(limit), p) {
        SecondNames(s, u, hot, q, spared, limit, p + 1);
        ResumedStep(s, t.state.queue, hot, spared, limit, p, SlowOf(s, q));
      } else {
        SameSkipped(s, u, q);
        SlowSkipped(s, q);
        var k := Skipped(s, q);
        if k < |q| {
          var v, rest := Enqueued(u, Request(p, q[k])), q[k + 1..];
          assert t == PassFrom(v, hot, rest, spared, Cold(limit), false, p + 1);
          CongestionGrows(v, hot, rest, spared, Cold(limit), p + 1);
          SecondStep(s, u, hot, spared, limit, p, q[k], v);
          SecondNames(s, v, hot, rest, spared, limit, p + 1);
          NamesStill(v.queue, t.state.queue, p);
          ResumedStep(s, t.state.queue, hot, spared, limit, p, SlowOf(s, rest));
        }
      }
    }
  }

  lemma ComingStep(s: State, q: seq<nat>, k: nat, queue: seq<Request>)
    requires Pages(s, q) && k < |q| && !InFast(s, q[k]) && forall i :: 0 <= i < k ==> InFast(s, q[i])
    ensures AllComing(s, q, queue) <==> Comes(queue, q[k]) && AllComing(s, q[k + 1..], queue)
  {
    var rest := q[k + 1..];
    forall i | 0 <= i < |rest| ensures rest[i] == q[i + (k + 1)] {
    }
    if Comes(queue, q[k]) && AllComing(s, rest, queue) {
      forall i | 0 <= i < |q| && !InFast(s, q[i]) ensures Comes(queue, q[i]) {
        if i > k { assert rest[i - (k + 1)] == q[i]; }
      }
    }
    if AllComing(s, q, queue) {
      forall i | 0 <= i < |rest| && !InFast(s, rest[i]) ensures Comes(queue, rest[i]) {
        assert q[i + (k + 1)] == rest[i];
      }
    }
  }

  lemma PlanNext(u: State, hot: seq<nat>, q: seq<nat>, spared: seq<nat>, pass: Pass, p: nat, k: nat)
    requires Sized(u) && PlanOk(u, hot, q) && p < |u.table| && Candidate(u, hot, spared, pass, p)
    requires k < |q| && !InFast(u, q[k])
    ensures PlanOk(Enqueued(u, Request(p, q[k])), hot, q[k + 1..])
  {
  }

  /** A page that is neither planned nor left on the list does not come in. */
  lemma Dropped(u: State, hot: seq<nat>, q: seq<nat>, k: nat, spared: seq<nat>, pass: Pass, p: nat)
    requires Sized(u) && PlanOk(u, hot, q) && k < |q| && p <= |u.table|
    ensures !Comes(PassFrom(u, hot, q[k + 1..], spared, pass, false, p).state.queue, q[k])
  {
    var rest := q[k + 1..];
    PassKeeps(u, hot, rest, spared, pass, false, p);
    var t := PassFrom(u, hot, rest, spared, pass, false, p);
    forall l | 0 <= l < |t.state.queue| ensures t.state.queue[l].sm != q[k] {
      if l < |u.queue| {
        assert t.state.queue[l] == u.queue[l] && ComerOk(u.queue[l].sm, hot, q);
      } else {
        assert t.state.queue[l].sm in rest;
      }
    }
  }

  lemma HeadPlanned(s: State, u: State, hot: seq<nat>, q: seq<nat>, spared: seq<nat>, limit: nat, p: nat, h: nat,
                    v: State, t: Plan)
    requires Alike(s, u) && Pages(s, q) && p < |s.table| && s.table[p].flag != 0
    requires Candidate(s, hot, spared, Cold(limit), p) && Resumes(s, u.queue, hot, spared, limit, p)
    requires v == Enqueued(u, Request(p, h)) && v.congestion == u.congestion
    requires t == PassFrom(v, hot, q, spared, Cold(limit), false, p + 1) && t.state.congestion == v.congestion
    ensures Comes(t.state.queue, h)
  {
    SecondStep(s, u, hot, spared, limit, p, h, v);
    assert v.queue[|u.queue|].sm == h;
    SecondNames(s, v, hot, q, spared, limit, p + 1);
    ComesStill(v.queue, t.state.queue, h);
  }

  /** The slow page met at candidate `p` comes in exactly if the candidate was accessed. */
  lemma HeadComes(s: State, u: State, hot: seq<nat>, q: seq<nat>, spared: seq<nat>, limit: nat, p: nat, k: nat,
                  v: State)
    requires Alike(s, u) && PlanOk(u, hot, q) && p < |s.table| && k < |q| && !InFast(s, q[k])
    requires Candidate(s, hot, spared, Cold(limit), p) && Resumes(s, u.queue, hot, spared, limit, p)
    requires v == Enqueued(u, Request(p, q[k])) && v.congestion == u.congestion
    requires PassFrom(v, hot, q[k + 1..], spared, Cold(limit), false, p + 1).state.congestion == v.congestion
    ensures Comes(PassFrom(v, hot, q[k + 1..], spared, Cold(limit), false, p + 1).state.queue, q[k])
            <==> s.table[p].flag != 0
  {
    var t := PassFrom(v, hot, q[k + 1..], spared, Cold(limit), false, p + 1);
    if s.table[p].flag == 0 {
      SecondStep(s, u, hot, spared, limit, p, q[k], v);
      assert v == u;
      Dropped(u, hot, q, k, spared, Cold(limit), p + 1);
    } else {
      HeadPlanned(s, u, hot, q[k + 1..], spared, limit, p, q[k], v, t);
    }
  }

  /** When a cold page is left over, every slow page of the list comes in unless the second pass
      meets an untouched page on the way. */
  lemma {:induction false} SecondComing(s: State, u: State, hot: seq<nat>, q: seq<nat>, spared: seq<nat>, limit: nat,
                                        p: nat)
    requires Alike(s, u) && PlanOk(u, hot, q) && p <= |s.table| && Resumes(s, u.queue, hot, spared, limit, p)
    requires PassFrom(u, hot, q, spared, Cold(limit), false, p).state.congestion == u.congestion
    requires Leaves(s, hot, spared, limit, p, SlowOf(s, q))
    ensures AllComing(s, q, PassFrom(u, hot, q, spared, Cold(limit), false, p).state.queue)
            <==> !Drops(s, hot, spared, limit, p, SlowOf(s, q))
    decreases |s.table| - p, 1
  {
    if SlowOf(s, q) == 0 {
      NoneSlow(s, q);
    } else if !Candidate(s, hot, spared, Cold(limit), p) {
      DropsStep(s, hot, spared, limit, p, SlowOf(s, q));
      LeavesStep(s, hot, spared, limit, p, SlowOf(s, q));
      SecondComing(s, u, hot, q, spared, limit, p + 1);
    } else {
      SameSkipped(s, u, q);
      SlowSkipped(s, q);
      var k := Skipped(s, q);
      SecondTakes(s, u, hot, q, spared, limit, p, k, Enqueued(u, Request(p, q[k])));
    }
  }

  lemma {:induction false} SecondTakes(s: State, u: State, hot: seq<nat>, q: seq<nat>, spared: seq<nat>, limit: nat,
                                       p: nat, k: nat, v: State)
    requires Alike(s, u) && PlanOk(u, hot, q) && p < |s.table| && Resumes(s, u.queue, hot, spared, limit, p)
    requires Candidate(s, hot, spared, Cold(limit), p) && k == Skipped(s, q) == Skipped(u, q) && k < |q|
    requires v == Enqueued(u, Request(p, q[k])) && SlowOf(s, q) == 1 + SlowOf(s, q[k + 1..])
    requires PassFrom(v, hot, q[k + 1..], spared, Cold(limit), false, p + 1).state.congestion == u.congestion
    requires Leaves(s, hot, spared, limit, p, SlowOf(s, q))
    ensures AllComing(s, q, PassFrom(v, hot, q[k + 1..], spared, Cold(limit), false, p + 1).state.queue)
            <==> !Drops(s, hot, spared, limit, p, SlowOf(s, q))
    decreases |s.table| - p, 0
  {
    var rest := q[k + 1..];
    CongestionGrows(v, hot, rest, spared, Cold(limit), p + 1);
    SecondStep(s, u, hot, spared, limit, p, q[k], v);
    PlanNext(u, hot, q, spared, Cold(limit), p, k);
    DropsStep(s, hot, spared, limit, p, SlowOf(s, rest));
    LeavesStep(s, hot, spared, limit, p, SlowOf(s, rest));
    SecondComing(s, v, hot, rest, spared, limit, p + 1);
    HeadComes(s, u, hot, q, spared, limit, p, k, v);
    ComingStep(s, q, k, PassFrom(v, hot, rest, spared, Cold(limit), false, p + 1).state.queue);
  }

  // ----- The plan --------------------------------------------------------------------------------------

  /** With `n` slow pages more on the list than there are untouched candidates: among the first `n`
      candidates of either kind there is an untouched one, and behind them one that was accessed. */
  ghost predicate FallsShort(s: State, hot: seq<nat>, spared: seq<nat>, limit: nat)
    requires Sized(s) && Pages(s, hot)
  {
    var n := SlowOf(s, hot) - Rank(s, hot, spared, Untouched, 0, |s.table|);
    n > 0 && Drops(s, hot, spared, limit, 0, n) && Leaves(s, hot, spared, limit, 0, n)
  }

  lemma RestComing(s: State, hot: seq<nat>, first: Plan, queue: seq<Request>)
    requires Pages(s, hot) && Pages(s, first.rest) && Kept(s, hot, first) && first.state.queue <= queue
    requires forall i :: 0 <= i < |first.rest| ==> first.rest[i] in hot
    ensures AllComing(s, hot, queue) <==> AllComing(s, first.rest, queue)
  {
    var rest := first.rest;
    if AllComing(s, hot, queue) {
      forall i | 0 <= i < |rest| && !InFast(s, rest[i]) ensures Comes(queue, rest[i]) {
        var k :| 0 <= k < |hot| && hot[k] == rest[i];
      }
    }
    if AllComing(s, rest, queue) {
      forall i | 0 <= i < |hot| && !InFast(s, hot[i]) ensures Comes(queue, hot[i]) {
        if hot[i] in rest {
          var k :| 0 <= k < |rest| && rest[k] == hot[i];
          assert Comes(queue, rest[k]);
        } else {
          ComesStill(first.state.queue, queue, hot[i]);
        }
      }
    }
  }

  /** What the first pass of a plan leaves behind. */
  lemma FirstPass(s: State, hot: seq<nat>, spared: seq<nat>, limit: nat, first: Plan)
    requires Inv(s) && s.queue == [] && Pages(s, hot) && Distinct(hot) && 0 < limit
    requires first == PassFrom(s, hot, hot, spared, Untouched, false, 0) && first.state.congestion == s.congestion
    ensures PlanOk(first.state, hot, first.rest) && Pages(s, first.rest) && Kept(s, hot, first)
    ensures Exhausts(s, hot, spared, Untouched, first.state.queue)
    ensures SlowOf(s, first.rest) > 0 ==> Resumes(s, first.state.queue, hot, spared, limit, 0)
    ensures var n := SlowOf(s, hot) - Rank(s, hot, spared, Untouched, 0, |s.table|);
      SlowOf(s, first.rest) == if n > 0 then n else 0
  {
    PassKeeps(s, hot, hot, spared, Untouched, false, 0);
    PassComplete(s, hot, hot, spared, Untouched, 0);
    PassPlaces(s, hot, hot, spared, Untouched, 0);
    PassLeaves(s, s, hot, hot, spared, Untouched, 0);
    if SlowOf(s, first.rest) > 0 {
      FirstNames(s, hot, spared, limit, first);
    }
  }

  lemma FirstNames(s: State, hot: seq<nat>, spared: seq<nat>, limit: nat, first: Plan)
    requires Inv(s) && s.queue == [] && Pages(s, hot) && Pages(s, first.rest) && 0 < limit
    requires PlanOk(first.state, hot, first.rest) && Added(s, first.state, hot, hot, spared, Untouched)
    requires Exhausts(s, hot, spared, Untouched, first.state.queue) && SlowOf(s, first.rest) > 0
    ensures Resumes(s, first.state.queue, hot, spared, limit, 0)
  {
    NoneSlow(s, first.rest);
    var i :| 0 <= i < |first.rest| && !InFast(s, first.rest[i]);
    var k :| 0 <= k < |hot| && hot[k] == first.rest[i];
    assert !AllComing(s, hot, first.state.queue) by {
      assert forall l :: 0 <= l < |first.state.queue| ==> ComerOk(first.state.queue[l].sm, hot, first.rest);
    }
    forall c: nat | c < |s.table| && Candidate(s, hot, spared, Cold(limit), c)
      ensures Names(first.state.queue, c) <==> s.table[c].flag == 0
    {
      if s.table[c].flag == 0 {
        assert Candidate(s, hot, spared, Untouched, c);
      }
    }
  }

  lemma AllNamed(s: State, hot: seq<nat>, spared: seq<nat>, limit: nat, queue: seq<Request>, n: nat)
    requires Sized(s) && Resumed(s, queue, hot, spared, limit, 0, n)
    ensures (forall c: nat :: c < |s.table| && Candidate(s, hot, spared, Cold(limit), c) ==> Names(queue, c))
            <==> !Leaves(s, hot, spared, limit, 0, n)
  {
  }

  /** A plan that the queue holds exhausts the untouched pages, and the cold ones too exactly when it
      does not fall short. */
  lemma HeldPlan(s: State, hot: seq<nat>, spared: seq<nat>, limit: nat)
    requires Inv(s) && s.queue == [] && Pages(s, hot) && Distinct(hot) && 0 < limit
    requires Planned(s, hot, spared, limit, false).congestion == s.congestion
    ensures Exhausts(s, hot, spared, Untouched, Planned(s, hot, spared, limit, false).queue)
    ensures Exhausts(s, hot, spared, Cold(limit), Planned(s, hot, spared, limit, false).queue)
            <==> !FallsShort(s, hot, spared, limit)
  {
    var first := PassFrom(s, hot, hot, spared, Untouched, false, 0);
    var t := Planned(s, hot, spared, limit, false);
    CongestionGrows(s, hot, hot, spared, Untouched, 0);
    CongestionGrows(first.state, hot, first.rest, spared, Cold(limit), 0);
    FirstPass(s, hot, spared, limit, first);
    assert first.state.queue <= t.queue by {
      PassKeeps(first.state, hot, first.rest, spared, Cold(limit), false, 0);
    }
    RestComing(s, hot, first, t.queue);
    ExhaustsStill(s, hot, spared, Untouched, first.state.queue, t.queue);
    NoneSlow(s, first.rest);
    var n := SlowOf(s, first.rest);
    if n > 0 {
      SecondNames(s, first.state, hot, first.rest, spared, limit, 0);
      AllNamed(s, hot, spared, limit, t.queue, n);
      if Leaves(s, hot, spared, limit, 0, n) {
        SecondComing(s, first.state, hot, first.rest, spared, limit, 0);
      }
    }
  }

  lemma ExhaustsStill(s: State, hot: seq<nat>, spared: seq<nat>, pass: Pass, queue: seq<Request>, later: seq<Request>)
    requires Sized(s) && Pages(s, hot) && Exhausts(s, hot, spared, pass, queue) && queue <= later
    ensures Exhausts(s, hot, spared, pass, later)
  {
    if AllComing(s, hot, queue) {
      forall i | 0 <= i < |hot| && !InFast(s, hot[i]) ensures Comes(later, hot[i]) {
        ComesStill(queue, later, hot[i]);
      }
    } else {
      forall c: nat | c < |s.table| && Candidate(s, hot, spared, pass, c) ensures Names(later, c) {
        NamesStill(queue, later, c);
      }
    }
  }

  // ----- How long a plan is ------------------------------------------------------------------------------

  function AtMost(a: nat, b: nat): nat {
    if a <= b then a else b
  }

  /** How many of the first `n` candidates from page `p` on were accessed. */
  function Served(s: State, hot: seq<nat>, spared: seq<nat>, limit: nat, p: nat, n: nat): (k: nat)
    requires Sized(s) && p <= |s.table|
    ensures k <= n
    decreases |s.table| - p
  {
    if p == |s.table| || n == 0 then 0
    else if !Candidate(s, hot, spared, Cold(limit), p) then Served(s, hot, spared, limit, p + 1, n)
    else Served(s, hot, spared, limit, p + 1, n - 1) + (if s.table[p].flag != 0 then 1 else 0)
  }

  /** How many requests the first pass makes, with room for all. */
  function FirstWanted(s: State, hot: seq<nat>, spared: seq<nat>): nat
    requires Sized(s) && Pages(s, hot)
  {
    AtMost(Rank(s, hot, spared, Untouched, 0, |s.table|), SlowOf(s, hot))
  }

  /** How many requests both passes make, with room for all. */
  function Wanted(s: State, hot: seq<nat>, spared: seq<nat>, limit: nat): nat
    requires Sized(s) && Pages(s, hot)
  {
    var n := SlowOf(s, hot) - Rank(s, hot, spared, Untouched, 0, |s.table|);
    FirstWanted(s, hot, spared) + (if n > 0 then Served(s, hot, spared, limit, 0, n) else 0)
  }

  lemma {:induction false} ServedBelow(s: State, hot: seq<nat>, spared: seq<nat>, limit: nat, p: nat, n: nat)
    requires Inv(s) && p <= |s.table| && 0 < limit
    ensures Rank(s, hot, spared, Untouched, p, |s.table|) + Served(s, hot, spared, limit, p, n)
         <= Rank(s, hot, spared, Cold(limit), p, |s.table|)
    decreases |s.table| - p
  {
    if p < |s.table| {
      ServedBelow(s, hot, spared, limit, p + 1, n);
      if n > 0 { ServedBelow(s, hot, spared, limit, p + 1, n - 1); }
      assert PageOk(s, p);
    }
  }

  /** Requests made, those the full queue turned away included. */
  function Made(s: State): nat {
    |s.queue| + s.congestion
  }

  /** A queue that turned a request away is full. */
  predicate Turned(s: State, t: State) {
    s.congestion <= t.congestion && (s.congestion < t.congestion ==> |t.queue| >= QUEUE_LENGTH)
  }

  lemma {:induction false} PassTurns(s: State, hot: seq<nat>, q: seq<nat>, spared: seq<nat>, pass: Pass, p: nat)
    requires Sized(s) && Pages(s, q) && p <= |s.table|
    ensures var t := PassFrom(s, hot, q, spared, pass, false, p).state;
      Turned(s, t) && s.queue <= t.queue
    decreases |s.table| - p
  {
    if p < |s.table| && q != [] {
      if !Candidate(s, hot, spared, pass, p) {
        PassTurns(s, hot, q, spared, pass, p + 1);
      } else {
        var k := Skipped(s, q);
        if k < |q| { PassTurns(Enqueued(s, Request(p, q[k])), hot, q[k + 1..], spared, pass, p + 1); }
      }
    }
  }

  lemma {:induction false} FirstMakes(s: State, u: State, hot: seq<nat>, q: seq<nat>, spared: seq<nat>, pass: Pass,
                                      p: nat)
    requires Alike(s, u) && Pages(s, q) && p <= |s.table|
    requires forall k :: 0 <= k < |u.queue| ==> u.queue[k].fm < p
    ensures Made(PassFrom(u, hot, q, spared, pass, false, p).state)
         == Made(u) + AtMost(Rank(s, hot, spared, pass, p, |s.table|), SlowOf(s, q))
    decreases |s.table| - p
  {
    if p < |s.table| && q != [] {
      if !Candidate(s, hot, spared, pass, p) {
        FirstMakes(s, u, hot, q, spared, pass, p + 1);
      } else {
        SameSkipped(s, u, q);
        SlowSkipped(s, q);
        var k := Skipped(s, q);
        if k < |q| {
          var v := Enqueued(u, Request(p, q[k]));
          assert Made(v) == Made(u) + 1;
          FirstMakes(s, v, hot, q[k + 1..], spared, pass, p + 1);
        }
      }
    }
  }

  lemma MakesStep(s: State, u: State, hot: seq<nat>, spared: seq<nat>, limit: nat, p: nat, h: nat, v: State)
    requires Alike(s, u) && p < |s.table| && Candidate(s, hot, spared, Cold(limit), p)
    requires Resumes(s, u.queue, hot, spared, limit, p) && v == Enqueued(u, Request(p, h))
    ensures Made(v) == Made(u) + (if s.table[p].flag != 0 then 1 else 0)
    ensures Alike(s, v) && Resumes(s, v.queue, hot, spared, limit, p + 1)
  {
    forall c | true ensures Names(u.queue + [Request(p, h)], c) <==> Names(u.queue, c) || c == p {
      NamesAfter(u.queue, Request(p, h), c);
    }
  }

  lemma {:induction false} SecondMakes(s: State, u: State, hot: seq<nat>, q: seq<nat>, spared: seq<nat>, limit: nat,
                                       p: nat)
    requires Alike(s, u) && Pages(s, q) && p <= |s.table| && Resumes(s, u.queue, hot, spared, limit, p)
    ensures Made(PassFrom(u, hot, q, spared, Cold(limit), false, p).state)
         == Made(u) + Served(s, hot, spared, limit, p, SlowOf(s, q))
    decreases |s.table| - p
  {
    if p < |s.table| && q != [] {
      if !Candidate(s, hot, spared, Cold(limit), p) {
        SecondMakes(s, u, hot, q, spared, limit, p + 1);
      } else {
        SameSkipped(s, u, q);
        SlowSkipped(s, q);
        var k := Skipped(s, q);
        if k < |q| {
          var v := Enqueued(u, Request(p, q[k]));
          MakesStep(s, u, hot, spared, limit, p, q[k], v);
          SecondMakes(s, v, hot, q[k + 1..], spared, limit, p + 1);
        }
      }
    }
  }

  /** With no slow page left on the list a pass plans nothing. */
  lemma {:induction false} NothingSlow(u: State, hot: seq<nat>, q: seq<nat>, spared: seq<nat>, pass: Pass, p: nat)
    requires Sized(u) && Pages(u, q) && p <= |u.table| && forall i :: 0 <= i < |q| ==> InFast(u, q[i])
    ensures PassFrom(u, hot, q, spared, pass, false, p).state == u
    decreases |u.table| - p
  {
    if p < |u.table| && q != [] && !Candidate(u, hot, spared, pass, p) {
      NothingSlow(u, hot, q, spared, pass, p + 1);
    }
  }

  /** The queue holds the plan if and only if it is long enough for the requests of both passes. */
  lemma HeldExact(s: State, hot: seq<nat>, spared: seq<nat>, limit: nat)
    requires Inv(s) && s.queue == [] && Pages(s, hot) && Distinct(hot) && 0 < limit
    ensures var first := PassFrom(s, hot, hot, spared, Untouched, false, 0);
      first.state.congestion == s.congestion <==> FirstWanted(s, hot, spared) <= QUEUE_LENGTH
    ensures var t := Planned(s, hot, spared, limit, false);
      && (t.congestion == s.congestion <==> Wanted(s, hot, spared, limit) <= QUEUE_LENGTH)
      && (t.congestion != s.congestion ==> |t.queue| == QUEUE_LENGTH)
  {
    var first := PassFrom(s, hot, hot, spared, Untouched, false, 0);
    var t := Planned(s, hot, spared, limit, false);
    PassTurns(s, hot, hot, spared, Untouched, 0);
    PassTurns(first.state, hot, first.rest, spared, Cold(limit), 0);
    FirstMakes(s, s, hot, hot, spared, Untouched, 0);
    PlannedExact(s, hot, spared, limit, false);
    if first.state.congestion == s.congestion {
      FirstPass(s, hot, spared, limit, first);
      NoneSlow(s, first.rest);
      if SlowOf(s, first.rest) > 0 {
        SecondMakes(s, first.state, hot, first.rest, spared, limit, 0);
      } else {
        NothingSlow(first.state, hot, first.rest, spared, Cold(limit), 0);
      }
    }
  }

  // ----- A plan the queue does not hold --------------------------------------------------------------------

  function Victims(queue: seq<Request>): (v: set<nat>)
    ensures |v| <= |queue| && forall c :: Names(queue, c) ==> c in v
  {
    if queue == [] then {} else
      var v := Victims(queue[1..]);
      assert forall c :: Names(queue, c) && c != queue[0].fm ==> Names(queue[1..], c) by {
        forall c | Names(queue, c) && c != queue[0].fm ensures Names(queue[1..], c) {
          var k :| 0 <= k < |queue| && queue[k].fm == c;
          assert queue[1..][k - 1] == queue[k];
        }
      }
      v + {queue[0].fm}
  }

  function Comers(queue: seq<Request>): (v: set<nat>)
    ensures |v| <= |queue| && forall h :: Comes(queue, h) ==> h in v
  {
    if queue == [] then {} else
      var v := Comers(queue[1..]);
      assert forall h :: Comes(queue, h) && h != queue[0].sm ==> Comes(queue[1..], h) by {
        forall h | Comes(queue, h) && h != queue[0].sm ensures Comes(queue[1..], h) {
          var k :| 0 <= k < |queue| && queue[k].sm == h;
          assert queue[1..][k - 1] == queue[k];
        }
      }
      v + {queue[0].sm}
  }

  /** Candidates in `v`, all of them different, are no more than `v` has members. */
  lemma {:induction false} RankWithin(s: State, hot: seq<nat>, spared: seq<nat>, pass: Pass, p: nat, v: set<nat>)
    requires Sized(s) && p <= |s.table|
    requires forall c: nat :: p <= c < |s.table| && Candidate(s, hot, spared, pass, c) ==> c in v
    ensures Rank(s, hot, spared, pass, p, |s.table|) <= |v|
    decreases |s.table| - p
  {
    if p < |s.table| {
      if Candidate(s, hot, spared, pass, p) {
        RankWithin(s, hot, spared, pass, p + 1, v - {p});
        assert |v - {p}| == |v| - 1;
      } else {
        RankWithin(s, hot, spared, pass, p + 1, v);
      }
    }
  }

  lemma {:induction false} SlowWithin(s: State, q: seq<nat>, v: set<nat>)
    requires Pages(s, q) && Distinct(q) && forall i :: 0 <= i < |q| && !InFast(s, q[i]) ==> q[i] in v
    ensures SlowOf(s, q) <= |v|
  {
    if q != [] {
      var w := if InFast(s, q[0]) then v else v - {q[0]};
      assert forall i :: 0 <= i < |q[1..]| ==> q[1..][i] == q[i + 1] != q[0];
      SlowWithin(s, q[1..], w);
      if !InFast(s, q[0]) { assert |w| == |v| - 1; }
    }
  }

  /** A full queue exhausts neither pages nor candidates when there are more of both. */
  lemma FullFails(s: State, hot: seq<nat>, spared: seq<nat>, pass: Pass, queue: seq<Request>)
    requires Sized(s) && Pages(s, hot) && Distinct(hot)
    requires |queue| < SlowOf(s, hot) && |queue| < Rank(s, hot, spared, pass, 0, |s.table|)
    ensures !Exhausts(s, hot, spared, pass, queue)
  {
    if AllComing(s, hot, queue) { SlowWithin(s, hot, Comers(queue)); }
    if forall c: nat :: c < |s.table| && Candidate(s, hot, spared, pass, c) ==> Names(queue, c) {
      RankWithin(s, hot, spared, pass, 0, Victims(queue));
    }
  }

  /** A plan made on an empty queue. Every hot page of slow memory has its place, or every untouched
      page is used, if and only if the queue holds the requests of the first pass. The same with the
      cold pages holds if and only if the plan does not fall short and the queue holds all of it. */
  lemma PlanExact(s: State, hot: seq<nat>, spared: seq<nat>, limit: nat)
    requires Inv(s) && s.queue == [] && Pages(s, hot) && Distinct(hot) && 0 < limit
    ensures Exhausts(s, hot, spared, Untouched, Planned(s, hot, spared, limit, false).queue)
            <==> FirstWanted(s, hot, spared) <= QUEUE_LENGTH
    ensures Exhausts(s, hot, spared, Cold(limit), Planned(s, hot, spared, limit, false).queue)
            <==> !FallsShort(s, hot, spared, limit) && Wanted(s, hot, spared, limit) <= QUEUE_LENGTH
  {
    var first := PassFrom(s, hot, hot, spared, Untouched, false, 0);
    var t := Planned(s, hot, spared, limit, false);
    HeldExact(s, hot, spared, limit);
    if t.congestion == s.congestion {
      HeldPlan(s, hot, spared, limit);
      PassTurns(s, hot, hot, spared, Untouched, 0);
      PassTurns(first.state, hot, first.rest, spared, Cold(limit), 0);
    } else {
      var n := SlowOf(s, hot) - Rank(s, hot, spared, Untouched, 0, |s.table|);
      ServedBelow(s, hot, spared, limit, 0, if n > 0 then n else 0);
      FullFails(s, hot, spared, Cold(limit), t.queue);
      if first.state.congestion == s.congestion {
        FirstPass(s, hot, spared, limit, first);
        PassTurns(first.state, hot, first.rest, spared, Cold(limit), 0);
        ExhaustsStill(s, hot, spared, Untouched, first.state.queue, t.queue);
      } else {
        FullFails(s, hot, spared, Untouched, t.queue);
      }
    }
  }

  /** A busy memory holds up all planning. */
  lemma {:induction false} BusyPass(s: State, hot: seq<nat>, q: seq<nat>, spared: seq<nat>, pass: Pass, p: nat)
    requires Sized(s) && Pages(s, q) && p <= |s.table|
    ensures PassFrom(s, hot, q, spared, pass, true, p).state == s
    decreases |s.table| - p
  {
    if p < |s.table| && q != [] && !Candidate(s, hot, spared, pass, p) {
      BusyPass(s, hot, q, spared, pass, p + 1);
    }
  }

  /** On a busy memory nothing is planned, so that a page or a candidate is left unless there is none. */
  lemma BusyPlan(s: State, hot: seq<nat>, spared: seq<nat>, limit: nat, pass: Pass)
    requires Sized(s) && s.queue == [] && Pages(s, hot) && Distinct(hot)
    ensures Planned(s, hot, spared, limit, true) == s
    ensures Exhausts(s, hot, spared, pass, []) <==>
      SlowOf(s, hot) == 0 || Rank(s, hot, spared, pass, 0, |s.table|) == 0
  {
    BusyPass(s, hot, hot, spared, Untouched, 0);
    var first := PassFrom(s, hot, hot, spared, Untouched, true, 0);
    BusyPass(s, hot, first.rest, spared, Cold(limit), 0);
    NoneSlow(s, hot);
    if Rank(s, hot, spared, pass, 0, |s.table|) > 0 {
      if SlowOf(s, hot) > 0 { FullFails(s, hot, spared, pass, []); }
    } else {
      NoCandidate(s, hot, spared, pass, 0);
    }
  }

  lemma {:induction false} NoCandidate(s: State, hot: seq<nat>, spared: seq<nat>, pass: Pass, p: nat)
    requires Sized(s) && p <= |s.table| && Rank(s, hot, spared, pass, p, |s.table|) == 0
    ensures forall c: nat :: p <= c < |s.table| ==> !Candidate(s, hot, spared, pass, c)
    decreases |s.table| - p
  {
    if p < |s.table| { NoCandidate(s, hot, spared, pass, p + 1); }
  }

  // ----- Epochs and collections ----------------------------------------------------------------------------

  lemma {:induction false} SlowAppend(s: State, q: seq<nat>, n: nat)
    requires Pages(s, q) && n < |q|
    ensures SlowOf(s, q[..n + 1]) == SlowOf(s, q[..n]) + (if InFast(s, q[n]) then 0 else 1)
  {
    if n == 0 {
      assert q[..1][1..] == [] && q[..0] == [];
    } else {
      SlowAppend(s, q[1..], n - 1);
      assert q[..n + 1][1..] == q[1..][..n] && q[..n][1..] == q[1..][..n - 1];
    }
  }

  lemma {:induction false} SlowCounted(s: State, q: seq<nat>, n: nat)
    requires Pages(s, q) && n <= |q|
    ensures SlowOf(s, q[..n]) == SlowCount(s, q, n)
  {
    if n > 0 {
      SlowCounted(s, q, n - 1);
      SlowAppend(s, q, n - 1);
    }
  }

  /** Every listed page of slow memory is to come in, or every unlisted page of fast memory that is not
      spared and was never accessed is to go. */
  ghost predicate UsesUntouched(s: State, hot: seq<nat>, spared: seq<nat>, queue: seq<Request>) {
    || (forall h :: h in hot && h < |s.table| && s.table[h].frame >= s.fast ==> Comes(queue, h))
    || (forall c: nat ::
          c < |s.table| && s.table[c].frame < s.fast && s.table[c].flag == 0 && c !in hot && c !in spared ==>
            Names(queue, c))
  }

  lemma UsesExact(s: State, hot: seq<nat>, spared: seq<nat>, queue: seq<Request>)
    requires Sized(s) && Pages(s, hot)
    ensures Exhausts(s, hot, spared, Untouched, queue) <==> UsesUntouched(s, hot, spared, queue)
  {
    if AllComing(s, hot, queue) {
      forall h | h in hot && h < |s.table| && s.table[h].frame >= s.fast ensures Comes(queue, h) {
        var i :| 0 <= i < |hot| && hot[i] == h;
      }
    }
    assert forall c: nat :: c < |s.table| ==>
      (Candidate(s, hot, spared, Untouched, c) <==>
        c !in hot && c !in spared && s.table[c].flag == 0 && s.table[c].frame < s.fast);
  }

  /** An epoch that is not held up plans a place for every hot page of slow memory or uses every page of
      fast memory that was never accessed, unless there are more than 4096 of both; a busy one plans
      nothing. Either clears all counters and moves nothing yet. */
  lemma EpochPlans(s: State, order: seq<nat>, busy: bool)
    requires Inv(s) && s.queue == [] && Ranking(order, s.counter)
    ensures var t, hot := Epoch(s, order, busy), HotList(s, order, HOTNESS, MAX_PAGES);
      && t.table == s.table && t.fast == s.fast && t.counter == seq(|s.counter|, i => 0) && Pages(s, hot)
      && (busy ==> t.queue == [])
      && (!busy ==>
            (UsesUntouched(s, hot, [], t.queue) <==>
              SlowOf(s, hot) <= 4096 || Rank(s, hot, [], Untouched, 0, |s.table|) <= 4096))
  {
    var hot := HotList(s, order, HOTNESS, MAX_PAGES);
    HotListExact(s, order, HOTNESS, MAX_PAGES);
    if busy {
      BusyPlan(s, hot, [], COLDNESS, Untouched);
    } else {
      PlanExact(s, hot, [], COLDNESS);
      UsesExact(s, hot, [], Epoch(s, order, busy).queue);
    }
  }

  /** A garbage collection always plans a place for every page on its list or uses every page of fast
      memory that is marked and was never accessed: with 150 as the limit the queue never fills. */
  lemma GcPlans(s: State, unmarked: seq<nat>, order: seq<nat>)
    requires Inv(s) && s.queue == [] && Ranking(order, Forgotten(s, unmarked).counter)
    ensures var hot := HotList(Forgotten(s, unmarked), order, GC_HOTNESS, GC_MAX_PAGES);
      UsesUntouched(s, hot, unmarked, GcPlanned(s, unmarked, order).queue)
  {
    var f := Forgotten(s, unmarked);
    var hot := HotList(f, order, GC_HOTNESS, GC_MAX_PAGES);
    ForgottenKeeps(s, unmarked);
    HotListExact(f, order, GC_HOTNESS, GC_MAX_PAGES);
    SlowCounted(f, hot, |hot|);
    assert hot[..|hot|] == hot;
    PlanExact(f, hot, unmarked, GC_COLDNESS);
    UsesExact(f, hot, unmarked, GcPlanned(s, unmarked, order).queue);
  }

  // ----- A plan that falls short -------------------------------------------------------------------------

  /** Page 0 was never accessed, page 1 is cold, and pages 2 and 3 of slow memory are hot. */
  const SHORT := State(2, [Mapping(0, 0), Mapping(1, 1), Mapping(2, 1), Mapping(3, 1)], [0, 10, 2000, 1500], [], 0)

  const SHORT_PLAN: seq<Request> := [Request(0, 2)]
  const SHORT_RANKS: seq<nat> := [2, 3, 1, 0]

  lemma ShortRanked()
    ensures Inv(SHORT) && Ranking(SHORT_RANKS, SHORT.counter)
  {
    assert SHORT_RANKS[0] == 2 && SHORT_RANKS[1] == 3 && SHORT_RANKS[2] == 1 && SHORT_RANKS[3] == 0;
  }

  lemma ShortListed(s: State)
    requires s == SHORT
    ensures Listed(s, SHORT_RANKS, HOTNESS, MAX_PAGES, 0, 0) == 2
  {
    assert Listed(s, SHORT_RANKS, HOTNESS, MAX_PAGES, 2, 2) == 2;
  }

  lemma ShortFirst(s: State, u: State)
    requires s == SHORT && u == s.(queue := SHORT_PLAN)
    ensures PassFrom(s, [2, 3], [2, 3], [], Untouched, false, 0) == Plan(u, [3])
  {
    assert Skipped(s, [2, 3]) == 0 && [2, 3][1..] == [3];
    assert Enqueued(s, Request(0, 2)) == u;
    assert PassFrom(u, [2, 3], [3], [], Untouched, false, 2) == Plan(u, [3]);
  }

  lemma ShortSecond(u: State)
    requires u == SHORT.(queue := SHORT_PLAN)
    ensures PassFrom(u, [2, 3], [3], [], Cold(COLDNESS), false, 0) == Plan(u, [])
  {
    assert Skipped(u, [3]) == 0 && [3][1..] == [];
    assert SHORT_PLAN[0].fm == 0;
    assert Enqueued(u, Request(0, 3)) == u;
  }

  /** With an untouched page the plan of an epoch may fall short: the second pass meets page 0 again,
      drops page 3 with the repeated request, and never comes to page 1. */
  lemma SecondPassDrops()
    ensures Inv(SHORT) && Ranking(SHORT_RANKS, SHORT.counter)
    ensures HotList(SHORT, SHORT_RANKS, HOTNESS, MAX_PAGES) == [2, 3]
    ensures Planned(SHORT, [2, 3], [], COLDNESS, false) == SHORT.(queue := SHORT_PLAN)
    ensures !Exhausts(SHORT, [2, 3], [], Cold(COLDNESS), SHORT_PLAN)
  {
    ShortRanked();
    ShortListed(SHORT);
    assert SHORT_RANKS[..2] == [2, 3];
    ShortFirst(SHORT, SHORT.(queue := SHORT_PLAN));
    ShortSecond(SHORT.(queue := SHORT_PLAN));
    assert Candidate(SHORT, [2, 3], [], Cold(COLDNESS), 1) && !Names(SHORT_PLAN, 1);
    assert !InFast(SHORT, [2, 3][1]);
  }
}
