/** Which request a clock of the controller serves, and when a read is called back. The first part says
    for the queues themselves what one choice of a command does; the second follows the reads that wait
    for data through whole runs. */
module ControllerIssue {
  import opened DramTree
  import opened DramTiming
  import opened Controller
  import opened ControllerInvariants

  // ----- One choice of a command -------------------------------------------------------------------

  /** The pick is a request of the queue, and its command passes the check of the channel. */
  predicate Able(cfg: Config, s: State, q: seq<Request>, pick: nat, cmd: nat)
    requires ConfigOk(cfg) && ChannelOk(cfg, s.channel) && QueueOk(cfg, q) && cmd < cfg.dram.commands
  {
    pick < |q| && (assert RequestOk(cfg, q[pick]); Check(cfg.dram, s.channel, cmd, q[pick].vec, s.clk))
  }

  /** What the issue does to its queue `q`, of which `left` remains, to the queue of activated requests,
      and to the requests that wait for data or are done. */
  predicate Serves(cfg: Config, s: State, t: State, q: seq<Request>, left: seq<Request>, i: nat, cmd: nat)
    requires i < |q| && cmd < |cfg.opening|
  {
    var r := q[i];
    && t.issued == s.issued + [Issue(cmd, r.vec, s.clk)]
    && (cmd == r.target ==>
          && left == q[..i] + q[i + 1..]
          && t.retired == s.retired + (if r.kind.Read? then [] else [r.id])
          && t.pending == s.pending
               + (if r.kind.Read? then [r.(first := false, depart := s.clk + cfg.latency)] else []))
    && (cmd != r.target ==>
          && t.retired == s.retired && t.pending == s.pending
          && (cfg.opening[cmd] ==> left == q[..i] + q[i + 1..])
          && (!cfg.opening[cmd] ==> left == q[i := r.(first := false)]))
  }

  /** The requests that the issue moves to the queue of activated requests. */
  function Opened(cfg: Config, q: seq<Request>, i: nat, cmd: nat): seq<Request>
    requires i < |q| && cmd < |cfg.opening|
  {
    if cmd != q[i].target && cfg.opening[cmd] then [q[i].(first := false)] else []
  }

  /** The pick of the activated requests is issued, and every other queue stays as it is. */
  ghost predicate ActServed(cfg: Config, s: State, t: State, o: Oracle)
    requires ConfigOk(cfg) && Ready(cfg, s) && OracleOk(cfg, o) && o.actPick < |s.actq|
  {
    && t.readq == s.readq && t.writeq == s.writeq && t.otherq == s.otherq
    && exists left :: Serves(cfg, s, t, s.actq, left, o.actPick, o.actCmd)
         && t.actq == left + Opened(cfg, s.actq, o.actPick, o.actCmd)
  }

  /** The pick of queue `q` is issued if it can be; `left` is what becomes of the queue. */
  predicate MainServed(cfg: Config, s: State, t: State, o: Oracle, q: seq<Request>, left: seq<Request>)
    requires ConfigOk(cfg) && ChannelOk(cfg, s.channel) && QueueOk(cfg, q) && OracleOk(cfg, o)
  {
    if Able(cfg, s, q, o.mainPick, o.mainCmd) then
      && Serves(cfg, s, t, q, left, o.mainPick, o.mainCmd)
      && t.actq == s.actq + Opened(cfg, q, o.mainPick, o.mainCmd)
    else left == q && Closes(cfg, s, t, o)
  }

  /** No request is served; the chosen row is closed if that passes its check. */
  predicate Closes(cfg: Config, s: State, t: State, o: Oracle)
    requires ConfigOk(cfg) && ChannelOk(cfg, s.channel) && OracleOk(cfg, o)
  {
    && t.actq == s.actq && t.pending == s.pending && t.retired == s.retired
    && t.issued == s.issued
         + if o.speculate && Check(cfg.dram, s.channel, cfg.precharge, o.victim, s.clk)
           then [Issue(cfg.precharge, o.victim, s.clk)] else []
  }

  /** An issue for a request that is not activated yet touches its queue and that of the activated ones. */
  lemma IssuedServes(cfg: Config, s: State, w: Which, i: nat, cmd: nat)
    requires ConfigOk(cfg) && ChannelOk(cfg, s.channel) && cmd < cfg.dram.commands && !w.InAct?
    requires i < |Queue(s, w)| && VecOk(cfg, Queue(s, w)[i].vec)
    ensures var t := Issued(cfg, s, w, i, cmd);
      && Serves(cfg, s, t, Queue(s, w), Queue(t, w), i, cmd)
      && t.actq == s.actq + Opened(cfg, Queue(s, w), i, cmd)
      && SameBut(s, t, w)
  {
  }

  /** Nothing but the queue and what an issue always changes is different. */
  predicate SameBut(s: State, t: State, w: Which) {
    && t.clk == s.clk && t.accepted == s.accepted && t.called == s.called && t.writeMode == s.writeMode
    && (!w.InRead? ==> t.readq == s.readq) && (!w.InWrite? ==> t.writeq == s.writeq)
    && (!w.InOther? ==> t.otherq == s.otherq)
  }

  lemma ActPick(cfg: Config, s: State, o: Oracle)
    requires ConfigOk(cfg) && Ready(cfg, s) && OracleOk(cfg, o) && Able(cfg, s, s.actq, o.actPick, o.actCmd)
    ensures ActServed(cfg, s, Schedule(cfg, s, o), o) && SameBut(s, Schedule(cfg, s, o), InAct)
  {
    assert RequestOk(cfg, s.actq[o.actPick]);
    var t := Issued(cfg, s, InAct, o.actPick, o.actCmd);
    var more := Opened(cfg, s.actq, o.actPick, o.actCmd);
    var left := t.actq[..|t.actq| - |more|];
    assert left + more == t.actq && Serves(cfg, s, t, s.actq, left, o.actPick, o.actCmd);
  }

  lemma MainPick(cfg: Config, s: State, o: Oracle, w: Which)
    requires ConfigOk(cfg) && Ready(cfg, s) && OracleOk(cfg, o) && !Able(cfg, s, s.actq, o.actPick, o.actCmd)
    requires w == MainQueue(s)
    ensures var t := Schedule(cfg, s, o);
      && QueueOk(cfg, Queue(s, w)) && MainServed(cfg, s, t, o, Queue(s, w), Queue(t, w)) && SameBut(s, t, w)
  {
    if CanIssue(cfg, s, w, o.mainPick, o.mainCmd) {
      assert RequestOk(cfg, Queue(s, w)[o.mainPick]);
      IssuedServes(cfg, s, w, o.mainPick, o.mainCmd);
    }
  }

  /** `t` is what one choice of a command makes of `s`. An activated request goes before all others; next
      are the requests that are neither reads nor writes; only without these the writes are served, in
      write mode, or the reads, out of it. In the queue whose turn it is the pick is issued if its
      command passes the check. */
  ghost predicate Chosen(cfg: Config, s: State, t: State, o: Oracle)
    requires ConfigOk(cfg) && Ready(cfg, s) && OracleOk(cfg, o)
  {
    && t.clk == s.clk && t.accepted == s.accepted && t.called == s.called && t.writeMode == s.writeMode
    && (t.writeq != s.writeq ==> s.writeMode && s.otherq == [])
    && (t.readq != s.readq ==> !s.writeMode && s.otherq == [])
    && (Able(cfg, s, s.actq, o.actPick, o.actCmd) ==> ActServed(cfg, s, t, o))
    && (!Able(cfg, s, s.actq, o.actPick, o.actCmd) ==>
          && (s.otherq != [] ==> MainServed(cfg, s, t, o, s.otherq, t.otherq))
          && (s.otherq == [] && s.writeMode ==> MainServed(cfg, s, t, o, s.writeq, t.writeq))
          && (s.otherq == [] && !s.writeMode ==> MainServed(cfg, s, t, o, s.readq, t.readq))
          && (s.otherq == [] ==> t.otherq == []))
  }

  lemma ScheduleExact(cfg: Config, s: State, o: Oracle)
    requires ConfigOk(cfg) && Ready(cfg, s) && OracleOk(cfg, o)
    ensures Chosen(cfg, s, Schedule(cfg, s, o), o)
  {
    if Able(cfg, s, s.actq, o.actPick, o.actCmd) {
      ActPick(cfg, s, o);
    } else {
      MainPick(cfg, s, o, MainQueue(s));
    }
  }

  // ----- One clock and one arrival -------------------------------------------------------------------

  /** The requests, without address in memory, that the due refreshes make; at most `room` fit. */
  function Refreshes(s: State, due: seq<(seq<int>, nat)>, room: nat): (q: seq<Request>)
    ensures |q| <= room && |q| <= |due|
  {
    if due == [] || room == 0 then []
    else if |due| > room then Refreshes(s, due[..|due| - 1], room)
    else
      var n := |due| - 1;
      Refreshes(s, due[..n], room) + [Request(s.accepted + n, Other, -1, due[n].0, due[n].1, true, s.clk, -1)]
  }

  lemma {:induction false} RefreshExact(s: State, due: seq<(seq<int>, nat)>)
    requires |s.otherq| <= QUEUE_MAX
    ensures var t := Refresh(s, due);
      var more := Refreshes(s, due, QUEUE_MAX - |s.otherq|);
      && |more| == (if |due| <= QUEUE_MAX - |s.otherq| then |due| else QUEUE_MAX - |s.otherq|)
      && t == s.(otherq := s.otherq + more, accepted := s.accepted + |more|)
  {
    if due == [] {
      assert s.otherq + [] == s.otherq;
    } else {
      RefreshExact(s, due[..|due| - 1]);
    }
  }

  /** The oldest read that waits for data may be called back at the clock. */
  predicate HeadDue(s: State, clk: int) {
    s.pending != [] && s.pending[0].depart <= clk
  }

  /** What a clock does to `s` before it chooses a command in state `v`: a due read is called back and
      the refreshes come in. */
  predicate Prepares(s: State, o: Oracle, v: State) {
    && v.clk == s.clk + 1 && v.issued == s.issued && v.retired == s.retired
    && v.readq == s.readq && v.writeq == s.writeq && v.actq == s.actq
    && |s.otherq| <= QUEUE_MAX
    && v.otherq == s.otherq + Refreshes(s.(clk := s.clk + 1), o.refresh, QUEUE_MAX - |s.otherq|)
    && v.accepted == s.accepted + |v.otherq| - |s.otherq|
    && v.pending == (if HeadDue(s, s.clk + 1) then s.pending[1..] else s.pending)
    && v.called == s.called + (if HeadDue(s, s.clk + 1) then [s.pending[0].id] else [])
  }

  lemma CompletePrepares(cfg: Config, s: State, t: State)
    requires ConfigOk(cfg) && Shape(cfg.dram, s.channel)
    requires s.pending != [] ==> AddrOk(cfg.dram, s.pending[0].vec) && Leads(cfg.dram, s.channel, s.pending[0].vec)
    requires t == Complete(cfg, s)
    ensures t == s.(channel := t.channel, pending := if HeadDue(s, s.clk) then s.pending[1..] else s.pending,
                    called := s.called + if HeadDue(s, s.clk) then [s.pending[0].id] else [])
  {
  }

  lemma PhasesPrepare(cfg: Config, s: State, o: Oracle, t: State, u: State)
    requires ConfigOk(cfg) && Shape(cfg.dram, s.channel) && |s.otherq| <= QUEUE_MAX
    requires s.pending != [] ==> AddrOk(cfg.dram, s.pending[0].vec) && Leads(cfg.dram, s.channel, s.pending[0].vec)
    requires t == Complete(cfg, s.(clk := s.clk + 1)) && u == Refresh(t, o.refresh)
    ensures Prepares(s, o, SwitchMode(cfg, u))
  {
    CompletePrepares(cfg, s.(clk := s.clk + 1), t);
    RefreshExact(t, o.refresh);
    RefreshesSame(t, s.(clk := s.clk + 1), o.refresh, QUEUE_MAX - |s.otherq|);
    assert SwitchMode(cfg, u) == u.(writeMode := SwitchMode(cfg, u).writeMode);
  }

  lemma HeadOk(cfg: Config, s: State)
    requires Inv(cfg, s, s.clk)
    ensures ConfigOk(cfg) && Shape(cfg.dram, s.channel) && |s.otherq| <= QUEUE_MAX
    ensures s.pending != [] ==> VecOk(cfg, s.pending[0].vec) && Leads(cfg.dram, s.channel, s.pending[0].vec)
  {
    PendingOk(cfg, s, s.clk);
  }

  /** The state in which the clock chooses a command. */
  ghost function Choosing(cfg: Config, s: State, o: Oracle): (v: State)
    requires Inv(cfg, s, s.clk) && OracleOk(cfg, o)
    ensures Ready(cfg, v) && Tick(cfg, s, o) == Schedule(cfg, v, o)
    ensures Prepares(s, o, v)
  {
    HeadOk(cfg, s);
    var t := Complete(cfg, s.(clk := s.clk + 1));
    var u := Refresh(t, o.refresh);
    TickReady(cfg, s, o, t, u);
    TickUnfolds(cfg, s, o, t, u, SwitchMode(cfg, u));
    PhasesPrepare(cfg, s, o, t, u);
    SwitchMode(cfg, u)
  }

  lemma {:induction false} RefreshesSame(s: State, t: State, due: seq<(seq<int>, nat)>, room: nat)
    requires s.clk == t.clk && s.accepted == t.accepted
    ensures Refreshes(s, due, room) == Refreshes(t, due, room)
  {
    if due != [] { RefreshesSame(s, t, due[..|due| - 1], room); }
  }

  // ----- Reads that wait for data ----------------------------------------------------------------------

  /** A forwarded read departs in the clock after its arrival; for any other the command that completes
      it was issued at its address, and it departs when the data of that command are there. */
  ghost predicate Origin(cfg: Config, issued: seq<Issue>, r: Request) {
    && r.kind.Read?
    && if r.first then r.depart == r.arrive + 1
       else Issue(r.target, r.vec, r.depart - cfg.latency) in issued
  }

  lemma ServesJoins(cfg: Config, s: State, t: State, q: seq<Request>, left: seq<Request>, i: nat, cmd: nat)
    requires i < |q| && cmd < |cfg.opening| && 1 <= cfg.latency && Serves(cfg, s, t, q, left, i, cmd)
    ensures Joins(cfg, s, t)
  {
    assert t.issued[|s.issued|] in t.issued;
  }

  /** At most one read has come to wait for data. */
  ghost predicate Joins(cfg: Config, s: State, t: State) {
    && s.pending <= t.pending && |t.pending| <= |s.pending| + 1 && s.issued <= t.issued
    && forall i :: |s.pending| <= i < |t.pending| ==>
         s.clk < t.pending[i].depart && Origin(cfg, t.issued, t.pending[i])
  }

  lemma ChosenJoins(cfg: Config, s: State, t: State, o: Oracle)
    requires ConfigOk(cfg) && Ready(cfg, s) && OracleOk(cfg, o) && Chosen(cfg, s, t, o)
    ensures Joins(cfg, s, t)
  {
    if Able(cfg, s, s.actq, o.actPick, o.actCmd) {
      var left :| Serves(cfg, s, t, s.actq, left, o.actPick, o.actCmd);
      ServesJoins(cfg, s, t, s.actq, left, o.actPick, o.actCmd);
    } else if s.otherq != [] {
      MainJoins(cfg, s, t, o, s.otherq, t.otherq);
    } else if s.writeMode {
      MainJoins(cfg, s, t, o, s.writeq, t.writeq);
    } else {
      MainJoins(cfg, s, t, o, s.readq, t.readq);
    }
  }

  lemma MainJoins(cfg: Config, s: State, t: State, o: Oracle, q: seq<Request>, left: seq<Request>)
    requires ConfigOk(cfg) && ChannelOk(cfg, s.channel) && QueueOk(cfg, q) && OracleOk(cfg, o)
    requires MainServed(cfg, s, t, o, q, left)
    ensures Joins(cfg, s, t)
  {
    if Able(cfg, s, q, o.mainPick, o.mainCmd) {
      ServesJoins(cfg, s, t, q, left, o.mainPick, o.mainCmd);
    }
  }

  /** The `k`th read to wait is called back when it departs, or right after the read before it. */
  predicate TimeAt(js: seq<Request>, ts: seq<int>, k: nat)
    requires k < |js| == |ts|
  {
    ts[k] == if k == 0 || ts[k - 1] < js[k].depart then js[k].depart else ts[k - 1] + 1
  }

  /** `ts` are the clocks in which reads that came to wait in the order `js` are called back: each when it
      departs, but only one in each clock and in their order. */
  predicate Times(js: seq<Request>, ts: seq<int>) {
    |ts| == |js| && forall k :: 0 <= k < |js| ==> TimeAt(js, ts, k)
  }

  function Due(js: seq<Request>): (ts: seq<int>)
    ensures Times(js, ts)
  {
    if js == [] then []
    else
      var n := |js| - 1;
      var front := Due(js[..n]);
      var ts := front + [if n == 0 || front[n - 1] < js[n].depart then js[n].depart else front[n - 1] + 1];
      assert forall k :: 0 <= k < n && TimeAt(js[..n], front, k) ==> TimeAt(js, ts, k);
      ts
  }

  lemma {:induction false} TimesRise(js: seq<Request>, ts: seq<int>, j: nat, k: nat)
    requires Times(js, ts) && j <= k < |js|
    ensures js[k].depart <= ts[k] && (j < k ==> ts[j] < ts[k])
  {
    assert TimeAt(js, ts, k);
    if j < k { TimesRise(js, ts, j, k - 1); }
  }

  lemma {:induction false} TimesStay(js: seq<Request>, ts: seq<int>, more: seq<Request>, next: seq<int>, k: nat)
    requires Times(js, ts) && Times(js + more, next) && k < |js|
    ensures next[k] == ts[k]
  {
    assert TimeAt(js, ts, k) && TimeAt(js + more, next, k);
    if k > 0 { TimesStay(js, ts, more, next, k - 1); }
  }

  /** Of the reads `js` those whose clock has come have been called back, in order, at the clocks `cs`;
      the others wait. */
  predicate Kept(js: seq<Request>, ts: seq<int>, called: seq<nat>, pending: seq<Request>, cs: seq<int>, clk: int)
  {
    var n := |called|;
    && n <= |js| == |ts| && js[n..] == pending && cs == ts[..n]
    && (forall k :: 0 <= k < n ==> called[k] == js[k].id)
    && (forall k :: 0 <= k < |ts| ==> (k < n <==> ts[k] <= clk))
  }

  lemma KeptMore(js: seq<Request>, ts: seq<int>, called: seq<nat>, pending: seq<Request>, cs: seq<int>, clk: int,
                 more: seq<Request>, next: seq<int>)
    requires Kept(js, ts, called, pending, cs, clk) && Times(js, ts) && Times(js + more, next)
    requires forall i :: 0 <= i < |more| ==> clk < more[i].depart
    ensures Kept(js + more, next, called, pending + more, cs, clk)
  {
    var n := |called|;
    forall k | 0 <= k < |js| ensures next[k] == ts[k] { TimesStay(js, ts, more, next, k); }
    forall k | |js| <= k < |next| ensures clk < next[k] {
      assert (js + more)[k] == more[k - |js|];
      TimesRise(js + more, next, k, k);
    }
    assert (js + more)[n..] == js[n..] + more;
    assert next[..n] == ts[..n];
  }

  /** When the first `n` of rising times have come at a clock, at most the next one comes at the next. */
  lemma DueNext(ts: seq<int>, depart: int, n: nat, clk: int)
    requires n < |ts| && forall j, k :: 0 <= j < k < |ts| ==> ts[j] < ts[k]
    requires forall k :: 0 <= k < |ts| ==> (k < n <==> ts[k] <= clk)
    requires ts[n] == if n == 0 || ts[n - 1] < depart then depart else ts[n - 1] + 1
    ensures depart <= clk + 1 <==> ts[n] == clk + 1
    ensures forall k :: 0 <= k < |ts| ==> (k < (if depart <= clk + 1 then n + 1 else n) <==> ts[k] <= clk + 1)
  {
    assert n > 0 ==> ts[n - 1] <= clk;
    assert ts[n] > clk;
  }

  /** The read at the head is called back at the next clock if it is due then. */
  lemma KeptClock(js: seq<Request>, ts: seq<int>, called: seq<nat>, pending: seq<Request>, cs: seq<int>, clk: int)
    requires Kept(js, ts, called, pending, cs, clk) && Times(js, ts) && pending != []
    ensures if pending[0].depart <= clk + 1
      then Kept(js, ts, called + [pending[0].id], pending[1..], cs + [clk + 1], clk + 1)
      else Kept(js, ts, called, pending, cs, clk + 1)
  {
    var n := |called|;
    assert js[n] == js[n..][0] == pending[0];
    assert TimeAt(js, ts, n);
    forall j, k | 0 <= j < k < |ts| ensures ts[j] < ts[k] { TimesRise(js, ts, j, k); }
    DueNext(ts, js[n].depart, n, clk);
    assert js[n + 1..] == js[n..][1..];
    if pending[0].depart <= clk + 1 { assert ts[..n + 1] == ts[..n] + [clk + 1]; }
  }

  lemma KeptIdle(js: seq<Request>, ts: seq<int>, called: seq<nat>, cs: seq<int>, clk: int)
    requires Kept(js, ts, called, [], cs, clk)
    ensures Kept(js, ts, called, [], cs, clk + 1)
  {
    assert |js[|called|..]| == 0;
  }

  /** `js` are the reads that have come to wait, in order, and `cs` the clocks of the call-backs. */
  ghost predicate Ledger(cfg: Config, s: State, js: seq<Request>, ts: seq<int>, cs: seq<int>) {
    && Times(js, ts) && Kept(js, ts, s.called, s.pending, cs, s.clk)
    && forall k :: 0 <= k < |js| ==> Origin(cfg, s.issued, js[k])
  }

  /** Reads that come to wait at a clock depart later and change nothing for those before them. */
  lemma LedgerJoins(cfg: Config, s: State, t: State, js: seq<Request>, ts: seq<int>, cs: seq<int>,
                    more: seq<Request>, next: seq<int>)
    requires Ledger(cfg, s, js, ts, cs) && Joins(cfg, s, t) && t.called == s.called && t.clk == s.clk
    requires more == t.pending[|s.pending|..] && Times(js + more, next)
    ensures Ledger(cfg, t, js + more, next, cs)
  {
    assert t.pending == s.pending + more;
    KeptMore(js, ts, s.called, s.pending, cs, s.clk, more, next);
    forall k | 0 <= k < |js + more| ensures Origin(cfg, t.issued, (js + more)[k]) {
      if k < |js| {
        assert Origin(cfg, s.issued, js[k]);
      } else {
        assert (js + more)[k] == t.pending[|s.pending| + k - |js|];
      }
    }
  }

  /** The clock goes on by one, and the read at the head is called back if it is due. */
  lemma LedgerClock(cfg: Config, s: State, v: State, js: seq<Request>, ts: seq<int>, cs: seq<int>)
    requires Ledger(cfg, s, js, ts, cs) && v.clk == s.clk + 1 && v.issued == s.issued
    requires v.pending == if HeadDue(s, s.clk + 1) then s.pending[1..] else s.pending
    requires v.called == s.called + if HeadDue(s, s.clk + 1) then [s.pending[0].id] else []
    ensures Ledger(cfg, v, js, ts, cs + if HeadDue(s, v.clk) then [v.clk] else [])
  {
    assert s.called + [] == s.called && cs + [] == cs;
    if s.pending == [] {
      KeptIdle(js, ts, s.called, cs, s.clk);
    } else {
      KeptClock(js, ts, s.called, s.pending, cs, s.clk);
    }
  }

  // ----- Runs ----------------------------------------------------------------------------------------------

  /** The reads that have come to wait between two states. */
  function Come(s: State, t: State): seq<Request> {
    var called := |t.called| - |s.called|;
    if 0 <= |s.pending| - called <= |t.pending| then t.pending[|s.pending| - called..] else []
  }

  /** The clock of the call-back between two states, if there was one. */
  function Called(s: State, t: State): seq<int> {
    if |t.called| > |s.called| then [t.clk] else []
  }

  /** The reads that a run makes wait for data, in the order in which they come to wait. */
  ghost function Waiting(cfg: Config, es: seq<Event>): seq<Request>
    requires ConfigOk(cfg) && EventsOk(cfg, es)
  {
    if es == [] then []
    else
      var front := es[..|es| - 1];
      Waiting(cfg, front) + Come(StateAfter(cfg, front), StateAfter(cfg, es))
  }

  /** The clocks of its call-backs. */
  ghost function CallTimes(cfg: Config, es: seq<Event>): seq<int>
    requires ConfigOk(cfg) && EventsOk(cfg, es)
  {
    if es == [] then []
    else
      var front := es[..|es| - 1];
      CallTimes(cfg, front) + Called(StateAfter(cfg, front), StateAfter(cfg, es))
  }

  lemma ArrivalJoins(cfg: Config, s: State, kind: Kind, addr: int, vec: seq<int>, target: nat)
    ensures var t := Enqueue(s, kind, addr, vec, target);
      Joins(cfg, s, t) && t.called == s.called && t.clk == s.clk
  {
  }

  lemma LedgerArrival(cfg: Config, s: State, t: State, e: Event, js: seq<Request>, ts: seq<int>, cs: seq<int>,
                      next: seq<int>)
    requires e.Arrive? && t == Enqueue(s, e.kind, e.addr, e.vec, e.target) && Ledger(cfg, s, js, ts, cs)
    requires Times(js + Come(s, t), next)
    ensures Ledger(cfg, t, js + Come(s, t), next, cs + Called(s, t))
  {
    ArrivalJoins(cfg, s, e.kind, e.addr, e.vec, e.target);
    LedgerJoins(cfg, s, t, js, ts, cs, Come(s, t), next);
    assert cs + [] == cs;
  }

  lemma LedgerTick(cfg: Config, s: State, o: Oracle, v: State, t: State, js: seq<Request>, ts: seq<int>, cs: seq<int>,
                   next: seq<int>)
    requires ConfigOk(cfg) && Ready(cfg, v) && OracleOk(cfg, o)
    requires Ledger(cfg, s, js, ts, cs) && Prepares(s, o, v) && Chosen(cfg, v, t, o)
    requires Times(js + Come(s, t), next)
    ensures Ledger(cfg, t, js + Come(s, t), next, cs + Called(s, t))
  {
    ChosenJoins(cfg, v, t, o);
    LedgerClock(cfg, s, v, js, ts, cs);
    assert Come(s, t) == t.pending[|v.pending|..];
    LedgerJoins(cfg, v, t, js, ts, cs + if HeadDue(s, v.clk) then [v.clk] else [], Come(s, t), next);
  }

  ghost function ChoosingAt(cfg: Config, s: State, o: Oracle, t: State): (v: State)
    requires Inv(cfg, s, s.clk) && OracleOk(cfg, o) && t == Tick(cfg, s, o)
    ensures ConfigOk(cfg) && Ready(cfg, v) && Prepares(s, o, v) && Chosen(cfg, v, t, o)
  {
    var v := Choosing(cfg, s, o);
    ScheduleExact(cfg, v, o);
    v
  }

  /** Over any run every read that comes to wait is called back in its call time and not before, and
      nothing else is; each was forwarded in the clock of its arrival or got its data from a command
      issued for it the read latency before it departs. */
  lemma {:induction false} CallBacksExact(cfg: Config, es: seq<Event>)
    requires ConfigOk(cfg) && EventsOk(cfg, es)
    ensures Ledger(cfg, StateAfter(cfg, es), Waiting(cfg, es), Due(Waiting(cfg, es)), CallTimes(cfg, es))
  {
    if es != [] {
      var front := es[..|es| - 1];
      CallBacksExact(cfg, front);
      var s, t := StateAfter(cfg, front), StateAfter(cfg, es);
      var js, cs := Waiting(cfg, front), CallTimes(cfg, front);
      match es[|es| - 1]
      case Arrive(_, _, _, _) =>
        LedgerArrival(cfg, s, t, es[|es| - 1], js, Due(js), cs, Due(Waiting(cfg, es)));
      case Clock(o) =>
        var v := ChoosingAt(cfg, s, o, t);
        LedgerTick(cfg, s, o, v, t, js, Due(js), cs, Due(Waiting(cfg, es)));
    }
  }

  lemma NextArrival(cfg: Config, es: seq<Event>, kind: Kind, addr: int, vec: seq<int>, target: nat)
    requires ConfigOk(cfg) && EventsOk(cfg, es) && VecOk(cfg, vec) && target < cfg.dram.commands
    ensures StateAfter(cfg, es + [Arrive(kind, addr, vec, target)])
         == Enqueue(StateAfter(cfg, es), kind, addr, vec, target)
  {
    assert (es + [Arrive(kind, addr, vec, target)])[..|es|] == es;
  }

  lemma NextClock(cfg: Config, es: seq<Event>, o: Oracle)
    requires ConfigOk(cfg) && EventsOk(cfg, es) && OracleOk(cfg, o)
    ensures StateAfter(cfg, es + [Clock(o)]) == Tick(cfg, StateAfter(cfg, es), o)
  {
    assert (es + [Clock(o)])[..|es|] == es;
  }

  /** What the arrival of a read makes of `s`: it is turned away if the queue of reads is full, it waits only
      for the next clock if a write to its address is queued, and else it joins the queue of reads. */
  predicate ReadTaken(s: State, t: State, addr: int, vec: seq<int>, target: nat) {
    var r := Request(s.accepted, Read, addr, vec, target, true, s.clk, -1);
    if |s.readq| == QUEUE_MAX then t == s
    else if exists i :: 0 <= i < |s.writeq| && s.writeq[i].addr == addr then
      t == s.(accepted := s.accepted + 1, pending := s.pending + [r.(depart := s.clk + 1)])
    else t == s.(accepted := s.accepted + 1, readq := s.readq + [r])
  }

  /** What the arrival of a write makes of `s`. */
  predicate WriteTaken(s: State, t: State, addr: int, vec: seq<int>, target: nat) {
    t == if |s.writeq| == QUEUE_MAX then s
         else s.(accepted := s.accepted + 1,
                 writeq := s.writeq + [Request(s.accepted, Write, addr, vec, target, true, s.clk, -1)])
  }

  lemma ArrivalExact(cfg: Config, es: seq<Event>, addr: int, vec: seq<int>, target: nat)
    requires ConfigOk(cfg) && EventsOk(cfg, es) && VecOk(cfg, vec) && target < cfg.dram.commands
    ensures ReadTaken(StateAfter(cfg, es), StateAfter(cfg, es + [Arrive(Read, addr, vec, target)]), addr, vec, target)
    ensures WriteTaken(StateAfter(cfg, es), StateAfter(cfg, es + [Arrive(Write, addr, vec, target)]), addr, vec, target)
  {
    NextArrival(cfg, es, Read, addr, vec, target);
    NextArrival(cfg, es, Write, addr, vec, target);
    TakenAt(StateAfter(cfg, es), addr, vec, target);
  }

  lemma TakenAt(s: State, addr: int, vec: seq<int>, target: nat)
    ensures ReadTaken(s, Enqueue(s, Read, addr, vec, target), addr, vec, target)
    ensures WriteTaken(s, Enqueue(s, Write, addr, vec, target), addr, vec, target)
  {
  }

  /** A clock takes a write from its queue, or starts one there, only in write mode, a read only out of
      it, and neither while other requests wait or refreshes come in. */
  predicate InTurn(s: State, t: State, o: Oracle) {
    && (t.writeq != s.writeq ==> t.writeMode && s.otherq == [] && o.refresh == [])
    && (t.readq != s.readq ==> !t.writeMode && s.otherq == [] && o.refresh == [])
  }

  lemma ChosenInTurn(cfg: Config, s: State, o: Oracle, v: State, t: State)
    requires ConfigOk(cfg) && Ready(cfg, v) && OracleOk(cfg, o) && Prepares(s, o, v) && Chosen(cfg, v, t, o)
    ensures InTurn(s, t, o)
  {
    if v.otherq == [] {
      RefreshesSome(s.(clk := s.clk + 1), o.refresh, QUEUE_MAX - |s.otherq|);
    }
  }

  /** In any run. */
  lemma ClockServes(cfg: Config, es: seq<Event>, o: Oracle)
    requires ConfigOk(cfg) && EventsOk(cfg, es) && OracleOk(cfg, o)
    ensures InTurn(StateAfter(cfg, es), StateAfter(cfg, es + [Clock(o)]), o)
  {
    NextClock(cfg, es, o);
    var s, t := StateAfter(cfg, es), StateAfter(cfg, es + [Clock(o)]);
    ChosenInTurn(cfg, s, o, ChoosingAt(cfg, s, o, t), t);
  }

  lemma {:induction false} RefreshesSome(s: State, due: seq<(seq<int>, nat)>, room: nat)
    ensures |Refreshes(s, due, room)| == if |due| <= room then |due| else room
  {
    if due != [] && room != 0 { RefreshesSome(s, due[..|due| - 1], room); }
  }
}
