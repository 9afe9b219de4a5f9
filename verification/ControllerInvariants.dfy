/** What the controller keeps at every clock, for any choice of its oracles: the channel keeps its
    shape, the queues their bounds and their kinds of requests, every accepted request is in
    exactly one place, the counters of the nodes count the requests in service, and the tree's
    timing is that of the commands issued, each of which passed its check. The last part
    follows these through one clock and through whole runs. */
module ControllerInvariants {
  import opened DramTree
  import opened DramTiming
  import opened Controller

  // ----- The invariant -------------------------------------------------------------------------

  function HasId(id: nat): Request -> nat {
    (r: Request) => if r.id == id then 1 else 0
  }

  /** A read or write whose first command was issued, at an address through the node. */
  function InService(path: seq<int>): Request -> nat {
    (r: Request) => if Counts(r) && !r.first && Passes(0, path, r.vec) then 1 else 0
  }

  predicate Sizes(s: State) {
    |s.readq| <= QUEUE_MAX && |s.writeq| <= QUEUE_MAX && |s.otherq| <= QUEUE_MAX
  }

  /** What is true of a request in queue `w`; waiting reads were accepted by clock `arrived`. */
  predicate Belongs(cfg: Config, w: Which, r: Request, arrived: int)
    requires ConfigOk(cfg)
  {
    && RequestOk(cfg, r)
    && match w
       case InRead => r.kind.Read? && r.arrive <= arrived
       case InWrite => r.kind.Write?
       case InAct => r.kind.Read? ==> r.arrive <= arrived
       case InOther => r.kind.Other?
  }

  /** A read that waits for data was in service unless it was forwarded. */
  predicate Waits(cfg: Config, r: Request)
    requires ConfigOk(cfg)
  {
    RequestOk(cfg, r) && r.kind.Read? && (r.first <==> r.depart - r.arrive <= 1)
  }

  predicate QueueIn(cfg: Config, w: Which, q: seq<Request>, arrived: int)
    requires ConfigOk(cfg)
  {
    forall i :: 0 <= i < |q| ==> Belongs(cfg, w, q[i], arrived)
  }

  predicate AllWait(cfg: Config, q: seq<Request>)
    requires ConfigOk(cfg)
  {
    forall i :: 0 <= i < |q| ==> Waits(cfg, q[i])
  }

  /** Every accepted request is in exactly one place: one of the queues, the callbacks made, or
      the requests retired. */
  ghost predicate Conserved(s: State) {
    forall id: nat ::
      Total(s, HasId(id)) + multiset(s.called)[id] + multiset(s.retired)[id] == if id < s.accepted then 1 else 0
  }

  /** Down to the bank, a node counts the unfinished requests through it that have started. */
  ghost predicate Served(cfg: Config, s: State) {
    forall path :: |path| <= cfg.dram.bank && HasPath(s.channel, path) ==>
      At(s.channel, path).serving == Total(s, InService(path))
  }

  /** The tree's timing is what the issued commands left, and each of them passed its check. */
  ghost predicate Timed(cfg: Config, clk: int, channel: Tree, issued: seq<Issue>)
    requires ConfigOk(cfg)
  {
    && IssuesOk(cfg.dram, issued) && 0 <= clk
    && (issued != [] ==> Last(issued).clk <= clk)
    && Bare(channel) == After(cfg.dram, cfg.channel, issued)
    && CheckedRun(cfg.dram, cfg.channel, issued)
  }

  predicate QueuesOk(cfg: Config, s: State, arrived: int)
    requires ConfigOk(cfg)
  {
    && Sizes(s)
    && QueueIn(cfg, InRead, s.readq, arrived) && QueueIn(cfg, InWrite, s.writeq, arrived)
    && QueueIn(cfg, InAct, s.actq, arrived) && QueueIn(cfg, InOther, s.otherq, arrived)
    && AllWait(cfg, s.pending)
  }

  ghost predicate Inv(cfg: Config, s: State, arrived: int) {
    && ConfigOk(cfg) && ChannelOk(cfg, s.channel) && QueuesOk(cfg, s, arrived)
    && Conserved(s) && Served(cfg, s) && Timed(cfg, s.clk, s.channel, s.issued)
  }

  // ----- The channel ------------------------------------------------------------------------------

  lemma UpdateChannelOk(cfg: Config, t: Tree, cmd: nat, addr: seq<int>, clk: int)
    requires ConfigOk(cfg) && ChannelOk(cfg, t) && cmd < cfg.dram.commands && AddrOk(cfg.dram, addr)
    ensures ChannelOk(cfg, Update(cfg.dram, t, cmd, addr, clk))
  {
    UpdateShape(cfg.dram, t, cmd, addr, clk);
    forall vec | AddrOk(cfg.dram, vec)
      ensures Leads(cfg.dram, Update(cfg.dram, t, cmd, addr, clk), vec) <==> Leads(cfg.dram, Fresh(cfg), vec)
    {
      UpdateLeads(cfg.dram, t, cmd, addr, clk, vec);
    }
  }

  lemma ServeChannelOk(cfg: Config, t: Tree, addr: seq<int>, delta: int)
    requires ConfigOk(cfg) && ChannelOk(cfg, t) && VecOk(cfg, addr)
    ensures ChannelOk(cfg, Serve(cfg.dram, t, addr, delta))
  {
    ServeShape(cfg.dram, t, addr, delta);
    forall vec | AddrOk(cfg.dram, vec)
      ensures Leads(cfg.dram, Serve(cfg.dram, t, addr, delta), vec) <==> Leads(cfg.dram, Fresh(cfg), vec)
    {
      ServeLeads(cfg.dram, t, addr, delta, vec);
    }
  }

  /** The nodes of `u` are those of `t`; each counts `delta` more requests if `addr` passes through it. */
  ghost predicate ServesMore(cfg: Config, t: Tree, u: Tree, addr: seq<int>, delta: int) {
    forall path :: |path| <= cfg.dram.bank && HasPath(u, path) ==>
      && HasPath(t, path)
      && At(u, path).serving == At(t, path).serving + (if Passes(0, path, addr) then delta else 0)
  }

  lemma ServeServesMore(cfg: Config, t: Tree, addr: seq<int>, delta: int)
    requires ConfigOk(cfg) && ChannelOk(cfg, t) && VecOk(cfg, addr)
    ensures ServesMore(cfg, t, Serve(cfg.dram, t, addr, delta), addr, delta)
  {
    forall path | |path| <= cfg.dram.bank && HasPath(Serve(cfg.dram, t, addr, delta), path)
      ensures HasPath(t, path)
      ensures At(Serve(cfg.dram, t, addr, delta), path).serving
           == At(t, path).serving + (if Passes(0, path, addr) then delta else 0)
    {
      ServePaths(cfg.dram, t, addr, delta, path);
      ServeAt(cfg.dram, t, addr, delta, path);
    }
  }

  lemma UpdateServesSame(cfg: Config, t: Tree, cmd: nat, addr: seq<int>, clk: int)
    requires ConfigOk(cfg) && ChannelOk(cfg, t) && cmd < cfg.dram.commands && AddrOk(cfg.dram, addr)
    ensures ServesMore(cfg, t, Update(cfg.dram, t, cmd, addr, clk), addr, 0)
  {
    forall path | |path| <= cfg.dram.bank && HasPath(Update(cfg.dram, t, cmd, addr, clk), path)
      ensures HasPath(t, path)
      ensures At(Update(cfg.dram, t, cmd, addr, clk), path).serving == At(t, path).serving
    {
      UpdateServingAt(cfg.dram, t, cmd, addr, clk, path);
    }
  }

  // ----- Accepting ------------------------------------------------------------------------------------

  /** The request as it is stored. */
  function Stored(s: State, kind: Kind, addr: int, vec: seq<int>, target: nat): Request {
    Request(s.accepted, kind, addr, vec, target, true, s.clk,
      if kind.Read? && Forwards(s, addr) then s.clk + 1 else -1)
  }

  lemma EnqueueTotal(s: State, kind: Kind, addr: int, vec: seq<int>, target: nat, f: Request -> nat)
    requires |Queue(s, QueueOf(kind))| != QUEUE_MAX
    ensures Total(Enqueue(s, kind, addr, vec, target), f) == Total(s, f) + f(Stored(s, kind, addr, vec, target))
  {
    var r := Stored(s, kind, addr, vec, target);
    SumAppend(s.pending, r, f);
    SumAppend(Queue(s, QueueOf(kind)), r, f);
  }

  lemma EnqueueConserved(s: State, kind: Kind, addr: int, vec: seq<int>, target: nat)
    requires Conserved(s) && |Queue(s, QueueOf(kind))| != QUEUE_MAX
    ensures Conserved(Enqueue(s, kind, addr, vec, target))
  {
    var t := Enqueue(s, kind, addr, vec, target);
    forall id: nat
      ensures Total(t, HasId(id)) + multiset(t.called)[id] + multiset(t.retired)[id] == if id < t.accepted then 1 else 0
    {
      EnqueueTotal(s, kind, addr, vec, target, HasId(id));
      assert Total(s, HasId(id)) + multiset(s.called)[id] + multiset(s.retired)[id] == if id < s.accepted then 1 else 0;
    }
  }

  lemma EnqueueServed(cfg: Config, s: State, kind: Kind, addr: int, vec: seq<int>, target: nat)
    requires Served(cfg, s) && |Queue(s, QueueOf(kind))| != QUEUE_MAX
    ensures Served(cfg, Enqueue(s, kind, addr, vec, target))
  {
    forall path | |path| <= cfg.dram.bank && HasPath(s.channel, path)
      ensures At(s.channel, path).serving == Total(Enqueue(s, kind, addr, vec, target), InService(path))
    {
      EnqueueTotal(s, kind, addr, vec, target, InService(path));
    }
  }

  lemma SetQueueOk(cfg: Config, s: State, w: Which, q: seq<Request>, arrived: int)
    requires ConfigOk(cfg) && QueuesOk(cfg, s, arrived) && QueueIn(cfg, w, q, arrived)
    requires w.InAct? || |q| <= QUEUE_MAX
    ensures QueuesOk(cfg, SetQueue(s, w, q), arrived)
  {
  }

  lemma EnqueueQueues(cfg: Config, s: State, kind: Kind, addr: int, vec: seq<int>, target: nat, arrived: int)
    requires ConfigOk(cfg) && QueuesOk(cfg, s, arrived) && VecOk(cfg, vec) && target < cfg.dram.commands
    requires kind.Read? ==> s.clk <= arrived
    requires |Queue(s, QueueOf(kind))| != QUEUE_MAX
    ensures QueuesOk(cfg, Enqueue(s, kind, addr, vec, target), arrived)
  {
    var r := Stored(s, kind, addr, vec, target);
    if kind.Read? && Forwards(s, addr) {
      assert Waits(cfg, r);
    } else {
      assert Belongs(cfg, QueueOf(kind), r, arrived);
      SetQueueOk(cfg, s.(accepted := s.accepted + 1), QueueOf(kind), Queue(s, QueueOf(kind)) + [r], arrived);
    }
  }

  lemma EnqueueFrame(s: State, kind: Kind, addr: int, vec: seq<int>, target: nat)
    ensures var t := Enqueue(s, kind, addr, vec, target);
      t.channel == s.channel && t.issued == s.issued && t.clk == s.clk
    ensures |Queue(s, QueueOf(kind))| == QUEUE_MAX ==> Enqueue(s, kind, addr, vec, target) == s
  {
  }

  /** Accepting a request keeps everything; a full queue rejects and changes nothing. */
  lemma EnqueueKeeps(cfg: Config, s: State, kind: Kind, addr: int, vec: seq<int>, target: nat, arrived: int)
    requires Inv(cfg, s, arrived) && VecOk(cfg, vec) && target < cfg.dram.commands
    requires kind.Read? ==> s.clk <= arrived
    ensures var t := Enqueue(s, kind, addr, vec, target);
      Inv(cfg, t, arrived) && t.channel == s.channel && t.issued == s.issued && t.clk == s.clk
  {
    EnqueueFrame(s, kind, addr, vec, target);
    if |Queue(s, QueueOf(kind))| != QUEUE_MAX {
      EnqueueQueues(cfg, s, kind, addr, vec, target, arrived);
      EnqueueConserved(s, kind, addr, vec, target);
      EnqueueServed(cfg, s, kind, addr, vec, target);
    }
  }

  lemma {:induction false} RefreshKeeps(cfg: Config, s: State, due: seq<(seq<int>, nat)>, arrived: int)
    requires Inv(cfg, s, arrived)
    requires forall i :: 0 <= i < |due| ==> VecOk(cfg, due[i].0) && due[i].1 < cfg.dram.commands
    ensures var t := Refresh(s, due);
      Inv(cfg, t, arrived) && t.channel == s.channel && t.issued == s.issued && t.clk == s.clk
  {
    if due != [] {
      var n := |due| - 1;
      RefreshKeeps(cfg, s, due[..n], arrived);
      EnqueueKeeps(cfg, Refresh(s, due[..n]), Other, -1, due[n].0, due[n].1, arrived);
    }
  }

  // ----- Calling back a read ------------------------------------------------------------------------------

  /** The oldest waiting read is due. */
  predicate Due(s: State) {
    s.pending != [] && s.pending[0].depart <= s.clk
  }

  lemma PendingHead(cfg: Config, s: State, arrived: int)
    requires ConfigOk(cfg) && ChannelOk(cfg, s.channel) && QueuesOk(cfg, s, arrived) && s.pending != []
    ensures VecOk(cfg, s.pending[0].vec) && Leads(cfg.dram, s.channel, s.pending[0].vec)
    ensures Waits(cfg, s.pending[0])
  {
    assert Waits(cfg, s.pending[0]);
  }

  lemma CompleteFrame(cfg: Config, s: State)
    requires ConfigOk(cfg) && Shape(cfg.dram, s.channel) && Due(s)
    requires AddrOk(cfg.dram, s.pending[0].vec) && Leads(cfg.dram, s.channel, s.pending[0].vec)
    ensures var t := Complete(cfg, s);
      var r := s.pending[0];
      t == s.(pending := s.pending[1..], called := s.called + [r.id],
              channel := if r.depart - r.arrive > 1 then Serve(cfg.dram, s.channel, r.vec, -1) else s.channel)
  {
  }

  lemma CompleteConserved(cfg: Config, s: State)
    requires ConfigOk(cfg) && Shape(cfg.dram, s.channel) && Conserved(s) && Due(s)
    requires AddrOk(cfg.dram, s.pending[0].vec) && Leads(cfg.dram, s.channel, s.pending[0].vec)
    ensures Conserved(Complete(cfg, s))
  {
    var t := Complete(cfg, s);
    CompleteFrame(cfg, s);
    forall id: nat
      ensures Total(t, HasId(id)) + multiset(t.called)[id] + multiset(t.retired)[id] == if id < t.accepted then 1 else 0
    {
      SumPop(s.pending, HasId(id));
      assert Total(s, HasId(id)) + multiset(s.called)[id] + multiset(s.retired)[id] == if id < s.accepted then 1 else 0;
    }
  }

  lemma PopServed(cfg: Config, s: State, channel: Tree)
    requires ConfigOk(cfg) && Served(cfg, s) && s.pending != [] && Waits(cfg, s.pending[0])
    requires ServesMore(cfg, s.channel, channel, s.pending[0].vec, if s.pending[0].first then 0 else -1)
    ensures Served(cfg, s.(pending := s.pending[1..], channel := channel))
  {
    forall path | |path| <= cfg.dram.bank && HasPath(channel, path)
      ensures At(channel, path).serving == Total(s.(pending := s.pending[1..], channel := channel), InService(path))
    {
      SumPop(s.pending, InService(path));
    }
  }

  lemma CompleteServed(cfg: Config, s: State)
    requires ConfigOk(cfg) && ChannelOk(cfg, s.channel) && Served(cfg, s) && Due(s)
    requires VecOk(cfg, s.pending[0].vec) && Leads(cfg.dram, s.channel, s.pending[0].vec) && Waits(cfg, s.pending[0])
    ensures Served(cfg, Complete(cfg, s)) && ChannelOk(cfg, Complete(cfg, s).channel)
    ensures Bare(Complete(cfg, s).channel) == Bare(s.channel)
  {
    var t := Complete(cfg, s);
    var r := s.pending[0];
    CompleteFrame(cfg, s);
    ServeServesMore(cfg, s.channel, r.vec, -1);
    ServeChannelOk(cfg, s.channel, r.vec, -1);
    BareServe(cfg.dram, s.channel, r.vec, -1);
    PopServed(cfg, s, t.channel);
    SameServed(cfg, s.(pending := s.pending[1..], channel := t.channel), t);
  }

  lemma SameServed(cfg: Config, s: State, t: State)
    requires Served(cfg, s) && t.channel == s.channel
    requires t.readq == s.readq && t.writeq == s.writeq && t.actq == s.actq
    requires t.otherq == s.otherq && t.pending == s.pending
    ensures Served(cfg, t)
  {
    forall path | |path| <= cfg.dram.bank && HasPath(t.channel, path)
      ensures At(t.channel, path).serving == Total(t, InService(path))
    {
      assert At(s.channel, path).serving == Total(s, InService(path));
    }
  }

  /** A call-back keeps everything. */
  lemma CompleteKeeps(cfg: Config, s: State, arrived: int)
    requires Inv(cfg, s, arrived)
    ensures s.pending != [] ==> VecOk(cfg, s.pending[0].vec) && Leads(cfg.dram, s.channel, s.pending[0].vec)
    ensures var t := Complete(cfg, s);
      Inv(cfg, t, arrived) && t.issued == s.issued && t.clk == s.clk
  {
    if s.pending != [] {
      PendingHead(cfg, s, arrived);
    }
    if Due(s) {
      CompleteFrame(cfg, s);
      CompleteConserved(cfg, s);
      CompleteServed(cfg, s);
    }
  }

  // ----- Issuing a command -------------------------------------------------------------------------------------

  /** How many more requests the nodes of the address serve after the issue. */
  function Change(r: Request, cmd: nat): int {
    (if r.first && Counts(r) then 1 else 0) - (if Retires(r, cmd) && r.kind.Write? then 1 else 0)
  }

  lemma ServesMoreChain(cfg: Config, t: Tree, u: Tree, v: Tree, addr: seq<int>, d: int, e: int)
    requires ServesMore(cfg, t, u, addr, d) && ServesMore(cfg, u, v, addr, e)
    ensures ServesMore(cfg, t, v, addr, d + e)
  {
  }

  lemma IssuedChannel(cfg: Config, t: Tree, r: Request, cmd: nat, clk: int)
    requires ConfigOk(cfg) && ChannelOk(cfg, t) && VecOk(cfg, r.vec) && cmd < cfg.dram.commands
    ensures ChannelOk(cfg, ChannelAfter(cfg, t, r, cmd, clk))
    ensures ServesMore(cfg, t, ChannelAfter(cfg, t, r, cmd, clk), r.vec, Change(r, cmd))
    ensures Shape(cfg.dram, Bare(t))
    ensures Bare(ChannelAfter(cfg, t, r, cmd, clk)) == Update(cfg.dram, Bare(t), cmd, r.vec, clk)
  {
    var starts := r.first && Counts(r);
    ServeChannelOk(cfg, t, r.vec, 1);
    var served := if starts then Serve(cfg.dram, t, r.vec, 1) else t;
    assert ServesMore(cfg, t, served, r.vec, if starts then 1 else 0) by {
      ServeServesMore(cfg, t, r.vec, 1);
    }
    UpdateChannelOk(cfg, served, cmd, r.vec, clk);
    var sent := Update(cfg.dram, served, cmd, r.vec, clk);
    UpdateServesSame(cfg, served, cmd, r.vec, clk);
    ServesMoreChain(cfg, t, served, sent, r.vec, if starts then 1 else 0, 0);
    assert Shape(cfg.dram, Bare(t)) && Bare(sent) == Update(cfg.dram, Bare(t), cmd, r.vec, clk) by {
      BareShape(cfg.dram, t);
      BareServe(cfg.dram, t, r.vec, 1);
      BareUpdate(cfg.dram, served, cmd, r.vec, clk);
    }
    if Retires(r, cmd) && r.kind.Write? {
      ServeChannelOk(cfg, sent, r.vec, -1);
      ServeServesMore(cfg, sent, r.vec, -1);
      ServesMoreChain(cfg, t, sent, Serve(cfg.dram, sent, r.vec, -1), r.vec, if starts then 1 else 0, -1);
      BareServe(cfg.dram, sent, r.vec, -1);
    }
  }

  lemma TimedExtends(cfg: Config, clk: int, t: Tree, issued: seq<Issue>, cmd: nat, addr: seq<int>, u: Tree)
    requires ConfigOk(cfg) && Timed(cfg, clk, t, issued) && cmd < cfg.dram.commands
    requires ChannelOk(cfg, t) && VecOk(cfg, addr) && Leads(cfg.dram, t, addr) && Check(cfg.dram, t, cmd, addr, clk)
    requires Shape(cfg.dram, Bare(t)) && Bare(u) == Update(cfg.dram, Bare(t), cmd, addr, clk)
    ensures Timed(cfg, clk, u, issued + [Issue(cmd, addr, clk)])
  {
    BareCheck(cfg.dram, t, cmd, addr, clk);
    RunExtends(cfg, clk, issued, Issue(cmd, addr, clk));
  }

  lemma RunExtends(cfg: Config, clk: int, issued: seq<Issue>, x: Issue)
    requires ConfigOk(cfg) && IssuesOk(cfg.dram, issued) && CheckedRun(cfg.dram, cfg.channel, issued)
    requires 0 <= clk == x.clk && (issued != [] ==> Last(issued).clk <= clk)
    requires x.cmd < cfg.dram.commands && AddrOk(cfg.dram, x.addr)
    requires var t := After(cfg.dram, cfg.channel, issued);
      Leads(cfg.dram, t, x.addr) && Check(cfg.dram, t, x.cmd, x.addr, x.clk)
    ensures IssuesOk(cfg.dram, issued + [x]) && Last(issued + [x]) == x
    ensures CheckedRun(cfg.dram, cfg.channel, issued + [x])
    ensures After(cfg.dram, cfg.channel, issued + [x])
         == Update(cfg.dram, After(cfg.dram, cfg.channel, issued), x.cmd, x.addr, x.clk)
  {
    IssuesExtend(cfg.dram, issued, x);
    assert Front(issued + [x]) == issued && Last(issued + [x]) == x;
  }

  lemma IssuesExtend(spec: Spec, issued: seq<Issue>, x: Issue)
    requires IssuesOk(spec, issued) && 0 <= x.clk && (issued != [] ==> Last(issued).clk <= x.clk)
    requires x.cmd < spec.commands && AddrOk(spec, x.addr)
    ensures IssuesOk(spec, issued + [x])
  {
    forall i | 0 <= i < |issued| ensures issued[i].clk <= x.clk {
      assert i < |issued| - 1 ==> issued[i].clk <= issued[|issued| - 1].clk;
    }
  }

  /** What is left of the request: it stays queued, waits for data, or is gone. */
  function Kept(cfg: Config, clk: int, r: Request, cmd: nat): seq<Request> {
    var started := r.(first := false);
    if cmd != r.target then [started]
    else if r.kind.Read? then [started.(depart := clk + cfg.latency)]
    else []
  }

  lemma TotalWithout(s: State, w: Which, i: nat, f: Request -> nat)
    requires i < |Queue(s, w)|
    ensures Total(SetQueue(s, w, Without(Queue(s, w), i)), f) + f(Queue(s, w)[i]) == Total(s, f)
  {
    SumWithout(Queue(s, w), i, f);
    TotalSetQueue(s, w, Without(Queue(s, w), i), f);
  }

  lemma PromotedTotal(s: State, w: Which, i: nat, r: Request, f: Request -> nat)
    requires i < |Queue(s, w)|
    ensures Total(Promoted(s, w, i, r), f) + f(Queue(s, w)[i]) == Total(s, f) + f(r)
  {
    var t := SetQueue(s, w, Without(Queue(s, w), i));
    TotalWithout(s, w, i, f);
    TotalSetQueue(t, InAct, t.actq + [r], f);
    SumAppend(t.actq, r, f);
  }

  lemma UpdatedTotal(s: State, w: Which, i: nat, r: Request, f: Request -> nat)
    requires i < |Queue(s, w)|
    ensures Total(SetQueue(s, w, Queue(s, w)[i := r]), f) + f(Queue(s, w)[i]) == Total(s, f) + f(r)
  {
    SumUpdate(Queue(s, w), i, r, f);
    TotalSetQueue(s, w, Queue(s, w)[i := r], f);
  }

  lemma PendingTotal(s: State, r: Request, f: Request -> nat)
    ensures Total(s.(pending := s.pending + [r]), f) == Total(s, f) + f(r)
  {
    SumAppend(s.pending, r, f);
  }

  lemma KeptSum(cfg: Config, clk: int, r: Request, cmd: nat, f: Request -> nat)
    ensures Sum(Kept(cfg, clk, r, cmd), f) ==
      if cmd != r.target then f(r.(first := false))
      else if r.kind.Read? then f(r.(first := false, depart := clk + cfg.latency))
      else 0
  {
    SumAppend([], r.(first := false), f);
    SumAppend([], r.(first := false, depart := clk + cfg.latency), f);
  }

  lemma MovedTotal(cfg: Config, s: State, w: Which, i: nat, cmd: nat, f: Request -> nat)
    requires i < |Queue(s, w)| && cmd < |cfg.opening|
    ensures var r := Queue(s, w)[i];
      Total(Moved(cfg, s, w, i, cmd), f) + f(r) == Total(s, f) + Sum(Kept(cfg, s.clk, r, cmd), f)
  {
    var r := Queue(s, w)[i];
    KeptSum(cfg, s.clk, r, cmd, f);
    if cmd != r.target {
      if cfg.opening[cmd] {
        PromotedTotal(s, w, i, r.(first := false), f);
      } else {
        UpdatedTotal(s, w, i, r.(first := false), f);
      }
    } else {
      TotalWithout(s, w, i, f);
      PendingTotal(SetQueue(s, w, Without(Queue(s, w), i)), r.(first := false, depart := s.clk + cfg.latency), f);
    }
  }

  lemma MovedFrame(cfg: Config, s: State, w: Which, i: nat, cmd: nat)
    requires i < |Queue(s, w)| && cmd < |cfg.opening|
    ensures var t := Moved(cfg, s, w, i, cmd);
      var r := Queue(s, w)[i];
      && t.clk == s.clk && t.accepted == s.accepted && t.called == s.called && t.writeMode == s.writeMode
      && t.channel == s.channel && t.issued == s.issued
      && t.retired == if Retires(r, cmd) then s.retired + [r.id] else s.retired
  {
  }

  lemma MovedConserved(cfg: Config, s: State, w: Which, i: nat, cmd: nat)
    requires Conserved(s) && i < |Queue(s, w)| && cmd < |cfg.opening|
    ensures Conserved(Moved(cfg, s, w, i, cmd))
  {
    var t := Moved(cfg, s, w, i, cmd);
    var r := Queue(s, w)[i];
    MovedFrame(cfg, s, w, i, cmd);
    forall id: nat
      ensures Total(t, HasId(id)) + multiset(t.called)[id] + multiset(t.retired)[id] == if id < t.accepted then 1 else 0
    {
      MovedTotal(cfg, s, w, i, cmd, HasId(id));
      KeptSum(cfg, s.clk, r, cmd, HasId(id));
      assert Total(s, HasId(id)) + multiset(s.called)[id] + multiset(s.retired)[id] == if id < s.accepted then 1 else 0;
    }
  }

  /** The counters follow: a request enters service with its first command and leaves it with the
      last command of a write. */
  lemma IssuedServed(cfg: Config, s: State, w: Which, i: nat, cmd: nat, channel: Tree)
    requires Served(cfg, s) && i < |Queue(s, w)| && cmd < |cfg.opening|
    requires ServesMore(cfg, s.channel, channel, Queue(s, w)[i].vec, Change(Queue(s, w)[i], cmd))
    ensures Served(cfg, Moved(cfg, s, w, i, cmd).(channel := channel))
  {
    var t := Moved(cfg, s, w, i, cmd);
    var r := Queue(s, w)[i];
    forall path | |path| <= cfg.dram.bank && HasPath(channel, path)
      ensures At(channel, path).serving == Total(t.(channel := channel), InService(path))
    {
      MovedTotal(cfg, s, w, i, cmd, InService(path));
      KeptServed(cfg, s.clk, r, cmd, path);
      assert Total(t.(channel := channel), InService(path)) == Total(t, InService(path));
      assert At(s.channel, path).serving == Total(s, InService(path));
    }
  }

  lemma KeptServed(cfg: Config, clk: int, r: Request, cmd: nat, path: seq<int>)
    ensures Sum(Kept(cfg, clk, r, cmd), InService(path))
         == InService(path)(r) + (if Passes(0, path, r.vec) then Change(r, cmd) else 0)
  {
    KeptSum(cfg, clk, r, cmd, InService(path));
  }

  lemma MovedQueues(cfg: Config, s: State, w: Which, i: nat, cmd: nat, arrived: int)
    requires ConfigOk(cfg) && QueuesOk(cfg, s, arrived) && i < |Queue(s, w)| && cmd < cfg.dram.commands
    requires arrived < s.clk
    ensures QueuesOk(cfg, Moved(cfg, s, w, i, cmd), arrived)
  {
    var q := Queue(s, w);
    var started := q[i].(first := false);
    assert QueueIn(cfg, w, q, arrived) && Belongs(cfg, w, q[i], arrived);
    assert Belongs(cfg, w, started, arrived) && Belongs(cfg, InAct, started, arrived);
    var t := SetQueue(s, w, Without(q, i));
    SetQueueOk(cfg, s, w, Without(q, i), arrived);
    if cmd != q[i].target {
      if cfg.opening[cmd] {
        SetQueueOk(cfg, t, InAct, t.actq + [started], arrived);
      } else {
        SetQueueOk(cfg, s, w, q[i := started], arrived);
      }
    } else if q[i].kind.Read? {
      assert Waits(cfg, started.(depart := s.clk + cfg.latency));
    }
  }

  /** Issuing a command that passes its check keeps everything. */
  lemma IssuedKeeps(cfg: Config, s: State, w: Which, i: nat, cmd: nat, arrived: int)
    requires Inv(cfg, s, arrived) && arrived < s.clk && i < |Queue(s, w)| && cmd < cfg.dram.commands
    requires VecOk(cfg, Queue(s, w)[i].vec) && Leads(cfg.dram, s.channel, Queue(s, w)[i].vec)
    requires Check(cfg.dram, s.channel, cmd, Queue(s, w)[i].vec, s.clk)
    ensures Inv(cfg, Issued(cfg, s, w, i, cmd), arrived)
  {
    var r := Queue(s, w)[i];
    var channel := ChannelAfter(cfg, s.channel, r, cmd, s.clk);
    IssuedChannel(cfg, s.channel, r, cmd, s.clk);
    MovedFrame(cfg, s, w, i, cmd);
    MovedQueues(cfg, s, w, i, cmd, arrived);
    MovedConserved(cfg, s, w, i, cmd);
    IssuedServed(cfg, s, w, i, cmd, channel);
    TimedExtends(cfg, s.clk, s.channel, s.issued, cmd, r.vec, channel);
    SetChannel(cfg, Moved(cfg, s, w, i, cmd), channel, s.issued + [Issue(cmd, r.vec, s.clk)], arrived);
  }

  lemma SetChannel(cfg: Config, s: State, channel: Tree, issued: seq<Issue>, arrived: int)
    requires ConfigOk(cfg) && QueuesOk(cfg, s, arrived) && Conserved(s)
    requires ChannelOk(cfg, channel) && Served(cfg, s.(channel := channel)) && Timed(cfg, s.clk, channel, issued)
    ensures Inv(cfg, s.(channel := channel, issued := issued), arrived)
  {
    var t := s.(channel := channel, issued := issued);
    assert Conserved(t) by {
      forall id: nat ensures
        Total(t, HasId(id)) + multiset(t.called)[id] + multiset(t.retired)[id] == if id < t.accepted then 1 else 0
      {
        assert Total(s, HasId(id)) + multiset(s.called)[id] + multiset(s.retired)[id]
            == if id < s.accepted then 1 else 0;
      }
    }
    assert Served(cfg, t) by {
      forall path | |path| <= cfg.dram.bank && HasPath(channel, path)
        ensures At(channel, path).serving == Total(t, InService(path))
      {
        assert At(channel, path).serving == Total(s.(channel := channel), InService(path));
      }
    }
  }

  // ----- One clock ------------------------------------------------------------------------------------------------

  lemma SpeculatedKeeps(cfg: Config, s: State, o: Oracle, arrived: int)
    requires Inv(cfg, s, arrived) && Ready(cfg, s) && OracleOk(cfg, o)
    ensures Inv(cfg, Speculated(cfg, s, o), arrived)
  {
    if o.speculate && Check(cfg.dram, s.channel, cfg.precharge, o.victim, s.clk) {
      var channel := Update(cfg.dram, s.channel, cfg.precharge, o.victim, s.clk);
      UpdateChannelOk(cfg, s.channel, cfg.precharge, o.victim, s.clk);
      BareUpdate(cfg.dram, s.channel, cfg.precharge, o.victim, s.clk);
      TimedExtends(cfg, s.clk, s.channel, s.issued, cfg.precharge, o.victim, channel);
      UpdateServesSame(cfg, s.channel, cfg.precharge, o.victim, s.clk);
      ChannelServed(cfg, s, channel, o.victim);
      SetChannel(cfg, s, channel, s.issued + [Issue(cfg.precharge, o.victim, s.clk)], arrived);
    }
  }

  lemma ChannelServed(cfg: Config, s: State, channel: Tree, addr: seq<int>)
    requires Served(cfg, s) && ServesMore(cfg, s.channel, channel, addr, 0)
    ensures Served(cfg, s.(channel := channel))
  {
    forall path | |path| <= cfg.dram.bank && HasPath(channel, path)
      ensures At(channel, path).serving == Total(s.(channel := channel), InService(path))
    {
      assert At(s.channel, path).serving == Total(s, InService(path));
    }
  }

  lemma QueuesReady(cfg: Config, s: State, arrived: int)
    requires ConfigOk(cfg) && ChannelOk(cfg, s.channel) && QueuesOk(cfg, s, arrived)
    ensures Ready(cfg, s)
  {
    forall q: seq<Request>, w | QueueIn(cfg, w, q, arrived) ensures QueueOk(cfg, q) {
      assert forall i :: 0 <= i < |q| ==> Belongs(cfg, w, q[i], arrived);
    }
  }

  lemma PickKeeps(cfg: Config, s: State, w: Which, i: nat, cmd: nat, arrived: int)
    requires Inv(cfg, s, arrived) && arrived < s.clk && Ready(cfg, s) && cmd < cfg.dram.commands
    requires CanIssue(cfg, s, w, i, cmd)
    ensures RequestOk(cfg, Queue(s, w)[i])
    ensures Inv(cfg, Issued(cfg, s, w, i, cmd), arrived) && Issued(cfg, s, w, i, cmd).clk == s.clk
  {
    assert RequestOk(cfg, Queue(s, w)[i]);
    IssuedKeeps(cfg, s, w, i, cmd, arrived);
    MovedFrame(cfg, s, w, i, cmd);
  }

  lemma ScheduleKeeps(cfg: Config, s: State, o: Oracle, arrived: int)
    requires Inv(cfg, s, arrived) && arrived < s.clk && Ready(cfg, s) && OracleOk(cfg, o)
    ensures Inv(cfg, Schedule(cfg, s, o), arrived) && Schedule(cfg, s, o).clk == s.clk
  {
    var m := MainQueue(s);
    if CanIssue(cfg, s, InAct, o.actPick, o.actCmd) {
      PickKeeps(cfg, s, InAct, o.actPick, o.actCmd, arrived);
    } else if CanIssue(cfg, s, m, o.mainPick, o.mainCmd) {
      PickKeeps(cfg, s, m, o.mainPick, o.mainCmd, arrived);
    } else {
      SpeculatedKeeps(cfg, s, o, arrived);
    }
  }

  lemma ClockKeeps(cfg: Config, s: State, arrived: int, clk: int, mode: bool)
    requires Inv(cfg, s, arrived) && s.clk <= clk
    ensures Inv(cfg, s.(clk := clk, writeMode := mode), arrived)
  {
    var t := s.(clk := clk, writeMode := mode);
    SameServed(cfg, s, t);
    assert Conserved(t) by {
      forall id: nat ensures
        Total(t, HasId(id)) + multiset(t.called)[id] + multiset(t.retired)[id] == if id < t.accepted then 1 else 0
      {
        assert Total(s, HasId(id)) + multiset(s.called)[id] + multiset(s.retired)[id]
            == if id < s.accepted then 1 else 0;
      }
    }
  }

  lemma ArrivedLater(cfg: Config, s: State, arrived: int, later: int)
    requires Inv(cfg, s, arrived) && arrived <= later
    ensures Inv(cfg, s, later)
  {
    forall w, q: seq<Request> | QueueIn(cfg, w, q, arrived) ensures QueueIn(cfg, w, q, later) {
      forall i | 0 <= i < |q| ensures Belongs(cfg, w, q[i], later) {
        assert Belongs(cfg, w, q[i], arrived);
      }
    }
  }

  lemma ClockForward(cfg: Config, s: State)
    requires Inv(cfg, s, s.clk)
    ensures Inv(cfg, s.(clk := s.clk + 1), s.clk)
  {
    ClockKeeps(cfg, s, s.clk, s.clk + 1, s.writeMode);
    assert s.(clk := s.clk + 1) == s.(clk := s.clk + 1, writeMode := s.writeMode);
  }

  lemma PendingOk(cfg: Config, s: State, arrived: int)
    requires Inv(cfg, s, arrived)
    ensures s.pending != [] ==> VecOk(cfg, s.pending[0].vec) && Leads(cfg.dram, s.channel, s.pending[0].vec)
  {
    if s.pending != [] {
      PendingHead(cfg, s, arrived);
    }
  }

  /** The clock advances and a due read is called back; `t` is the state this leads to. */
  lemma CompletePhase(cfg: Config, s: State, t: State)
    requires Inv(cfg, s, s.clk)
    requires s.pending != [] ==> VecOk(cfg, s.pending[0].vec) && Leads(cfg.dram, s.channel, s.pending[0].vec)
    requires t == Complete(cfg, s.(clk := s.clk + 1))
    ensures Inv(cfg, t, s.clk) && t.clk == s.clk + 1
  {
    ClockForward(cfg, s);
    CompleteKeeps(cfg, s.(clk := s.clk + 1), s.clk);
  }

  /** The refreshes that are due come in; `u` is the state this leads to. */
  lemma RefreshPhase(cfg: Config, s: State, o: Oracle, arrived: int, u: State)
    requires Inv(cfg, s, arrived) && OracleOk(cfg, o) && u == Refresh(s, o.refresh)
    ensures Inv(cfg, u, arrived) && u.clk == s.clk
  {
    RefreshKeeps(cfg, s, o.refresh, arrived);
  }

  lemma IssuePhase(cfg: Config, u: State, o: Oracle, arrived: int)
    requires Inv(cfg, u, arrived) && arrived < u.clk && OracleOk(cfg, o)
    ensures var v := SwitchMode(cfg, u);
      Ready(cfg, v) && Inv(cfg, Schedule(cfg, v, o), u.clk) && Schedule(cfg, v, o).clk == u.clk
  {
    var v := SwitchMode(cfg, u);
    ClockKeeps(cfg, u, arrived, u.clk, v.writeMode);
    assert v == u.(clk := u.clk, writeMode := v.writeMode);
    QueuesReady(cfg, v, arrived);
    ScheduleKeeps(cfg, v, o, arrived);
    ArrivedLater(cfg, Schedule(cfg, v, o), arrived, v.clk);
  }

  /** One clock: call back a due read, let the refreshes in, choose the mode, issue a command. */
  ghost function Tick(cfg: Config, s: State, o: Oracle): (t: State)
    requires Inv(cfg, s, s.clk) && OracleOk(cfg, o)
    ensures Inv(cfg, t, t.clk) && t.clk == s.clk + 1
  {
    PendingOk(cfg, s, s.clk);
    var t := Complete(cfg, s.(clk := s.clk + 1));
    CompletePhase(cfg, s, t);
    var u := Refresh(t, o.refresh);
    RefreshPhase(cfg, t, o, s.clk, u);
    IssuePhase(cfg, u, o, s.clk);
    Schedule(cfg, SwitchMode(cfg, u), o)
  }

  lemma TickReady(cfg: Config, s: State, o: Oracle, t: State, u: State)
    requires Inv(cfg, s, s.clk) && OracleOk(cfg, o)
    requires s.pending != [] ==> VecOk(cfg, s.pending[0].vec) && Leads(cfg.dram, s.channel, s.pending[0].vec)
    requires t == Complete(cfg, s.(clk := s.clk + 1))
    requires u == Refresh(t, o.refresh)
    ensures Ready(cfg, SwitchMode(cfg, u))
  {
    CompletePhase(cfg, s, t);
    RefreshPhase(cfg, t, o, s.clk, u);
    IssuePhase(cfg, u, o, s.clk);
  }

  /** The clock in its four phases. */
  lemma TickUnfolds(cfg: Config, s: State, o: Oracle, t: State, u: State, v: State)
    requires Inv(cfg, s, s.clk) && OracleOk(cfg, o)
    requires s.pending != [] ==> VecOk(cfg, s.pending[0].vec) && Leads(cfg.dram, s.channel, s.pending[0].vec)
    requires t == Complete(cfg, s.(clk := s.clk + 1))
    requires u == Refresh(t, o.refresh)
    requires v == SwitchMode(cfg, u)
    requires Ready(cfg, v)
    ensures Tick(cfg, s, o) == Schedule(cfg, v, o)
  {
  }

  // ----- Runs ------------------------------------------------------------------------------------------------------

  datatype Event =
    | Arrive(kind: Kind, addr: int, vec: seq<int>, target: nat)
    | Clock(o: Oracle)

  predicate EventOk(cfg: Config, e: Event)
    requires ConfigOk(cfg)
  {
    match e
    case Arrive(_, _, vec, target) => VecOk(cfg, vec) && target < cfg.dram.commands
    case Clock(o) => OracleOk(cfg, o)
  }

  predicate EventsOk(cfg: Config, es: seq<Event>)
    requires ConfigOk(cfg)
  {
    forall i :: 0 <= i < |es| ==> EventOk(cfg, es[i])
  }

  function Start(cfg: Config): State
    requires ConfigOk(cfg)
  {
    State(0, [], [], [], [], [], false, Fresh(cfg), 0, [], [], [])
  }

  lemma StartInv(cfg: Config)
    requires ConfigOk(cfg)
    ensures Inv(cfg, Start(cfg), 0)
  {
    BareNew(cfg.dram, 0, cfg.channel);
    forall path | |path| <= cfg.dram.bank && HasPath(Fresh(cfg), path)
      ensures At(Fresh(cfg), path).serving == Total(Start(cfg), InService(path))
    {
      NewTreeServing(cfg.dram, 0, cfg.channel, path);
    }
  }

  /** Where a run of arrivals and clocks ends, whatever the oracles choose. */
  ghost function StateAfter(cfg: Config, es: seq<Event>): (s: State)
    requires ConfigOk(cfg) && EventsOk(cfg, es)
    ensures Inv(cfg, s, s.clk)
  {
    if es == [] then StartInv(cfg); Start(cfg)
    else
      var s := StateAfter(cfg, es[..|es| - 1]);
      match es[|es| - 1]
      case Arrive(kind, addr, vec, target) =>
        EnqueueKeeps(cfg, s, kind, addr, vec, target, s.clk);
        Enqueue(s, kind, addr, vec, target)
      case Clock(o) => Tick(cfg, s, o)
  }

  /** In how many places an accepted request is. */
  function Places(s: State, id: nat): nat {
    Total(s, HasId(id)) + multiset(s.called)[id] + multiset(s.retired)[id]
  }

  /** No accepted request is lost or duplicated: each is in one queue or completed once, and in
      particular no read is called back twice. The read and write queues never exceed their maximum. */
  lemma NothingLost(cfg: Config, es: seq<Event>, id: nat)
    requires ConfigOk(cfg) && EventsOk(cfg, es)
    ensures var s := StateAfter(cfg, es);
      && (Places(s, id) == if id < s.accepted then 1 else 0)
      && multiset(s.called)[id] <= 1
      && |s.readq| <= QUEUE_MAX && |s.writeq| <= QUEUE_MAX
  {
    var s := StateAfter(cfg, es);
    assert Conserved(s);
  }

  /** At every node down to the bank the counter is the number of unfinished reads and writes
      through it that have started, so it is never negative. */
  lemma ServingCounts(cfg: Config, es: seq<Event>, path: seq<int>)
    requires ConfigOk(cfg) && EventsOk(cfg, es)
    requires |path| <= cfg.dram.bank && HasPath(StateAfter(cfg, es).channel, path)
    ensures var s := StateAfter(cfg, es);
      0 <= At(s.channel, path).serving == Total(s, InService(path))
  {
    assert Served(cfg, StateAfter(cfg, es));
  }

  /** The whole controller never violates a timing constraint: every command it issued meets, at
      every node in its scope, all constraints from the commands issued before. */
  lemma ControllerTiming(cfg: Config, es: seq<Event>, i: nat, path: seq<int>)
    requires ConfigOk(cfg) && EventsOk(cfg, es) && i < |StateAfter(cfg, es).issued|
    ensures var run := StateAfter(cfg, es).issued;
      && IssuesOk(cfg.dram, run[..i]) && run[i].cmd < cfg.dram.commands && AddrOk(cfg.dram, run[i].addr)
      && (Visited(cfg.dram, After(cfg.dram, cfg.channel, run[..i]), run[i].cmd, run[i].addr, path) ==>
            |path| < cfg.dram.levels && Allowed(cfg.dram, cfg.channel, path, run[..i], run[i].cmd, run[i].clk))
  {
    var s := StateAfter(cfg, es);
    assert Timed(cfg, s.clk, s.channel, s.issued);
    NoConstraintViolated(cfg.dram, cfg.channel, s.issued, i, path);
  }
}
