/** The DRAM request controller: four request queues, the reads waiting for data, and the timing
    tree below them. Scheduler, command decoding, refresh and row policy are oracles. */
module Controller {
  import opened DramTree
  import opened DramTiming

  const QUEUE_MAX: nat := 32

  datatype Kind = Read | Write | Other

  /** `id` numbers the accepted requests; `target` is the command that completes the request. */
  datatype Request = Request(id: nat, kind: Kind, addr: int, vec: seq<int>, target: nat,
                             first: bool, arrive: int, depart: int)

  /** `high` and `low` are the write-mode watermarks in requests. */
  datatype Config = Config(dram: Spec, channel: int, latency: int, high: nat, low: nat,
                           opening: seq<bool>, precharge: nat)

  /** `accepted`, `called`, `retired` and `issued` record history: how many requests were accepted,
      which reads were called back, which other requests were completed, which commands were issued. */
  datatype State = State(clk: int, readq: seq<Request>, writeq: seq<Request>, actq: seq<Request>,
                         otherq: seq<Request>, pending: seq<Request>, writeMode: bool, channel: Tree,
                         accepted: nat, called: seq<nat>, retired: seq<nat>, issued: seq<Issue>)

  datatype Which = InRead | InWrite | InAct | InOther

  function Queue(s: State, w: Which): seq<Request> {
    match w
    case InRead => s.readq
    case InWrite => s.writeq
    case InAct => s.actq
    case InOther => s.otherq
  }

  function SetQueue(s: State, w: Which, q: seq<Request>): State {
    match w
    case InRead => s.(readq := q)
    case InWrite => s.(writeq := q)
    case InAct => s.(actq := q)
    case InOther => s.(otherq := q)
  }

  function QueueOf(k: Kind): Which {
    match k
    case Read => InRead
    case Write => InWrite
    case Other => InOther
  }

  function Without<T>(q: seq<T>, i: nat): seq<T>
    requires i < |q|
  {
    q[..i] + q[i + 1..]
  }

  // ----- Well-formed parameters -----------------------------------------------------------------

  predicate ConfigOk(cfg: Config) {
    && SpecOk(cfg.dram) && 0 < cfg.dram.levels
    && 1 <= cfg.latency && |cfg.opening| == cfg.dram.commands && cfg.precharge < cfg.dram.commands
  }

  function Fresh(cfg: Config): (t: Tree)
    requires ConfigOk(cfg)
    ensures Shape(cfg.dram, t)
  {
    NewTreeShape(cfg.dram, 0, cfg.channel);
    NewTree(cfg.dram, 0, cfg.channel)
  }

  /** The address belongs to the channel and leads to existing nodes. */
  predicate VecOk(cfg: Config, vec: seq<int>)
    requires ConfigOk(cfg)
  {
    AddrOk(cfg.dram, vec) && vec[0] == cfg.channel && Leads(cfg.dram, Fresh(cfg), vec)
  }

  ghost predicate ChannelOk(cfg: Config, t: Tree)
    requires ConfigOk(cfg)
  {
    && Shape(cfg.dram, t) && t.id == cfg.channel && t.level == 0
    && forall vec :: AddrOk(cfg.dram, vec) ==> (Leads(cfg.dram, t, vec) <==> Leads(cfg.dram, Fresh(cfg), vec))
  }

  predicate RequestOk(cfg: Config, r: Request)
    requires ConfigOk(cfg)
  {
    VecOk(cfg, r.vec) && r.target < cfg.dram.commands
  }

  predicate QueueOk(cfg: Config, q: seq<Request>)
    requires ConfigOk(cfg)
  {
    forall i :: 0 <= i < |q| ==> RequestOk(cfg, q[i])
  }

  ghost predicate Ready(cfg: Config, s: State)
    requires ConfigOk(cfg)
  {
    && ChannelOk(cfg, s.channel)
    && QueueOk(cfg, s.readq) && QueueOk(cfg, s.writeq) && QueueOk(cfg, s.actq)
    && QueueOk(cfg, s.otherq) && QueueOk(cfg, s.pending)
  }

  // ----- Accepting a request -----------------------------------------------------------------------

  /** A write to the address is waiting. */
  predicate Forwards(s: State, addr: int) {
    exists i :: 0 <= i < |s.writeq| && s.writeq[i].addr == addr
  }

  function Enqueue(s: State, kind: Kind, addr: int, vec: seq<int>, target: nat): State {
    var q := Queue(s, QueueOf(kind));
    if |q| == QUEUE_MAX then s
    else
      var r := Request(s.accepted, kind, addr, vec, target, true, s.clk, -1);
      var t := s.(accepted := s.accepted + 1);
      if kind.Read? && Forwards(s, addr) then t.(pending := s.pending + [r.(depart := s.clk + 1)])
      else SetQueue(t, QueueOf(kind), q + [r])
  }

  // ----- One clock -----------------------------------------------------------------------------------

  /** What the parts that are not modelled decide in a clock: the refreshes that come due, the
      request the scheduler picks from a queue (an index behind the end for none), the first
      command of that request, and a row to close when nothing else can be issued. */
  datatype Oracle = Oracle(refresh: seq<(seq<int>, nat)>, actPick: nat, actCmd: nat,
                           mainPick: nat, mainCmd: nat, speculate: bool, victim: seq<int>)

  predicate OracleOk(cfg: Config, o: Oracle)
    requires ConfigOk(cfg)
  {
    && o.actCmd < cfg.dram.commands && o.mainCmd < cfg.dram.commands
    && (o.speculate ==> VecOk(cfg, o.victim))
    && forall i :: 0 <= i < |o.refresh| ==> VecOk(cfg, o.refresh[i].0) && o.refresh[i].1 < cfg.dram.commands
  }

  /** The oldest read that waits for data is called back once its clock has come; a read that was
      forwarded from a waiting write was never in service. */
  function Complete(cfg: Config, s: State): State
    requires ConfigOk(cfg) && Shape(cfg.dram, s.channel)
    requires s.pending != [] ==> AddrOk(cfg.dram, s.pending[0].vec) && Leads(cfg.dram, s.channel, s.pending[0].vec)
  {
    if s.pending == [] || s.pending[0].depart > s.clk then s
    else
      var r := s.pending[0];
      var t := s.(pending := s.pending[1..], called := s.called + [r.id]);
      if r.depart - r.arrive > 1 then t.(channel := Serve(cfg.dram, s.channel, r.vec, -1)) else t
  }

  function Refresh(s: State, due: seq<(seq<int>, nat)>): State {
    if due == [] then s
    else
      var n := |due| - 1;
      Enqueue(Refresh(s, due[..n]), Other, -1, due[n].0, due[n].1)
  }

  function SwitchMode(cfg: Config, s: State): State {
    if !s.writeMode then
      if |s.writeq| > cfg.high || |s.readq| == 0 then s.(writeMode := true) else s
    else
      if |s.writeq| < cfg.low && |s.readq| != 0 then s.(writeMode := false) else s
  }

  function Counts(r: Request): bool {
    r.kind.Read? || r.kind.Write?
  }

  /** The command completes a request that is not a read. */
  predicate Retires(r: Request, cmd: nat) {
    cmd == r.target && !r.kind.Read?
  }

  /** The channel after `cmd` has been issued for the request: the first command of a read or
      write puts it in service, the last command of a write takes it out again. */
  function ChannelAfter(cfg: Config, t: Tree, r: Request, cmd: nat, clk: int): Tree
    requires ConfigOk(cfg) && ChannelOk(cfg, t) && VecOk(cfg, r.vec) && cmd < cfg.dram.commands
  {
    ServeShape(cfg.dram, t, r.vec, 1);
    var served := if r.first && Counts(r) then Serve(cfg.dram, t, r.vec, 1) else t;
    UpdateShape(cfg.dram, served, cmd, r.vec, clk);
    ServeLeads(cfg.dram, t, r.vec, 1, r.vec);
    UpdateLeads(cfg.dram, served, cmd, r.vec, clk, r.vec);
    var sent := Update(cfg.dram, served, cmd, r.vec, clk);
    if Retires(r, cmd) && r.kind.Write? then Serve(cfg.dram, sent, r.vec, -1) else sent
  }

  /** Where request `i` of queue `w` goes when `cmd` has been issued for it. */
  function Moved(cfg: Config, s: State, w: Which, i: nat, cmd: nat): State
    requires i < |Queue(s, w)| && cmd < |cfg.opening|
  {
    var q := Queue(s, w);
    var started := q[i].(first := false);
    if cmd != q[i].target then
      if cfg.opening[cmd] then Promoted(s, w, i, started) else SetQueue(s, w, q[i := started])
    else
      var t := SetQueue(s, w, Without(q, i));
      if q[i].kind.Read? then t.(pending := t.pending + [started.(depart := s.clk + cfg.latency)])
      else t.(retired := t.retired + [q[i].id])
  }

  /** A request whose row is being opened moves to the queue of activated requests. */
  function Promoted(s: State, w: Which, i: nat, r: Request): State
    requires i < |Queue(s, w)|
  {
    if w.InAct? then s.(actq := Without(s.actq, i) + [r])
    else
      var t := SetQueue(s, w, Without(Queue(s, w), i));
      t.(actq := t.actq + [r])
  }

  /** Issues `cmd` for request `i` of queue `w`. */
  function Issued(cfg: Config, s: State, w: Which, i: nat, cmd: nat): State
    requires ConfigOk(cfg) && ChannelOk(cfg, s.channel) && cmd < cfg.dram.commands
    requires i < |Queue(s, w)| && VecOk(cfg, Queue(s, w)[i].vec)
  {
    var r := Queue(s, w)[i];
    Moved(cfg, s, w, i, cmd).(channel := ChannelAfter(cfg, s.channel, r, cmd, s.clk),
                              issued := s.issued + [Issue(cmd, r.vec, s.clk)])
  }

  /** The scheduler picked a request and its first command is ready. */
  predicate CanIssue(cfg: Config, s: State, w: Which, i: nat, cmd: nat)
    requires ConfigOk(cfg) && Ready(cfg, s) && cmd < cfg.dram.commands
  {
    i < |Queue(s, w)| &&
    (assert RequestOk(cfg, Queue(s, w)[i]);
     Check(cfg.dram, s.channel, cmd, Queue(s, w)[i].vec, s.clk))
  }

  function MainQueue(s: State): Which {
    if s.otherq != [] then InOther else if s.writeMode then InWrite else InRead
  }

  /** Closes a row speculatively. */
  function Speculated(cfg: Config, s: State, o: Oracle): State
    requires ConfigOk(cfg) && Ready(cfg, s) && OracleOk(cfg, o)
  {
    if o.speculate && Check(cfg.dram, s.channel, cfg.precharge, o.victim, s.clk) then
      s.(channel := Update(cfg.dram, s.channel, cfg.precharge, o.victim, s.clk),
         issued := s.issued + [Issue(cfg.precharge, o.victim, s.clk)])
    else s
  }

  function Schedule(cfg: Config, s: State, o: Oracle): State
    requires ConfigOk(cfg) && Ready(cfg, s) && OracleOk(cfg, o)
  {
    if CanIssue(cfg, s, InAct, o.actPick, o.actCmd) then
      assert RequestOk(cfg, s.actq[o.actPick]);
      Issued(cfg, s, InAct, o.actPick, o.actCmd)
    else
      var w := MainQueue(s);
      if CanIssue(cfg, s, w, o.mainPick, o.mainCmd) then
        assert RequestOk(cfg, Queue(s, w)[o.mainPick]);
        Issued(cfg, s, w, o.mainPick, o.mainCmd)
      else Speculated(cfg, s, o)
  }

  // ----- Sums over the queues -----------------------------------------------------------------------------

  function Sum(q: seq<Request>, f: Request -> nat): nat {
    if q == [] then 0 else Sum(q[..|q| - 1], f) + f(q[|q| - 1])
  }

  function Total(s: State, f: Request -> nat): nat {
    Sum(s.readq, f) + Sum(s.writeq, f) + Sum(s.actq, f) + Sum(s.otherq, f) + Sum(s.pending, f)
  }

  lemma SumAppend(q: seq<Request>, r: Request, f: Request -> nat)
    ensures Sum(q + [r], f) == Sum(q, f) + f(r)
  {
    assert (q + [r])[..|q|] == q;
  }

  lemma {:induction false} SumUpdate(q: seq<Request>, i: nat, r: Request, f: Request -> nat)
    requires i < |q|
    ensures Sum(q[i := r], f) + f(q[i]) == Sum(q, f) + f(r)
  {
    var n := |q| - 1;
    if i == n {
      assert q[i := r][..n] == q[..n];
    } else {
      assert q[i := r][..n] == q[..n][i := r];
      SumUpdate(q[..n], i, r, f);
    }
  }

  lemma {:induction false} SumWithout(q: seq<Request>, i: nat, f: Request -> nat)
    requires i < |q|
    ensures Sum(Without(q, i), f) + f(q[i]) == Sum(q, f)
  {
    var n := |q| - 1;
    if i == n {
      assert Without(q, i) == q[..n];
    } else {
      assert Without(q, i)[..n - 1] == Without(q[..n], i);
      SumWithout(q[..n], i, f);
    }
  }

  lemma SumPop(q: seq<Request>, f: Request -> nat)
    requires q != []
    ensures Sum(q[1..], f) + f(q[0]) == Sum(q, f)
  {
    assert Without(q, 0) == q[1..];
    SumWithout(q, 0, f);
  }

  lemma TotalSetQueue(s: State, w: Which, q: seq<Request>, f: Request -> nat)
    ensures Total(SetQueue(s, w, q), f) + Sum(Queue(s, w), f) == Total(s, f) + Sum(q, f)
  {
  }
}
