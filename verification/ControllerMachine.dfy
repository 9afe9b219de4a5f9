/** The controller over the linked timing tree, updated in place. */
module ControllerMachine {
  import opened DramTree
  import opened DramTiming
  import opened DramNodes
  import opened Controller
  import opened ControllerInvariants

  class RequestController {
    const cfg: Config
    const channel: DramNode

    var clk: int
    var readq: seq<Request>
    var writeq: seq<Request>
    var actq: seq<Request>
    var otherq: seq<Request>
    var pending: seq<Request>
    var writeMode: bool

    var accepted: nat // serial number of the next request
    ghost var called: seq<nat>
    ghost var retired: seq<nat>
    ghost var issued: seq<Issue>

    ghost predicate Linked()
      reads this, channel.repr
    {
      channel.Valid() && channel.spec == cfg.dram
    }

    ghost function View(): State
      requires channel.Linked()
      reads this, channel.repr
    {
      State(clk, readq, writeq, actq, otherq, pending, writeMode, channel.View(),
            accepted, called, retired, issued)
    }

    ghost predicate Valid()
      reads this, channel.repr
    {
      Linked() && Inv(cfg, View(), clk)
    }

    constructor (cfg: Config)
      requires ConfigOk(cfg)
      ensures this.cfg == cfg && fresh(channel.repr)
      ensures Valid() && View() == Start(cfg)
    {
      this.cfg := cfg;
      channel := new DramNode(cfg.dram, 0, cfg.channel);
      clk, writeMode := 0, false;
      readq, writeq, actq, otherq, pending := [], [], [], [], [];
      accepted, called, retired, issued := 0, [], [], [];
      new;
      assert View() == Start(cfg);
      StartInv(cfg);
    }

    /** Whether a write to the address is waiting. */
    method FindWrite(addr: int) returns (found: bool)
      requires Linked()
      ensures found <==> Forwards(View(), addr)
    {
      for i := 0 to |writeq|
        invariant forall j :: 0 <= j < i ==> writeq[j].addr != addr
      {
        if writeq[i].addr == addr {
          return true;
        }
      }
      return false;
    }

    method Accept(kind: Kind, addr: int, vec: seq<int>, target: nat) returns (ok: bool)
      requires Linked()
      modifies this`readq, this`writeq, this`otherq, this`pending, this`accepted
      ensures Linked() && View() == Enqueue(old(View()), kind, addr, vec, target)
      ensures ok <==> |Queue(old(View()), QueueOf(kind))| != QUEUE_MAX
    {
      var q := match kind case Read => readq case Write => writeq case Other => otherq;
      if QUEUE_MAX == |q| {
        return false;
      }
      var r := Request(accepted, kind, addr, vec, target, true, clk, -1);
      var forwarded := false;
      if kind.Read? {
        forwarded := FindWrite(addr);
      }
      accepted := accepted + 1;
      match kind {
        case Read =>
          if forwarded {
            pending := pending + [r.(depart := clk + 1)];
          } else {
            readq := readq + [r];
          }
        case Write => writeq := writeq + [r];
        case Other => otherq := otherq + [r];
      }
      return true;
    }

    method CallBack()
      requires Linked() && ConfigOk(cfg)
      requires pending != [] ==> AddrOk(cfg.dram, pending[0].vec) && Leads(cfg.dram, channel.View(), pending[0].vec)
      modifies this`pending, this`called, channel.repr
      ensures Linked() && View() == Complete(cfg, old(View()))
    {
      if |pending| > 0 {
        var r := pending[0];
        if r.depart <= clk {
          if r.depart - r.arrive > 1 {
            channel.UpdateServing(r.vec, -1);
          }
          called := called + [r.id];
          pending := pending[1..];
        }
      }
    }

    method LetRefreshesIn(due: seq<(seq<int>, nat)>)
      requires Linked()
      modifies this`readq, this`writeq, this`otherq, this`pending, this`accepted
      ensures Linked() && View() == Refresh(old(View()), due)
    {
      for i := 0 to |due|
        invariant Linked() && View() == Refresh(old(View()), due[..i])
      {
        assert due[..i + 1][..i] == due[..i];
        var _ := Accept(Other, -1, due[i].0, due[i].1);
      }
      assert due[..|due|] == due;
    }

    method ChooseMode()
      requires Linked()
      modifies this`writeMode
      ensures Linked() && View() == SwitchMode(cfg, old(View()))
    {
      if !writeMode {
        if |writeq| > cfg.high || |readq| == 0 {
          writeMode := true;
        }
      } else {
        if |writeq| < cfg.low && |readq| != 0 {
          writeMode := false;
        }
      }
    }

    method Put(w: Which, q: seq<Request>)
      requires Linked()
      modifies this`readq, this`writeq, this`actq, this`otherq
      ensures Linked() && View() == SetQueue(old(View()), w, q)
    {
      match w {
        case InRead => readq := q;
        case InWrite => writeq := q;
        case InAct => actq := q;
        case InOther => otherq := q;
      }
    }

    function Get(w: Which): seq<Request>
      reads this
    {
      match w
      case InRead => readq
      case InWrite => writeq
      case InAct => actq
      case InOther => otherq
    }

    /** Issues `cmd`, whose readiness was checked, for request `i` of queue `w`. */
    method IssueFor(w: Which, i: nat, cmd: nat)
      requires Linked() && ConfigOk(cfg) && ChannelOk(cfg, channel.View()) && i < |Get(w)| && cmd < cfg.dram.commands
      requires VecOk(cfg, Get(w)[i].vec)
      modifies this`readq, this`writeq, this`actq, this`otherq, this`pending, this`retired, this`issued, channel.repr
      ensures Linked() && View() == Issued(cfg, old(View()), w, i, cmd)
    {
      var r := Get(w)[i];
      Move(w, i, cmd);
      ServeAndSend(r, cmd);
      issued := issued + [Issue(cmd, r.vec, clk)];
    }

    /** The channel's part of an issue. */
    method ServeAndSend(r: Request, cmd: nat)
      requires Linked() && ConfigOk(cfg) && ChannelOk(cfg, channel.View())
      requires VecOk(cfg, r.vec) && cmd < cfg.dram.commands
      modifies channel.repr
      ensures Linked() && channel.View() == ChannelAfter(cfg, old(channel.View()), r, cmd, clk)
    {
      ghost var t := channel.View();
      ServeLeads(cfg.dram, t, r.vec, 1, r.vec);
      if r.first && (r.kind.Read? || r.kind.Write?) {
        channel.UpdateServing(r.vec, 1);
      }
      ghost var served := channel.View();
      UpdateLeads(cfg.dram, served, cmd, r.vec, clk, r.vec);
      channel.Update(cmd, r.vec, clk);
      if cmd == r.target && r.kind.Write? {
        channel.UpdateServing(r.vec, -1);
      }
    }

    /** The queues' part of an issue. */
    method Move(w: Which, i: nat, cmd: nat)
      requires Linked() && i < |Get(w)| && cmd < |cfg.opening|
      modifies this`readq, this`writeq, this`actq, this`otherq, this`pending, this`retired
      ensures Linked() && View() == Moved(cfg, old(View()), w, i, cmd)
    {
      var q := Get(w);
      var r := q[i].(first := false);
      var rest := Without(q, i);
      if cmd != r.target {
        if cfg.opening[cmd] {
          Put(w, rest);
          actq := actq + [r];
        } else {
          Put(w, q[i := r]);
        }
        return;
      }
      if r.kind.Read? {
        pending := pending + [r.(depart := clk + cfg.latency)];
      } else {
        retired := retired + [r.id];
      }
      Put(w, rest);
    }

    /** Finds a command that may be issued now and issues it. */
    method IssueOne(o: Oracle)
      requires Linked() && ConfigOk(cfg) && Controller.Ready(cfg, View()) && OracleOk(cfg, o)
      modifies this`readq, this`writeq, this`actq, this`otherq, this`pending, this`retired, this`issued, channel.repr
      ensures Linked() && View() == Schedule(cfg, old(View()), o)
    {
      var w := InAct;
      var i := o.actPick;
      var cmd := o.actCmd;
      var valid := IsReady(w, i, cmd);
      if !valid {
        w := if |otherq| > 0 then InOther else if !writeMode then InRead else InWrite;
        i, cmd := o.mainPick, o.mainCmd;
        valid := IsReady(w, i, cmd);
      }
      if !valid {
        if o.speculate {
          var ready := channel.Ready(cfg.precharge, o.victim, clk);
          if ready {
            channel.Update(cfg.precharge, o.victim, clk);
            issued := issued + [Issue(cfg.precharge, o.victim, clk)];
          }
        }
        return;
      }
      assert RequestOk(cfg, Get(w)[i]);
      IssueFor(w, i, cmd);
    }

    method IsReady(w: Which, i: nat, cmd: nat) returns (ready: bool)
      requires Linked() && ConfigOk(cfg) && Controller.Ready(cfg, View()) && cmd < cfg.dram.commands
      ensures ready <==> CanIssue(cfg, View(), w, i, cmd)
    {
      var q := Get(w);
      ready := i < |q|;
      if ready {
        assert RequestOk(cfg, q[i]);
        ready := channel.Ready(cmd, q[i].vec, clk);
      }
    }

    method BeginClock(o: Oracle, ghost s: State, ghost t: State)
      requires Linked() && ConfigOk(cfg) && s == View()
      requires s.pending != [] ==> AddrOk(cfg.dram, s.pending[0].vec) && Leads(cfg.dram, s.channel, s.pending[0].vec)
      requires t == Complete(cfg, s.(clk := s.clk + 1))
      modifies this`clk, this`readq, this`writeq, this`otherq, this`pending, this`accepted, this`called, channel.repr
      ensures Linked() && View() == Refresh(t, o.refresh)
    {
      clk := clk + 1;
      assert View() == s.(clk := s.clk + 1);
      CallBack();
      LetRefreshesIn(o.refresh);
    }

    method EndClock(o: Oracle)
      requires Linked() && ConfigOk(cfg) && OracleOk(cfg, o) && Controller.Ready(cfg, SwitchMode(cfg, View()))
      modifies this, channel.repr
      ensures Linked() && View() == Schedule(cfg, SwitchMode(cfg, old(View())), o)
    {
      ChooseMode();
      IssueOne(o);
    }

    /** One clock. */
    method Tick(o: Oracle)
      requires Valid() && OracleOk(cfg, o)
      modifies this, channel.repr
      ensures Valid() && View() == ControllerInvariants.Tick(cfg, old(View()), o)
    {
      ghost var s := View();
      PendingOk(cfg, s, s.clk);
      ghost var t := Complete(cfg, s.(clk := s.clk + 1));
      BeginClock(o, s, t);
      TickReady(cfg, s, o, t, View());
      TickUnfolds(cfg, s, o, t, View(), SwitchMode(cfg, View()));
      EndClock(o);
    }
  }
}
