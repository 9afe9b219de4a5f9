/** When the controller writes. The mode of a run is told by the queues that its clocks found, whatever
    the scheduler and the other oracles chose in between. */
module ControllerMode {
  import opened Controller
  import opened ControllerInvariants

  // ----- What a clock finds -----------------------------------------------------------------------

  /** The state in which the clock chooses the mode. */
  ghost function Found(cfg: Config, s: State, o: Oracle): (u: State)
    requires Inv(cfg, s, s.clk) && OracleOk(cfg, o)
    ensures u.writeMode == s.writeMode
    ensures Tick(cfg, s, o).writeMode == SwitchMode(cfg, u).writeMode
  {
    PendingOk(cfg, s, s.clk);
    var t := Complete(cfg, s.(clk := s.clk + 1));
    var u := Refresh(t, o.refresh);
    RefreshMode(t, o.refresh);
    TickReady(cfg, s, o, t, u);
    TickUnfolds(cfg, s, o, t, u, SwitchMode(cfg, u));
    ScheduleMode(cfg, SwitchMode(cfg, u), o);
    u
  }

  lemma {:induction false} RefreshMode(s: State, due: seq<(seq<int>, nat)>)
    ensures Refresh(s, due).writeMode == s.writeMode
  {
    if due != [] { RefreshMode(s, due[..|due| - 1]); }
  }

  lemma IssuedMode(cfg: Config, s: State, w: Which, i: nat, cmd: nat)
    requires ConfigOk(cfg) && ChannelOk(cfg, s.channel) && cmd < cfg.dram.commands
    requires i < |Queue(s, w)| && VecOk(cfg, Queue(s, w)[i].vec)
    ensures Issued(cfg, s, w, i, cmd).writeMode == s.writeMode
  {
  }

  lemma ScheduleMode(cfg: Config, s: State, o: Oracle)
    requires ConfigOk(cfg) && Ready(cfg, s) && OracleOk(cfg, o)
    ensures Schedule(cfg, s, o).writeMode == s.writeMode
  {
    var w := MainQueue(s);
    if CanIssue(cfg, s, InAct, o.actPick, o.actCmd) {
      IssuedMode(cfg, s, InAct, o.actPick, o.actCmd);
    } else if CanIssue(cfg, s, w, o.mainPick, o.mainCmd) {
      IssuedMode(cfg, s, w, o.mainPick, o.mainCmd);
    }
  }

  /** The states the clocks of a run found, oldest first. */
  ghost function Clocks(cfg: Config, es: seq<Event>): seq<State>
    requires ConfigOk(cfg) && EventsOk(cfg, es)
  {
    if es == [] then []
    else
      var rest := Clocks(cfg, es[..|es| - 1]);
      match es[|es| - 1]
      case Arrive(_, _, _, _) => rest
      case Clock(o) => rest + [Found(cfg, StateAfter(cfg, es[..|es| - 1]), o)]
  }

  // ----- The mode -----------------------------------------------------------------------------------

  /** The writes are above the high watermark, or no read waits. */
  predicate CallsForWrites(cfg: Config, s: State) {
    |s.writeq| > cfg.high || s.readq == []
  }

  /** The writes are below the low watermark, and a read waits. */
  predicate CallsForReads(cfg: Config, s: State) {
    |s.writeq| < cfg.low && s.readq != []
  }

  /** Exactly one of the two is called for. */
  predicate Settles(cfg: Config, s: State) {
    CallsForWrites(cfg, s) != CallsForReads(cfg, s)
  }

  /** After how many clocks the last of them settled the mode, zero when none did. */
  function Settled(cfg: Config, clocks: seq<State>): (k: nat)
    ensures k <= |clocks| && (k > 0 ==> Settles(cfg, clocks[k - 1]))
    ensures forall i :: k <= i < |clocks| ==> !Settles(cfg, clocks[i])
  {
    if clocks == [] then 0
    else if Settles(cfg, clocks[|clocks| - 1]) then |clocks|
    else Settled(cfg, clocks[..|clocks| - 1])
  }

  /** How many clocks found both called for, which happens with watermarks that overlap. */
  function Contests(cfg: Config, clocks: seq<State>): nat {
    if clocks == [] then 0
    else
      var s := clocks[|clocks| - 1];
      Contests(cfg, clocks[..|clocks| - 1]) + (if CallsForWrites(cfg, s) && CallsForReads(cfg, s) then 1 else 0)
  }

  /** What the last clock to settle the mode called for, reads when there is none, changed once by
      every contested clock since. */
  predicate Writing(cfg: Config, clocks: seq<State>) {
    var k := Settled(cfg, clocks);
    (k > 0 && CallsForWrites(cfg, clocks[k - 1])) == (Contests(cfg, clocks[k..]) % 2 == 0)
  }

  lemma WritingNext(cfg: Config, clocks: seq<State>, s: State)
    ensures Writing(cfg, clocks + [s])
         == if Writing(cfg, clocks) then !CallsForReads(cfg, s) else CallsForWrites(cfg, s)
  {
    var next := clocks + [s];
    assert next[..|clocks|] == clocks;
    if Settles(cfg, s) {
      assert next[|next|..] == [];
    } else {
      var k := Settled(cfg, clocks);
      assert Settled(cfg, next) == k;
      assert next[k..] == clocks[k..] + [s] && next[k..][..|clocks| - k] == clocks[k..];
    }
  }

  lemma ClockMode(cfg: Config, s: State, o: Oracle) returns (u: State)
    requires Inv(cfg, s, s.clk) && OracleOk(cfg, o)
    ensures u == Found(cfg, s, o) && u.writeMode == s.writeMode
    ensures Tick(cfg, s, o).writeMode == if s.writeMode then !CallsForReads(cfg, u) else CallsForWrites(cfg, u)
  {
    u := Found(cfg, s, o);
  }

  lemma ArriveMode(s: State, kind: Kind, addr: int, vec: seq<int>, target: nat)
    ensures Enqueue(s, kind, addr, vec, target).writeMode == s.writeMode
  {
  }

  /** Over any run the mode is the one the last clock to settle it called for, changed once by every
      clock since that found both called for. */
  lemma {:induction false} ModeExact(cfg: Config, es: seq<Event>)
    requires ConfigOk(cfg) && EventsOk(cfg, es)
    ensures StateAfter(cfg, es).writeMode == Writing(cfg, Clocks(cfg, es))
  {
    if es != [] {
      var rest := es[..|es| - 1];
      ModeExact(cfg, rest);
      var s := StateAfter(cfg, rest);
      match es[|es| - 1]
      case Arrive(kind, addr, vec, target) => ArriveMode(s, kind, addr, vec, target);
      case Clock(o) =>
        var u := ClockMode(cfg, s, o);
        WritingNext(cfg, Clocks(cfg, rest), u);
    }
  }

  // ----- Watermarks that leave a band ------------------------------------------------------------------

  /** Some clock called for writes and none has called for reads since. */
  ghost predicate Called(cfg: Config, clocks: seq<State>) {
    exists k :: 0 <= k < |clocks| && CallsForWrites(cfg, clocks[k])
      && forall i :: k < i < |clocks| ==> !CallsForReads(cfg, clocks[i])
  }

  lemma CalledBefore(cfg: Config, clocks: seq<State>, s: State)
    requires Called(cfg, clocks + [s]) && !CallsForWrites(cfg, s)
    ensures Called(cfg, clocks) && !CallsForReads(cfg, s)
  {
    var next, n := clocks + [s], |clocks|;
    var k :| 0 <= k < |next| && CallsForWrites(cfg, next[k])
      && forall i :: k < i < |next| ==> !CallsForReads(cfg, next[i]);
    assert next[n] == s;
    assert CallsForWrites(cfg, clocks[k]);
    assert forall i :: k < i < n ==> next[i] == clocks[i];
  }

  lemma CalledNext(cfg: Config, clocks: seq<State>, s: State)
    ensures Called(cfg, clocks + [s]) <==>
      CallsForWrites(cfg, s) || (Called(cfg, clocks) && !CallsForReads(cfg, s))
  {
    var next, n := clocks + [s], |clocks|;
    if CallsForWrites(cfg, s) {
      assert CallsForWrites(cfg, next[n]);
    } else {
      if Called(cfg, clocks) && !CallsForReads(cfg, s) {
        var k :| 0 <= k < n && CallsForWrites(cfg, clocks[k])
          && forall i :: k < i < n ==> !CallsForReads(cfg, clocks[i]);
        assert CallsForWrites(cfg, next[k]);
      }
      if Called(cfg, next) { CalledBefore(cfg, clocks, s); }
    }
  }

  lemma {:induction false} InBand(cfg: Config, clocks: seq<State>)
    requires cfg.low <= cfg.high + 1
    ensures Writing(cfg, clocks) <==> Called(cfg, clocks)
  {
    if clocks != [] {
      var front, s := clocks[..|clocks| - 1], clocks[|clocks| - 1];
      InBand(cfg, front);
      assert clocks == front + [s];
      WritingNext(cfg, front, s);
      CalledNext(cfg, front, s);
    }
  }

  /** With a low watermark at most one above the high one, the controller is in write mode exactly when
      some clock found the writes above the high watermark or no read waiting, and no later clock
      found them below the low watermark with a read waiting. */
  lemma BandExact(cfg: Config, es: seq<Event>)
    requires ConfigOk(cfg) && EventsOk(cfg, es) && cfg.low <= cfg.high + 1
    ensures StateAfter(cfg, es).writeMode <==> Called(cfg, Clocks(cfg, es))
  {
    ModeExact(cfg, es);
    InBand(cfg, Clocks(cfg, es));
  }
}
