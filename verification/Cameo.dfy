/** CAMEO's line location table. */
module Cameo {

  const COUNTER_MAX: nat := 255
  const QUEUE_LENGTH: nat := 64

  /** One line of fast memory is shared by the lines at the same place of every memory-sized
      segment, its congruence group. The group's entry says which member is where: slot `i` holds
      the location of member `i`; location 0 is fast memory. */
  type Entry = seq<nat>

  /** Hardware lines to exchange, and the slots that name them. */
  datatype Request = Request(fmLine: nat, smLine: nat, fm: nat, sm: nat)

  /** `fast` groups of `members` lines each; entries have room for `slots` members. */
  datatype State = State(fast: nat, members: nat, slots: nat, threshold: nat, entries: seq<Entry>,
                         counter: seq<nat>, hot: seq<bool>, queue: seq<Request>, congestion: nat)

  datatype Outcome = Running(state: State) | Stopped

  /** Total capacity is a multiple of fast capacity, with at most one member per slot. */
  predicate Sized(s: State) {
    && 0 < s.fast == |s.entries| && 1 <= s.members <= s.slots <= 64
    && |s.counter| == |s.hot| == s.fast * s.members
    && forall g :: 0 <= g < s.fast ==> |s.entries[g]| == s.slots
  }

  function Identity(n: nat): (e: Entry)
    ensures |e| == n && forall i :: 0 <= i < n ==> e[i] == i
  {
    seq(n, i requires 0 <= i => i)
  }

  function Initial(fast: nat, members: nat, slots: nat, threshold: nat): State {
    State(fast, members, slots, threshold, seq(fast, g => Identity(slots)),
          seq(fast * members, b => 0), seq(fast * members, b => false), [], 0)
  }

  // ----- Places -------------------------------------------------------------------------------------

  function Group(s: State, line: nat): (g: nat)
    requires Sized(s)
    ensures g < s.fast
  {
    line % s.fast
  }

  function Member(s: State, line: nat): nat
    requires Sized(s)
  {
    line / s.fast
  }

  function LineAt(s: State, location: nat, group: nat): nat {
    location * s.fast + group
  }

  lemma MulGrows(n: nat, a: nat, b: nat)
    requires a <= b
    ensures n * a <= n * b
  {
  }

  lemma Parts(n: nat, q: nat, r: nat)
    requires r < n
    ensures (q * n + r) / n == q && (q * n + r) % n == r
  {
    var x := q * n + r;
    var d := x / n;
    assert x == n * d + x % n;
    if d < q {
      MulGrows(n, d + 1, q);
    } else if d > q {
      MulGrows(n, q + 1, d);
    }
  }

  lemma LineParts(s: State, location: nat, group: nat)
    requires Sized(s) && group < s.fast
    ensures Group(s, LineAt(s, location, group)) == group
    ensures Member(s, LineAt(s, location, group)) == location
    ensures LineAt(s, location, group) < s.fast * s.members <==> location < s.members
  {
    Parts(s.fast, location, group);
    if location < s.members {
      MulGrows(s.fast, location + 1, s.members);
    } else {
      MulGrows(s.fast, s.members, location);
    }
  }

  lemma LineWhole(s: State, line: nat)
    requires Sized(s)
    ensures LineAt(s, Member(s, line), Group(s, line)) == line
    ensures line < s.fast * s.members <==> Member(s, line) < s.members
  {
    assert line == s.fast * (line / s.fast) + line % s.fast;
    LineParts(s, Member(s, line), Group(s, line));
  }

  /** Where a physical line is kept. */
  function Translate(s: State, line: nat): nat
    requires Sized(s) && line < |s.counter|
  {
    LineWhole(s, line);
    LineAt(s, s.entries[Group(s, line)][Member(s, line)], Group(s, line))
  }

  // ----- Tracking --------------------------------------------------------------------------------------

  /** The first slot that holds location 0, or the number of slots. */
  function FindZero(e: Entry, i: nat): (k: nat)
    requires i <= |e|
    ensures i <= k <= |e| && (k < |e| ==> e[k] == 0) && forall j :: i <= j < k ==> e[j] != 0
    decreases |e| - i
  {
    if i == |e| || e[i] == 0 then i else FindZero(e, i + 1)
  }

  predicate GroupQueued(s: State, group: nat)
    requires Sized(s)
  {
    exists k :: 0 <= k < |s.queue| && Group(s, s.queue[k].fmLine) == group
  }

  function Enqueued(s: State, r: Request): Outcome
    requires Sized(s)
  {
    if GroupQueued(s, Group(s, r.fmLine)) then Running(s)
    else if |s.queue| >= QUEUE_LENGTH then Running(s.(congestion := s.congestion + 1))
    else if r.fmLine == r.smLine then Stopped
    else Running(s.(queue := s.queue + [r]))
  }

  /** The counter saturates; a line stays hot once its counter has reached the threshold. */
  function Counted(s: State, line: nat): (t: State)
    requires Sized(s) && line < |s.counter|
    ensures Sized(t) && t == s.(counter := t.counter, hot := t.hot)
  {
    var c := if s.counter[line] < COUNTER_MAX then s.counter[line] + 1 else s.counter[line];
    s.(counter := s.counter[line := c], hot := s.hot[line := s.hot[line] || c >= s.threshold])
  }

  function Tracked(s: State, line: nat, busy: bool): Outcome
    requires Sized(s)
  {
    if line >= |s.counter| then Running(s)
    else if Member(s, line) >= s.slots then Stopped
    else
      var g := Group(s, line);
      var e := s.entries[g];
      var location := e[Member(s, line)];
      var t := Counted(s, line);
      if !t.hot[line] || location == 0 then Running(t)
      else
        var k := FindZero(e, 0);
        if k == |e| || e[k] == location then Stopped
        else if busy then Running(t)
        else Enqueued(t, Request(LineAt(s, e[k], g), LineAt(s, location, g), k, Member(s, line)))
  }

  // ----- Finishing ---------------------------------------------------------------------------------------

  function Swapped(e: Entry, i: nat, j: nat): Entry
    requires i < |e| && j < |e|
  {
    e[j := e[i]][i := e[j]]
  }

  /** The sum of the first `n` locations in eight bits. */
  function WrapSum(e: Entry, n: nat): nat
    requires n <= |e|
  {
    if n == 0 then 0 else (WrapSum(e, n - 1) + e[n - 1]) % 256
  }

  function Finished(s: State): Outcome
    requires Sized(s)
  {
    if s.queue == [] then Stopped
    else
      var r := s.queue[0];
      var g := Group(s, r.fmLine);
      var e := s.entries[g];
      if r.fm >= s.slots || r.sm >= s.slots || e[r.fm] == e[r.sm] then Stopped
      else
        var f := Swapped(e, r.fm, r.sm);
        if WrapSum(f, s.slots) != WrapSum(Identity(s.slots), s.slots) then Stopped
        else Running(s.(queue := s.queue[1..], entries := s.entries[g := f]))
  }

  // ----- What is kept -----------------------------------------------------------------------------------------

  function Sum(e: Entry, n: nat): nat
    requires n <= |e|
  {
    if n == 0 then 0 else Sum(e, n - 1) + e[n - 1]
  }

  /** The entry is a permutation that leaves slots without a member alone. */
  predicate EntryOk(e: Entry, slots: nat, members: nat) {
    && |e| == slots
    && (forall i :: 0 <= i < slots ==> e[i] < slots)
    && (forall i, j :: 0 <= i < j < slots ==> e[i] != e[j])
    && (forall v :: 0 <= v < slots ==> v in e)
    && (forall i :: members <= i < slots ==> e[i] == i)
    && Sum(e, slots) == Sum(Identity(slots), slots)
  }

  /** The request still describes its group: slot `fm` names the fast line, slot `sm` the slow line. */
  predicate RequestOk(s: State, r: Request)
    requires Sized(s)
  {
    var g := Group(s, r.fmLine);
    && r.fm < s.members && r.sm < s.members && r.fm != r.sm
    && s.entries[g][r.fm] == 0 && r.fmLine == LineAt(s, 0, g)
    && r.smLine == LineAt(s, s.entries[g][r.sm], g)
  }

  predicate GroupsDistinct(s: State)
    requires Sized(s)
  {
    forall i, j :: 0 <= i < j < |s.queue| ==> Group(s, s.queue[i].fmLine) != Group(s, s.queue[j].fmLine)
  }

  predicate Inv(s: State) {
    && Sized(s)
    && (forall g :: 0 <= g < s.fast ==> EntryOk(s.entries[g], s.slots, s.members))
    && (forall k :: 0 <= k < |s.queue| ==> RequestOk(s, s.queue[k]))
    && GroupsDistinct(s) && |s.queue| <= QUEUE_LENGTH
    && forall b :: 0 <= b < |s.counter| ==> s.counter[b] <= COUNTER_MAX
  }

  lemma InitialKeeps(fast: nat, members: nat, slots: nat, threshold: nat)
    requires 0 < fast && 1 <= members <= slots <= 64
    ensures Inv(Initial(fast, members, slots, threshold))
  {
    var s := Initial(fast, members, slots, threshold);
    var e := Identity(slots);
    forall v | 0 <= v < slots ensures v in e { assert e[v] == v; }
    assert EntryOk(e, slots, members);
  }

  /** Members in use stay among themselves. */
  lemma MembersStay(e: Entry, slots: nat, members: nat, i: nat)
    requires EntryOk(e, slots, members) && i < members <= slots
    ensures e[i] < members
  {
    var displaced := e[e[i]];
  }

  lemma ZeroFound(e: Entry, slots: nat, members: nat)
    requires EntryOk(e, slots, members) && 1 <= members <= slots
    ensures FindZero(e, 0) < members && e[FindZero(e, 0)] == 0
  {
    assert 0 in e;
    var k :| 0 <= k < slots && e[k] == 0;
  }

  lemma {:induction false} SumSet(e: Entry, i: nat, v: nat, n: nat)
    requires i < |e| && n <= |e|
    ensures Sum(e[i := v], n) == if i < n then Sum(e, n) - e[i] + v else Sum(e, n)
  {
    if n > 0 { SumSet(e, i, v, n - 1); }
  }

  lemma WrapStep(a: nat, b: nat)
    ensures (a % 256 + b) % 256 == (a + b) % 256
  {
    assert a == 256 * (a / 256) + a % 256;
  }

  lemma {:induction false} WrapSumExact(e: Entry, n: nat)
    requires n <= |e|
    ensures WrapSum(e, n) == Sum(e, n) % 256
  {
    if n > 0 {
      WrapSumExact(e, n - 1);
      WrapStep(Sum(e, n - 1), e[n - 1]);
    }
  }

  lemma SwappedKeeps(e: Entry, slots: nat, members: nat, i: nat, j: nat)
    requires EntryOk(e, slots, members) && i < members && j < members <= slots && i != j
    ensures EntryOk(Swapped(e, i, j), slots, members)
    ensures WrapSum(Swapped(e, i, j), slots) == WrapSum(Identity(slots), slots)
  {
    var f := Swapped(e, i, j);
    SumSet(e, j, e[i], slots);
    SumSet(e[j := e[i]], i, e[j], slots);
    WrapSumExact(f, slots);
    WrapSumExact(Identity(slots), slots);
    forall v | 0 <= v < slots ensures v in f {
      assert v in e;
      var k :| 0 <= k < slots && e[k] == v;
      assert f[if k == i then j else if k == j then i else k] == v;
    }
  }

  lemma EnqueuedKeeps(s: State, r: Request)
    requires Inv(s) && RequestOk(s, r) && r.fmLine != r.smLine
    ensures Enqueued(s, r).Running? && Inv(Enqueued(s, r).state)
  {
    var t := Enqueued(s, r).state;
    forall k | 0 <= k < |t.queue| ensures RequestOk(t, t.queue[k]) {
      assert k < |s.queue| ==> RequestOk(s, s.queue[k]);
    }
  }

  lemma CountedKeeps(s: State, line: nat)
    requires Inv(s) && line < |s.counter|
    ensures Inv(Counted(s, line))
  {
    var t := Counted(s, line);
    forall k | 0 <= k < |t.queue| ensures RequestOk(t, t.queue[k]) { assert RequestOk(s, s.queue[k]); }
  }

  /** Tracking an access never meets an error exit. */
  lemma TrackedKeeps(s: State, line: nat, busy: bool)
    requires Inv(s)
    ensures Tracked(s, line, busy).Running? && Inv(Tracked(s, line, busy).state)
  {
    if line < |s.counter| {
      LineWhole(s, line);
      var g := Group(s, line);
      var e := s.entries[g];
      assert EntryOk(e, s.slots, s.members);
      ZeroFound(e, s.slots, s.members);
      var location := e[Member(s, line)];
      var k := FindZero(e, 0);
      CountedKeeps(s, line);
      if location != 0 {
        LineParts(s, 0, g);
        LineParts(s, location, g);
        var r := Request(LineAt(s, 0, g), LineAt(s, location, g), k, Member(s, line));
        assert RequestOk(Counted(s, line), r);
        EnqueuedKeeps(Counted(s, line), r);
      }
    }
  }

  /** Finishing never meets an error exit: the slot of the fast line still holds location 0, and the
      sum check passes. */
  lemma FinishedKeeps(s: State)
    requires Inv(s) && s.queue != []
    ensures Finished(s).Running? && Inv(Finished(s).state)
    ensures s.entries[Group(s, s.queue[0].fmLine)][s.queue[0].fm] == 0
    ensures Finished(s).state.entries[Group(s, s.queue[0].fmLine)][s.queue[0].sm] == 0
  {
    var r := s.queue[0];
    var g := Group(s, r.fmLine);
    assert RequestOk(s, r) && EntryOk(s.entries[g], s.slots, s.members);
    SwappedKeeps(s.entries[g], s.slots, s.members, r.fm, r.sm);
    var t := Finished(s).state;
    forall k | 0 <= k < |t.queue| ensures RequestOk(t, t.queue[k]) {
      assert t.queue[k] == s.queue[k + 1] && RequestOk(s, s.queue[k + 1]);
    }
  }

  // ----- Translation --------------------------------------------------------------------------------------------

  /** Translation is a bijection of the lines of total capacity onto themselves that keeps groups. */
  lemma TranslateUnique(s: State, a: nat, b: nat)
    requires Inv(s) && a < |s.counter| && b < |s.counter|
    ensures Translate(s, a) < |s.counter| && Group(s, Translate(s, a)) == Group(s, a)
    ensures Translate(s, a) == Translate(s, b) <==> a == b
  {
    LineWhole(s, a);
    LineWhole(s, b);
    var e, f := s.entries[Group(s, a)], s.entries[Group(s, b)];
    assert EntryOk(e, s.slots, s.members) && EntryOk(f, s.slots, s.members);
    MembersStay(e, s.slots, s.members, Member(s, a));
    LineParts(s, e[Member(s, a)], Group(s, a));
    LineParts(s, f[Member(s, b)], Group(s, b));
  }

  lemma TranslateOnto(s: State, h: nat)
    requires Inv(s) && h < |s.counter|
    ensures exists b: nat :: b < |s.counter| && Translate(s, b) == h
  {
    LineWhole(s, h);
    var g := Group(s, h);
    var e := s.entries[g];
    assert EntryOk(e, s.slots, s.members);
    assert Member(s, h) in e;
    var i :| 0 <= i < s.slots && e[i] == Member(s, h);
    LineParts(s, i, g);
    assert i < s.members;
    assert Translate(s, LineAt(s, i, g)) == h;
  }

  lemma FastPlace(s: State, location: nat, group: nat)
    requires Sized(s) && group < s.fast
    ensures LineAt(s, location, group) < s.fast <==> location == 0
    ensures LineAt(s, 0, group) == group
  {
    if location > 0 { MulGrows(s.fast, 1, location); }
  }

  /** What an access may queue: the exchange of the line's place with the group's fast line. */
  function Wanted(s: State, line: nat): Request
    requires Inv(s) && line < |s.counter|
  {
    LineWhole(s, line);
    Request(Group(s, line), Translate(s, line), FindZero(s.entries[Group(s, line)], 0), Member(s, line))
  }

  /** `n` accesses in a counter of eight bits that saturates. */
  function Saturated(n: nat): nat {
    if n < 255 then n else 255
  }

  /** An access queues its exchange if and only if the line was hot or this access brings it to the
      threshold, it is kept in slow memory, the queue has room and is not busy, and no request for the
      line's group waits. */
  lemma TrackedExact(s: State, line: nat, busy: bool)
    requires Inv(s) && line < |s.counter|
    ensures var heated := s.hot[line] || Saturated(s.counter[line] + 1) >= s.threshold;
      var joins := heated && Translate(s, line) >= s.fast && !busy
                   && !GroupQueued(s, Group(s, line)) && |s.queue| < QUEUE_LENGTH;
      Tracked(s, line, busy).Running?
      && Tracked(s, line, busy).state.queue == if joins then s.queue + [Wanted(s, line)] else s.queue
  {
    LineWhole(s, line);
    var g := Group(s, line);
    var e := s.entries[g];
    assert EntryOk(e, s.slots, s.members);
    ZeroFound(e, s.slots, s.members);
    var location := e[Member(s, line)];
    FastPlace(s, location, g);
    var t := Counted(s, line);
    if t.hot[line] && location != 0 && !busy {
      LineParts(s, 0, g);
      EnqueuedExact(s, t, Wanted(s, line));
    }
  }

  lemma EnqueuedExact(s: State, t: State, r: Request)
    requires Sized(s) && Sized(t) && t.queue == s.queue && t.fast == s.fast && r.fmLine != r.smLine
    ensures Enqueued(t, r).Running?
    ensures Enqueued(t, r).state.queue
      == if !GroupQueued(s, Group(s, r.fmLine)) && |s.queue| < QUEUE_LENGTH then s.queue + [r] else s.queue
  {
    assert forall k :: 0 <= k < |s.queue| ==> Group(s, s.queue[k].fmLine) == Group(t, t.queue[k].fmLine);
  }

  function Exchange(a: nat, b: nat, h: nat): nat {
    if h == a then b else if h == b then a else h
  }

  /** Finishing changes translation by exactly the exchange of the two hardware lines the request
      names, so exchanging their contents leaves every physical line with its value. */
  lemma FinishedExact(s: State, line: nat)
    requires Inv(s) && s.queue != [] && line < |s.counter|
    ensures Finished(s).Running? && Sized(Finished(s).state)
    ensures Translate(Finished(s).state, line)
         == Exchange(s.queue[0].fmLine, s.queue[0].smLine, Translate(s, line))
  {
    FinishedKeeps(s);
    var r := s.queue[0];
    var g := Group(s, r.fmLine);
    assert RequestOk(s, r) && EntryOk(s.entries[g], s.slots, s.members);
    LineWhole(s, line);
    var h, m := Group(s, line), Member(s, line);
    var from, to := s.entries[h][m], Finished(s).state.entries[h][m];
    assert to == if h != g then from else Swapped(s.entries[g], r.fm, r.sm)[m];
    ExchangeAt(s, 0, s.entries[g][r.sm], g, from, h, to);
  }

  /** An exchange of two lines of a group, told by their locations. */
  lemma ExchangeAt(s: State, a: nat, b: nat, g: nat, from: nat, h: nat, to: nat)
    requires Sized(s) && g < s.fast && h < s.fast
    requires to == if h == g && from == a then b else if h == g && from == b then a else from
    ensures LineAt(s, to, h) == Exchange(LineAt(s, a, g), LineAt(s, b, g), LineAt(s, from, h))
  {
    LineParts(s, from, h);
    LineParts(s, a, g);
    LineParts(s, b, g);
  }

  // ----- Runs ------------------------------------------------------------------------------------------------------

  datatype Event = Access(line: nat, busy: bool) | Complete

  function Step(s: State, e: Event): (t: State)
    requires Inv(s)
    ensures Inv(t) && t.fast == s.fast && t.members == s.members && t.slots == s.slots
  {
    match e
    case Access(line, busy) =>
      TrackedKeeps(s, line, busy);
      Tracked(s, line, busy).state
    case Complete =>
      if s.queue == [] then s
      else
        FinishedKeeps(s);
        Finished(s).state
  }

  ghost function StateAfter(s: State, events: seq<Event>): (t: State)
    requires Inv(s)
    ensures Inv(t) && t.fast == s.fast && t.members == s.members && t.slots == s.slots
    decreases |events|
  {
    if events == [] then s else StateAfter(Step(s, events[0]), events[1..])
  }

  /** Memory contents after an event: a completion exchanges the lines of its request. */
  function MemoryStep(s: State, e: Event, mem: nat -> int): nat -> int {
    if e.Complete? && s.queue != [] then (h: nat) => mem(Exchange(s.queue[0].fmLine, s.queue[0].smLine, h)) else mem
  }

  ghost function MemoryAfter(s: State, events: seq<Event>, mem: nat -> int): nat -> int
    requires Inv(s)
    decreases |events|
  {
    if events == [] then mem else MemoryAfter(Step(s, events[0]), events[1..], MemoryStep(s, events[0], mem))
  }

  /** Over whole runs of accesses and completions every physical line keeps showing its value. */
  lemma {:induction false} RunKeepsValues(s: State, events: seq<Event>, mem: nat -> int, line: nat)
    requires Inv(s) && line < |s.counter|
    ensures line < |StateAfter(s, events).counter|
    ensures MemoryAfter(s, events, mem)(Translate(StateAfter(s, events), line)) == mem(Translate(s, line))
    decreases |events|
  {
    if events != [] {
      ValueStep(s, events[0], mem, line);
      RunKeepsValues(Step(s, events[0]), events[1..], MemoryStep(s, events[0], mem), line);
    }
  }

  lemma ValueStep(s: State, e: Event, mem: nat -> int, line: nat)
    requires Inv(s) && line < |s.counter|
    ensures line < |Step(s, e).counter|
    ensures MemoryStep(s, e, mem)(Translate(Step(s, e), line)) == mem(Translate(s, line))
  {
    TranslateStep(s, e, line);
    if e.Complete? && s.queue != [] { ValueFinished(s, mem, line, Step(s, e)); }
  }

  lemma ValueFinished(s: State, mem: nat -> int, line: nat, t: State)
    requires Inv(s) && line < |s.counter| && s.queue != []
    requires t == Step(s, Complete) && line < |t.counter| && Sized(t)
    ensures MemoryStep(s, Complete, mem)(Translate(t, line)) == mem(Translate(s, line))
  {
    FinishedExact(s, line);
    var a, b, h := s.queue[0].fmLine, s.queue[0].smLine, Translate(s, line);
    assert Translate(t, line) == Exchange(a, b, h);
    assert Exchange(a, b, Exchange(a, b, h)) == h;
  }

  lemma TranslateStep(s: State, e: Event, line: nat)
    requires Inv(s) && line < |s.counter|
    ensures line < |Step(s, e).counter|
    ensures e.Access? || s.queue == [] ==> Translate(Step(s, e), line) == Translate(s, line)
  {
    if e.Access? { TrackedKeeps(s, e.line, e.busy); }
  }

  // ----- Counts over runs --------------------------------------------------------------------------------------------

  /** How often the run accesses the line. */
  function Accesses(events: seq<Event>, line: nat): (n: nat)
    ensures n <= |events|
  {
    if events == [] then 0
    else (if events[0].Access? && events[0].line == line then 1 else 0) + Accesses(events[1..], line)
  }

  /** What the events of a run from `s` to `t` do to the counter and the hot bit of a line. */
  predicate Counts(s: State, events: seq<Event>, line: nat, t: State) {
    var n := Accesses(events, line);
    && line < |s.counter| == |s.hot| == |t.counter| == |t.hot| && t.threshold == s.threshold
    && t.counter[line] == Saturated(s.counter[line] + n)
    && t.hot[line] == (s.hot[line] || (n > 0 && t.counter[line] >= s.threshold))
  }

  lemma CountStep(s: State, e: Event, line: nat)
    requires Inv(s) && line < |s.counter|
    ensures Counts(s, [e], line, Step(s, e))
  {
    var t := Step(s, e);
    assert [e][1..] == [];
    match e
    case Access(l, busy) =>
      TrackedCounts(s, l, busy);
      assert t == Tracked(s, l, busy).state;
    case Complete =>
      if s.queue != [] {
        FinishedKeeps(s);
        assert t == Finished(s).state && t.counter == s.counter && t.hot == s.hot;
      }
  }

  lemma TrackedCounts(s: State, line: nat, busy: bool)
    requires Inv(s)
    ensures Tracked(s, line, busy).Running?
    ensures var t := Tracked(s, line, busy).state;
      && t == s.(queue := t.queue, congestion := t.congestion, counter := t.counter, hot := t.hot)
      && (line >= |s.counter| ==> t == s)
    ensures line < |s.counter| ==> var t := Tracked(s, line, busy).state;
      && t.counter == s.counter[line := Saturated(s.counter[line] + 1)]
      && t.hot == s.hot[line := s.hot[line] || Saturated(s.counter[line] + 1) >= s.threshold]
  {
    TrackedKeeps(s, line, busy);
  }

  lemma CountsNext(s: State, events: seq<Event>, line: nat, u: State, t: State)
    requires events != [] && Counts(s, events[..1], line, u) && Counts(u, events[1..], line, t)
    ensures Counts(s, events, line, t)
  {
    assert events[..1] == [events[0]] && events[..1][1..] == [];
  }

  lemma {:induction false} CountsAfter(s: State, events: seq<Event>, line: nat)
    requires Inv(s) && line < |s.counter|
    ensures Counts(s, events, line, StateAfter(s, events))
    decreases |events|
  {
    if events != [] {
      var u := Step(s, events[0]);
      CountStep(s, events[0], line);
      CountsAfter(u, events[1..], line);
      assert events[..1] == [events[0]];
      CountsNext(s, events, line, u, StateAfter(s, events));
    }
  }

  /** Over any run from the start a counter is the number of accesses to its line, up to 255, and a line
      is hot if and only if it has been accessed and that is at least the threshold. */
  lemma CountsExact(fast: nat, members: nat, slots: nat, threshold: nat, events: seq<Event>, line: nat)
    requires 0 < fast && 1 <= members <= slots <= 64 && line < fast * members
    ensures Inv(Initial(fast, members, slots, threshold))
    ensures var t, n := StateAfter(Initial(fast, members, slots, threshold), events), Accesses(events, line);
      && line < |t.counter| && t.counter[line] == (if n < 255 then n else 255)
      && (t.hot[line] <==> n > 0 && t.counter[line] >= threshold)
  {
    InitialKeeps(fast, members, slots, threshold);
    CountsAfter(Initial(fast, members, slots, threshold), events, line);
  }

  /** So an access queues an exchange if and only if it brings the accesses of its line, counted up to
      255, to the threshold or finds them there, and the place and the queue allow it. */
  lemma TrackedAfter(fast: nat, members: nat, slots: nat, threshold: nat, events: seq<Event>, line: nat, busy: bool)
    requires 0 < fast && 1 <= members <= slots <= 64 && line < fast * members
    ensures Inv(Initial(fast, members, slots, threshold))
    ensures var s, n := StateAfter(Initial(fast, members, slots, threshold), events), Accesses(events, line);
      && line < |s.counter| && Tracked(s, line, busy).Running?
      && Tracked(s, line, busy).state.queue ==
           if (if n < 255 then n + 1 else 255) >= threshold && Translate(s, line) >= fast && !busy
              && !GroupQueued(s, Group(s, line)) && |s.queue| < QUEUE_LENGTH
           then s.queue + [Wanted(s, line)]
           else s.queue
  {
    CountsExact(fast, members, slots, threshold, events, line);
    var s := StateAfter(Initial(fast, members, slots, threshold), events);
    CountsAfter(Initial(fast, members, slots, threshold), events, line);
    TrackedExact(s, line, busy);
  }
}
