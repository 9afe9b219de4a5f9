/** The history-based remapper: choosing hot pages, planning and carrying out. */
module HistoryRemap {

  const COUNTER_MAX: nat := 65535
  const QUEUE_LENGTH: nat := 4096
  const HOTNESS: nat := 1280
  const COLDNESS: nat := 65
  const MAX_PAGES: nat := 9999
  const GC_HOTNESS: nat := 128
  const GC_COLDNESS: nat := 1
  const GC_MAX_PAGES: nat := 150

  /** The flag tells whether the page was never accessed (0), accessed (1), or moved by an epoch (2)
      or by a garbage collection (3). */
  datatype Mapping = Mapping(frame: nat, flag: nat)

  /** Page `fm` is to leave fast memory for page `sm`. */
  datatype Request = Request(fm: nat, sm: nat)

  /** Frames below `fast` are fast memory. */
  datatype State = State(fast: nat, table: seq<Mapping>, counter: seq<nat>, queue: seq<Request>,
                         congestion: nat)

  predicate Sized(s: State) {
    |s.counter| == |s.table| && s.fast <= |s.table|
  }

  predicate InFast(s: State, p: nat)
    requires p < |s.table|
  {
    s.table[p].frame < s.fast
  }

  function Initial(pages: nat, fast: nat): State {
    State(fast, seq(pages, i requires 0 <= i => Mapping(i, 0)), seq(pages, i => 0), [], 0)
  }

  // ----- Accesses ----------------------------------------------------------------------------------

  /** Translation of a page marks it as accessed. */
  function Translated(s: State, p: nat): State
    requires p < |s.table|
  {
    if s.table[p].flag == 0 then s.(table := s.table[p := s.table[p].(flag := 1)]) else s
  }

  function Tracked(s: State, p: nat): State
    requires Sized(s)
  {
    if p < |s.table| && s.counter[p] < COUNTER_MAX then s.(counter := s.counter[p := s.counter[p] + 1]) else s
  }

  // ----- Choosing hot pages ------------------------------------------------------------------------

  predicate Pages(s: State, q: seq<nat>) {
    forall i :: 0 <= i < |q| ==> q[i] < |s.table|
  }

  predicate Distinct(q: seq<nat>) {
    forall i, j :: 0 <= i < j < |q| ==> q[i] != q[j]
  }

  /** All pages by falling counter; pages with equal counters may come in any order. */
  predicate Ranking(order: seq<nat>, counter: seq<nat>) {
    && |order| == |counter| && Distinct(order)
    && (forall i :: 0 <= i < |order| ==> order[i] < |counter|)
    && (forall p :: 0 <= p < |counter| ==> p in order)
    && (forall i, j :: 0 <= i < j < |order| ==> counter[order[i]] >= counter[order[j]])
  }

  /** How many ranks are listed, when ranks below `i` are and `slow` of them lie in slow memory. */
  function Listed(s: State, order: seq<nat>, threshold: nat, cap: nat, i: nat, slow: nat): (n: nat)
    requires Sized(s) && |order| == |s.table| && Pages(s, order) && i <= s.fast
    ensures i <= n <= s.fast
    decreases s.fast - i
  {
    if i == s.fast || s.counter[order[i]] < threshold then i
    else if InFast(s, order[i]) then Listed(s, order, threshold, cap, i + 1, slow)
    else if slow + 1 > cap then i + 1
    else Listed(s, order, threshold, cap, i + 1, slow + 1)
  }

  function HotList(s: State, order: seq<nat>, threshold: nat, cap: nat): seq<nat>
    requires Sized(s) && Ranking(order, s.counter)
  {
    order[..Listed(s, order, threshold, cap, 0, 0)]
  }

  // ----- Planning -------------------------------------------------------------------------------------

  predicate Names(queue: seq<Request>, p: nat) {
    exists k :: 0 <= k < |queue| && queue[k].fm == p
  }

  function Enqueued(s: State, r: Request): State {
    if Names(s.queue, r.fm) then s
    else if |s.queue| < QUEUE_LENGTH then s.(queue := s.queue + [r])
    else s.(congestion := s.congestion + 1)
  }

  /** Which pages a pass moves out: those never accessed, or those with a low counter. */
  datatype Pass = Untouched | Cold(limit: nat)

  predicate Candidate(s: State, hot: seq<nat>, spared: seq<nat>, pass: Pass, p: nat)
    requires Sized(s) && p < |s.table|
  {
    && p !in hot && p !in spared
    && (match pass case Untouched => s.table[p].flag == 0 case Cold(limit) => s.counter[p] < limit)
    && InFast(s, p)
  }

  /** How many pages at the head of the list are in fast memory already; they are passed over. */
  function Skipped(s: State, q: seq<nat>): (k: nat)
    requires Pages(s, q)
    ensures k <= |q| && (forall i :: 0 <= i < k ==> InFast(s, q[i]))
    ensures k < |q| ==> !InFast(s, q[k])
  {
    if q == [] || !InFast(s, q[0]) then 0 else 1 + Skipped(s, q[1..])
  }

  datatype Plan = Plan(state: State, rest: seq<nat>)

  /** One pass over the pages from page `p` on, with hot pages `q` still to be placed. */
  function PassFrom(s: State, hot: seq<nat>, q: seq<nat>, spared: seq<nat>, pass: Pass, busy: bool, p: nat): (t: Plan)
    requires Sized(s) && Pages(s, q) && p <= |s.table|
    ensures t.state.table == s.table && t.state.counter == s.counter && t.state.fast == s.fast
    ensures Pages(t.state, t.rest)
    decreases |s.table| - p
  {
    if p == |s.table| || q == [] then Plan(s, q)
    else if !Candidate(s, hot, spared, pass, p) then PassFrom(s, hot, q, spared, pass, busy, p + 1)
    else
      var k := Skipped(s, q);
      if k == |q| then Plan(s, [])
      else if busy then Plan(s, q[k + 1..])
      else PassFrom(Enqueued(s, Request(p, q[k])), hot, q[k + 1..], spared, pass, busy, p + 1)
  }

  /** Two passes: pages never accessed first, then cold pages. */
  function Planned(s: State, hot: seq<nat>, spared: seq<nat>, limit: nat, busy: bool): (t: State)
    requires Sized(s) && Pages(s, hot)
    ensures t.table == s.table && t.counter == s.counter && t.fast == s.fast
  {
    var first := PassFrom(s, hot, hot, spared, Untouched, busy, 0);
    PassFrom(first.state, hot, first.rest, spared, Cold(limit), busy, 0).state
  }

  function Cleared(s: State): State {
    s.(counter := seq(|s.counter|, i => 0))
  }

  /** An epoch ends: plan, then clear the counters. */
  function Epoch(s: State, order: seq<nat>, busy: bool): State
    requires Sized(s) && Ranking(order, s.counter)
  {
    var t := Planned(s, HotList(s, order, HOTNESS, MAX_PAGES), [], COLDNESS, busy);
    Cleared(t)
  }

  // ----- Carrying out ------------------------------------------------------------------------------------

  /** What the program's checks let happen: it goes on, or stops with an error. */
  datatype Outcome = Running(state: State) | Stopped

  function Finished(s: State): Outcome {
    if s.queue == [] then Stopped
    else
      var r := s.queue[0];
      if !(r.fm < |s.table| && r.sm < |s.table|) || !InFast(s, r.fm) || InFast(s, r.sm) || r.fm == r.sm then Stopped
      else Running(s.(queue := s.queue[1..], table := s.table[r.fm := s.table[r.sm]][r.sm := s.table[r.fm]]))
  }

  /** Both pages of the request get the mark. */
  function Marked(s: State, r: Request, mark: nat): State
    requires r.fm < |s.table| && r.sm < |s.table|
  {
    var table := s.table[r.fm := s.table[r.fm].(flag := mark)];
    s.(table := table[r.sm := table[r.sm].(flag := mark)])
  }

  /** The whole queue is carried out. A garbage collection refuses a request whose pages were both
      never accessed. */
  function Drained(s: State, mark: nat, refuse: bool): Outcome
    decreases |s.queue|
  {
    if s.queue == [] then Running(s)
    else
      var r := s.queue[0];
      if !(r.fm < |s.table| && r.sm < |s.table|) then Stopped
      else if refuse && s.table[r.fm].flag == 0 && s.table[r.sm].flag == 0 then Stopped
      else
        match Finished(Marked(s, r, mark))
        case Stopped => Stopped
        case Running(t) => Drained(t, mark, refuse)
  }

  // ----- Garbage collection --------------------------------------------------------------------------------

  /** Pages without live data lose their counts. */
  function Forgotten(s: State, pages: seq<nat>): (t: State)
    requires Sized(s)
    ensures t == s.(counter := t.counter) && Sized(t)
    ensures forall p :: 0 <= p < |s.counter| ==> t.counter[p] == if p in pages then 0 else s.counter[p]
  {
    s.(counter := seq(|s.counter|, p requires 0 <= p < |s.counter| => if p in pages then 0 else s.counter[p]))
  }

  function GcPlanned(s: State, unmarked: seq<nat>, order: seq<nat>): State
    requires Sized(s) && Ranking(order, Forgotten(s, unmarked).counter)
  {
    var t := Forgotten(s, unmarked);
    Planned(t, HotList(t, order, GC_HOTNESS, GC_MAX_PAGES), unmarked, GC_COLDNESS, false)
  }

  function Gc(s: State, unmarked: seq<nat>, order: seq<nat>): Outcome
    requires Sized(s) && Ranking(order, Forgotten(s, unmarked).counter)
  {
    Drained(GcPlanned(s, unmarked, order), 3, true)
  }

  /** A garbage collection begins: what is still planned is dropped, the collection plans and migrates,
      and the counters are cleared. */
  function Collection(s: State, unmarked: seq<nat>, order: seq<nat>): Outcome
    requires Sized(s) && Ranking(order, Forgotten(s, unmarked).counter)
  {
    match Gc(s.(queue := []), unmarked, order)
    case Stopped => Stopped
    case Running(t) => Running(Cleared(t))
  }

  // ----- What is kept ---------------------------------------------------------------------------------------

  /** Every page has a frame of its own. */
  predicate Permutation(s: State) {
    && (forall p :: 0 <= p < |s.table| ==> s.table[p].frame < |s.table|)
    && (forall p, q :: 0 <= p < q < |s.table| ==> s.table[p].frame != s.table[q].frame)
  }

  predicate PageOk(s: State, p: nat)
    requires Sized(s) && p < |s.table|
  {
    && s.table[p].flag <= 3 && s.counter[p] <= COUNTER_MAX
    && (s.table[p].flag <= 1 ==> s.table[p].frame == p)
    && (s.counter[p] != 0 ==> s.table[p].flag != 0)
  }

  /** The request can be carried out on the table as it is. */
  predicate Placed(s: State, r: Request) {
    r.fm < |s.table| && r.sm < |s.table| && InFast(s, r.fm) && !InFast(s, r.sm)
  }

  predicate AllPlaced(s: State) {
    forall k :: 0 <= k < |s.queue| ==> Placed(s, s.queue[k])
  }

  predicate VictimsDistinct(queue: seq<Request>) {
    forall i, j :: 0 <= i < j < |queue| ==> queue[i].fm != queue[j].fm
  }

  predicate ComersDistinct(queue: seq<Request>) {
    forall i, j :: 0 <= i < j < |queue| ==> queue[i].sm != queue[j].sm
  }

  predicate ComersAccessed(s: State) {
    forall k :: 0 <= k < |s.queue| ==> s.queue[k].sm < |s.table| && s.table[s.queue[k].sm].flag != 0
  }

  predicate QueueOk(s: State) {
    && AllPlaced(s) && VictimsDistinct(s.queue) && ComersDistinct(s.queue) && ComersAccessed(s)
    && |s.queue| <= QUEUE_LENGTH
  }

  predicate Inv(s: State) {
    && Sized(s) && Permutation(s) && QueueOk(s)
    && forall p :: 0 <= p < |s.table| ==> PageOk(s, p)
  }

  lemma InitialKeeps(pages: nat, fast: nat)
    requires fast <= pages
    ensures Inv(Initial(pages, fast))
  {
  }

  lemma TranslatedKeeps(s: State, p: nat)
    requires Inv(s) && p < |s.table|
    ensures Inv(Translated(s, p))
    ensures forall q :: 0 <= q < |s.table| ==> Translated(s, p).table[q].frame == s.table[q].frame
  {
    var t := Translated(s, p);
    forall q | 0 <= q < |t.table| ensures PageOk(t, q) { assert PageOk(s, q); }
    forall k | 0 <= k < |t.queue| ensures Placed(t, t.queue[k]) { assert Placed(s, s.queue[k]); }
  }

  /** An access first translates, then counts. */
  lemma AccessKeeps(s: State, p: nat)
    requires Inv(s) && p < |s.table|
    ensures Inv(Tracked(Translated(s, p), p))
  {
    TranslatedKeeps(s, p);
    var u := Translated(s, p);
    var t := Tracked(u, p);
    forall q | 0 <= q < |t.table| ensures PageOk(t, q) { assert PageOk(u, q); }
    forall k | 0 <= k < |t.queue| ensures Placed(t, t.queue[k]) { assert Placed(u, u.queue[k]); }
  }

  // ----- The hot list ------------------------------------------------------------------------------------------

  /** How many of the first `n` pages of a list lie in slow memory. */
  function SlowCount(s: State, q: seq<nat>, n: nat): nat
    requires Pages(s, q) && n <= |q|
  {
    if n == 0 then 0 else SlowCount(s, q, n - 1) + (if InFast(s, q[n - 1]) then 0 else 1)
  }

  lemma {:induction false} SlowCountPrefix(s: State, q: seq<nat>, m: nat, n: nat)
    requires Pages(s, q) && n <= m <= |q|
    ensures SlowCount(s, q[..m], n) == SlowCount(s, q, n)
  {
    if n > 0 { SlowCountPrefix(s, q, m, n - 1); }
  }

  lemma {:induction false} ListedExact(s: State, order: seq<nat>, threshold: nat, cap: nat, i: nat, slow: nat)
    requires Sized(s) && |order| == |s.table| && Pages(s, order) && i <= s.fast
    requires slow == SlowCount(s, order, i) && slow <= cap
    requires forall k :: 0 <= k < i ==> s.counter[order[k]] >= threshold
    ensures var n := Listed(s, order, threshold, cap, i, slow);
      && (forall k :: 0 <= k < n ==> s.counter[order[k]] >= threshold)
      && SlowCount(s, order, n) <= cap + 1
      && (n < s.fast && s.counter[order[n]] >= threshold ==> SlowCount(s, order, n) == cap + 1)
    decreases s.fast - i
  {
    if i < s.fast && s.counter[order[i]] >= threshold {
      if InFast(s, order[i]) {
        ListedExact(s, order, threshold, cap, i + 1, slow);
      } else if slow + 1 <= cap {
        ListedExact(s, order, threshold, cap, i + 1, slow + 1);
      }
    }
  }

  /** The list is the top of the ranking: every page on it reaches the threshold, it has at most
      `cap + 1` pages in slow memory, and it ends only at the size of fast memory, at the threshold,
      or when those pages are used up. */
  lemma HotListExact(s: State, order: seq<nat>, threshold: nat, cap: nat)
    requires Sized(s) && Ranking(order, s.counter)
    ensures var hot := HotList(s, order, threshold, cap);
      && Pages(s, hot) && Distinct(hot) && hot <= order && |hot| <= s.fast
      && (forall p :: p in hot ==> s.counter[p] >= threshold)
      && SlowCount(s, hot, |hot|) <= cap + 1
      && (|hot| < s.fast && SlowCount(s, hot, |hot|) <= cap ==> s.counter[order[|hot|]] < threshold)
  {
    ListedExact(s, order, threshold, cap, 0, 0);
    var n := Listed(s, order, threshold, cap, 0, 0);
    SlowCountPrefix(s, order, n, n);
  }

  /** No page left off the list is hotter than a page on it, or hot at all when there was room. */
  lemma NoneHotter(s: State, order: seq<nat>, threshold: nat, cap: nat, q: nat)
    requires Sized(s) && Ranking(order, s.counter) && q < |s.table|
    requires q !in HotList(s, order, threshold, cap)
    ensures var hot := HotList(s, order, threshold, cap);
      && Pages(s, hot)
      && (forall p :: p in hot ==> s.counter[q] <= s.counter[p])
      && (|hot| < s.fast && SlowCount(s, hot, |hot|) <= cap ==> s.counter[q] < threshold)
  {
    HotListExact(s, order, threshold, cap);
    var n := Listed(s, order, threshold, cap, 0, 0);
    assert q in order;
    var k :| 0 <= k < |order| && order[k] == q;
    assert forall i :: 0 <= i < n ==> order[..n][i] == order[i];
  }
}
