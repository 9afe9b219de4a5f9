/** The variable-granularity remapper over all sets. */
module VariableGranularity {
  import opened PlacementEntry
  import opened MigrationPlan

  const QUEUE_LENGTH: nat := 64
  const COUNTER_MAX: nat := 255
  const INTERVAL: nat := 1000000 // cycles between two coolings
  const PAGES_PER_SET: nat := 64 // the page field of an address has six bits

  /** Both addresses lie in set `index`: line `fast` of the fast page, line `slow` of page `tag`.
      The locations name the page whose data is moved out of each side; page 0 is the fast page. */
  datatype Request = Request(index: nat, fast: nat, tag: nat, slow: nat,
                             fmLocation: nat, smLocation: nat, size: nat)

  /** The value of the tables: entries of the sets, accessed lines, counters and hot bits of the
      blocks, and the queue of remapping requests. The class below updates them in place. */
  datatype State = State(sets: nat, threshold: nat, placement: seq<Entry>, access: seq<seq<bool>>,
                         counter: seq<nat>, hot: seq<bool>, queue: seq<Request>, congestion: nat,
                         cycle: nat)

  predicate IsMoveIn(r: Request) {
    r.fmLocation == 0
  }

  predicate IsEviction(r: Request) {
    r.smLocation == 0
  }

  function MoveInRequest(e: Entry, index: nat, tag: nat, start: nat, n: nat): Request {
    Request(index, Used(e), tag, start, 0, tag, n)
  }

  function EvictionRequest(e: Entry, index: nat, k: nat): Request
    requires k < |e|
  {
    Request(index, Offset(e, k), e[k].tag, e[k].start, e[k].tag, 0, e[k].size)
  }

  // ----- Invariant -----------------------------------------------------------------------

  function Block(sets: nat, tag: nat, index: nat): nat {
    tag * sets + index
  }

  predicate EntryOk(s: State, index: nat, e: Entry) {
    && WellFormed(e) && Trimmed(e)
    && forall i :: 0 <= i < |e| ==> Block(s.sets, e[i].tag, index) < |s.counter|
  }

  predicate MoveInOk(e: Entry, r: Request) {
    && IsMoveIn(r) && r.smLocation == r.tag
    && r.fast == Used(e) && Fits(e, r.tag, r.slow, r.size)
  }

  ghost predicate EvictionOk(e: Entry, r: Request) {
    && IsEviction(r) && r.fmLocation == r.tag
    && exists k :: Names(e, k, r.fast, r.tag, r.slow, r.size)
  }

  /** The request can be finished on the entry as it is now. */
  ghost predicate RequestOk(s: State, r: Request)
    requires |s.placement| == s.sets
  {
    && r.index < s.sets && Block(s.sets, r.tag, r.index) < |s.counter|
    && (MoveInOk(s.placement[r.index], r) || EvictionOk(s.placement[r.index], r))
  }

  /** Two requests queued together: other sets, or evictions of different fast lines. */
  predicate Compatible(a: Request, b: Request) {
    a.index == b.index ==> IsEviction(a) && IsEviction(b) && a.fast != b.fast
  }

  ghost predicate QueueOk(s: State)
    requires |s.placement| == s.sets
  {
    && |s.queue| <= QUEUE_LENGTH
    && (forall i :: 0 <= i < |s.queue| ==> RequestOk(s, s.queue[i]))
    && (forall i, j :: 0 <= i < j < |s.queue| ==> Compatible(s.queue[i], s.queue[j]))
  }

  predicate TablesOk(s: State) {
    && 0 < s.sets == |s.placement|
    && |s.counter| == |s.hot| == |s.access| <= PAGES_PER_SET * s.sets
    && (forall b :: 0 <= b < |s.access| ==> |s.access[b]| == LINES)
    && (forall b :: 0 <= b < |s.counter| ==> s.counter[b] <= COUNTER_MAX)
    && (forall index :: 0 <= index < s.sets ==> EntryOk(s, index, s.placement[index]))
  }

  ghost predicate Inv(s: State) {
    TablesOk(s) && QueueOk(s)
  }

  function Initial(blocks: nat, sets: nat, threshold: nat): (s: State)
    requires 0 < sets && blocks <= PAGES_PER_SET * sets
    ensures Inv(s)
  {
    State(sets, threshold, seq(sets, i => []), seq(blocks, i => seq(LINES, j => false)),
          seq(blocks, i => 0), seq(blocks, i => false), [], 0, 0)
  }

  /** Splitting a block address into page and set loses nothing, and the page fits its field. */
  lemma BlockSplit(s: State, block: nat)
    requires TablesOk(s) && block < |s.counter|
    ensures block % s.sets < s.sets && Block(s.sets, block / s.sets, block % s.sets) == block
    ensures block / s.sets < PAGES_PER_SET
  {
    var q, m := block / s.sets, block % s.sets;
    assert block == q * s.sets + m;
    assert q >= PAGES_PER_SET ==> q * s.sets >= PAGES_PER_SET * s.sets;
  }

  // ----- Queueing a request ------------------------------------------------------------------

  predicate SameAddresses(a: Request, b: Request) {
    a.index == b.index && a.fast == b.fast && a.tag == b.tag && a.slow == b.slow
  }

  datatype Verdict = Push | Reject | Resize(at: nat)

  /** What the duplicate search decides from queue position `i` on. */
  function Scan(q: seq<Request>, r: Request, i: nat): (v: Verdict)
    requires i <= |q|
    ensures v.Resize? ==> v.at < |q| && SameAddresses(q[v.at], r)
    decreases |q| - i
  {
    if i == |q| then Push
    else if q[i].index != r.index then Scan(q, r, i + 1)
    else if IsMoveIn(r) && IsMoveIn(q[i]) then
      if SameAddresses(q[i], r) then Resize(i) else Reject
    else if IsEviction(r) && IsEviction(q[i]) then
      if SameAddresses(q[i], r) then Resize(i)
      else if q[i].fast != r.fast then Scan(q, r, i + 1)
      else Reject
    else Reject
  }

  function Enqueue(s: State, r: Request): State {
    match Scan(s.queue, r, 0)
    case Push =>
      if |s.queue| < QUEUE_LENGTH then s.(queue := s.queue + [r]) else s.(congestion := s.congestion + 1)
    case Reject => s
    case Resize(i) =>
      if r.size > s.queue[i].size then s.(queue := s.queue[i := s.queue[i].(size := r.size)]) else s
  }

  function EnqueueUnless(s: State, busy: bool, r: Request): State {
    if busy then s else Enqueue(s, r)
  }

  /** The search lets a request through if and only if it may stand beside every queued one. */
  lemma {:induction false} ScanPushes(q: seq<Request>, r: Request, i: nat)
    requires i <= |q| && !(IsMoveIn(r) && IsEviction(r))
    ensures Scan(q, r, i) == Push <==> forall j :: i <= j < |q| ==> Compatible(q[j], r)
    decreases |q| - i
  {
    if i < |q| {
      ScanPushes(q, r, i + 1);
      assert Compatible(q[i], r) || !Compatible(q[i], r);
    }
  }

  lemma {:induction false} ScanFinds(q: seq<Request>, r: Request, i: nat, j: nat)
    requires i <= j < |q| && IsMoveIn(r) && IsMoveIn(q[j]) && SameAddresses(q[j], r)
    requires forall k :: i <= k < j ==> q[k].index != r.index
    ensures Scan(q, r, i) == Resize(j)
    decreases j - i
  {
    if i < j { ScanFinds(q, r, i + 1, j); }
  }

  lemma {:induction false} ScanResizes(q: seq<Request>, r: Request, i: nat)
    requires i <= |q| && Scan(q, r, i).Resize?
    ensures var a := q[Scan(q, r, i).at];
      (IsMoveIn(r) && IsMoveIn(a)) || (IsEviction(r) && IsEviction(a))
    decreases |q| - i
  {
    if i < |q| && (q[i].index != r.index || (!(IsMoveIn(r) && IsMoveIn(q[i])) && !SameAddresses(q[i], r))) {
      ScanResizes(q, r, i + 1);
    }
  }

  /** A request that the entry allows either grows a queued move to itself or leaves it alone. */
  lemma ResizeGivesRequest(s: State, a: Request, r: Request)
    requires TablesOk(s) && RequestOk(s, a) && RequestOk(s, r) && SameAddresses(a, r)
    requires (IsMoveIn(r) && IsMoveIn(a)) || (IsEviction(r) && IsEviction(a))
    requires r.size > a.size
    ensures a.(size := r.size) == r && IsMoveIn(r)
  {
    var e := s.placement[r.index];
    if IsEviction(r) && EvictionOk(e, a) && EvictionOk(e, r) {
      var i :| Names(e, i, a.fast, a.tag, a.slow, a.size);
      var j :| Names(e, j, r.fast, r.tag, r.slow, r.size);
      NamesUnique(e, i, j, a.fast, a.tag, a.slow, a.size, r.fast, r.tag, r.slow, r.size);
    }
  }

  lemma OneKind(s: State, r: Request)
    requires |s.placement| == s.sets && RequestOk(s, r)
    ensures !(IsMoveIn(r) && IsEviction(r))
  {
    if EvictionOk(s.placement[r.index], r) {
      var k :| Names(s.placement[r.index], k, r.fast, r.tag, r.slow, r.size);
    }
  }

  /** A request joins the queue if and only if it may stand beside every queued one and there is
      room; a larger move to the lines of a queued move takes its place; nothing else is changed. */
  lemma EnqueueExact(s: State, r: Request)
    requires Inv(s) && RequestOk(s, r)
    ensures var t := Enqueue(s, r);
      && (t.queue == s.queue + [r] <==>
            |s.queue| < QUEUE_LENGTH && forall j :: 0 <= j < |s.queue| ==> Compatible(s.queue[j], r))
      && (forall j :: 0 <= j < |s.queue| && Grows(s.queue[j], r) ==> t.queue == s.queue[j := r])
      && (t.queue == s.queue || t.queue == s.queue + [r]
          || exists j :: 0 <= j < |s.queue| && Grows(s.queue[j], r))
  {
    OneKind(s, r);
    ScanPushes(s.queue, r, 0);
    forall j | 0 <= j < |s.queue| && Grows(s.queue[j], r) ensures Enqueue(s, r).queue == s.queue[j := r] {
      assert RequestOk(s, s.queue[j]);
      OneKind(s, s.queue[j]);
      forall k | 0 <= k < j ensures s.queue[k].index != r.index {
        assert Compatible(s.queue[k], s.queue[j]);
      }
      ScanFinds(s.queue, r, 0, j);
      ResizeGivesRequest(s, s.queue[j], r);
    }
    if Scan(s.queue, r, 0).Resize? {
      ScanResizes(s.queue, r, 0);
      var j := Scan(s.queue, r, 0).at;
      assert RequestOk(s, s.queue[j]);
      if r.size > s.queue[j].size { ResizeGivesRequest(s, s.queue[j], r); }
    }
  }

  predicate Grows(a: Request, r: Request) {
    IsMoveIn(a) && IsMoveIn(r) && SameAddresses(a, r) && r.size > a.size
  }

  lemma EnqueueKeeps(s: State, r: Request)
    requires Inv(s) && RequestOk(s, r)
    ensures var t := Enqueue(s, r);
      Inv(t) && t == s.(queue := t.queue, congestion := t.congestion)
  {
    var t := Enqueue(s, r);
    OneKind(s, r);
    match Scan(s.queue, r, 0)
    case Push =>
      ScanPushes(s.queue, r, 0);
    case Reject =>
    case Resize(i) =>
      ResizeKeeps(s, r, i);
  }

  lemma ResizeKeeps(s: State, r: Request, i: nat)
    requires Inv(s) && RequestOk(s, r) && Scan(s.queue, r, 0) == Resize(i)
    ensures Inv(Enqueue(s, r))
  {
    ScanResizes(s.queue, r, 0);
    var t := Enqueue(s, r);
    if r.size > s.queue[i].size {
      ResizeGivesRequest(s, s.queue[i], r);
      assert t.queue == s.queue[i := r];
      forall j | 0 <= j < |t.queue| ensures RequestOk(t, t.queue[j]) {
        assert RequestOk(s, s.queue[j]);
      }
    }
  }

  // ----- Cold data eviction --------------------------------------------------------------------

  /** The group is one of a cold slow page other than `tag`. */
  predicate ColdGroup(s: State, index: nat, tag: nat, j: nat)
    requires TablesOk(s) && index < s.sets && j < |s.placement[index]|
  {
    var page := s.placement[index][j].tag;
    assert EntryOk(s, index, s.placement[index]);
    page != 0 && page != tag && !s.hot[Block(s.sets, page, index)]
  }

  /** First group at or behind `i` of a cold slow page other than `tag`. */
  function FindCold(s: State, index: nat, tag: nat, i: nat): (k: nat)
    requires TablesOk(s) && index < s.sets && i <= |s.placement[index]|
    ensures i <= k <= |s.placement[index]|
    ensures k < |s.placement[index]| ==> ColdGroup(s, index, tag, k)
    ensures forall j :: i <= j < k ==> !ColdGroup(s, index, tag, j)
    decreases |s.placement[index]| - i
  {
    var e := s.placement[index];
    if i == |e| then i
    else if e[i].tag != tag && e[i].tag != 0 && !s.hot[Block(s.sets, e[i].tag, index)] then i
    else FindCold(s, index, tag, i + 1)
  }

  /** Queues an eviction for every group of page `cold` from group `i` on. */
  function EvictPage(s: State, e: Entry, index: nat, cold: nat, i: nat, busy: bool): State
    requires i <= |e|
    decreases |e| - i
  {
    if i == |e| then s
    else
      EvictPage(if e[i].tag == cold then EnqueueUnless(s, busy, EvictionRequest(e, index, i)) else s,
                e, index, cold, i + 1, busy)
  }

  function EvictCold(s: State, index: nat, tag: nat, busy: bool): State
    requires TablesOk(s) && index < s.sets
  {
    var e := s.placement[index];
    var k := FindCold(s, index, tag, 0);
    if k < |e| then EvictPage(s, e, index, e[k].tag, k, busy) else s
  }

  lemma EvictionRequestOk(s: State, index: nat, k: nat)
    requires TablesOk(s) && index < s.sets && k < |s.placement[index]| && s.placement[index][k].tag != 0
    ensures RequestOk(s, EvictionRequest(s.placement[index], index, k))
  {
    var e := s.placement[index];
    assert EntryOk(s, index, e);
    var r := EvictionRequest(e, index, k);
    assert Names(e, k, r.fast, r.tag, r.slow, r.size);
  }

  lemma {:induction false} EvictPageKeeps(s: State, index: nat, cold: nat, i: nat, busy: bool)
    requires Inv(s) && index < s.sets && i <= |s.placement[index]| && cold != 0
    ensures var t := EvictPage(s, s.placement[index], index, cold, i, busy);
      Inv(t) && t == s.(queue := t.queue, congestion := t.congestion)
    decreases |s.placement[index]| - i
  {
    var e := s.placement[index];
    if i < |e| {
      if e[i].tag == cold && !busy {
        EvictionRequestOk(s, index, i);
        EnqueueKeeps(s, EvictionRequest(e, index, i));
        EvictPageKeeps(Enqueue(s, EvictionRequest(e, index, i)), index, cold, i + 1, busy);
      } else {
        EvictPageKeeps(s, index, cold, i + 1, busy);
      }
    }
  }

  lemma EvictColdKeeps(s: State, index: nat, tag: nat, busy: bool)
    requires Inv(s) && index < s.sets
    ensures var t := EvictCold(s, index, tag, busy);
      Inv(t) && t == s.(queue := t.queue, congestion := t.congestion)
  {
    var k := FindCold(s, index, tag, 0);
    if k < |s.placement[index]| {
      EvictPageKeeps(s, index, s.placement[index][k].tag, k, busy);
    }
  }

  // ----- Tracking an access -----------------------------------------------------------------------

  /** The access bit, the saturating counter and the hotness bit of the block. */
  function Count(s: State, block: nat, line: nat): State
    requires TablesOk(s) && block < |s.counter| && line < LINES
  {
    var c := if s.counter[block] < COUNTER_MAX then s.counter[block] + 1 else s.counter[block];
    s.(access := s.access[block := s.access[block][line := true]],
       counter := s.counter[block := c],
       hot := s.hot[block := s.hot[block] || c >= s.threshold])
  }

  function FollowPlan(s: State, index: nat, tag: nat, p: Plan, busy: bool): State
    requires TablesOk(s) && index < s.sets
  {
    match p
    case Hit => s
    case Evict => EvictCold(s, index, tag, busy)
    case MoveIn(start, n) => EnqueueUnless(s, busy, MoveInRequest(s.placement[index], index, tag, start, n))
  }

  /** An access to a line of the fast page: a line that is away is called home. */
  function CallHome(s: State, index: nat, line: nat, busy: bool): State
    requires TablesOk(s) && index < s.sets
  {
    var e := s.placement[index];
    var k := FindFast(e, line, 0);
    if k < |e| && e[k].tag != 0 then EnqueueUnless(s, busy, EvictionRequest(e, index, k)) else s
  }

  function Track(s: State, block: nat, line: nat, busy: bool): State
    requires TablesOk(s) && line < LINES
  {
    if block >= |s.counter| then s
    else
      var t := Count(s, block, line);
      var index := block % s.sets;
      var tag := block / s.sets;
      if tag == 0 then CallHome(t, index, line, busy)
      else if t.hot[block] then
        assert t.access[block][line];
        FollowPlan(t, index, tag,
          PlanFor(t.placement[index], tag, First(t.access[block], 0), Last(t.access[block], LINES)), busy)
      else if FindSlow(t.placement[index], tag, line, 0) < |t.placement[index]| then t
      else EvictCold(t, index, tag, busy)
  }

  lemma CountKeeps(s: State, block: nat, line: nat)
    requires Inv(s) && block < |s.counter| && line < LINES
    ensures Inv(Count(s, block, line))
  {
    var t := Count(s, block, line);
    forall i | 0 <= i < s.sets ensures EntryOk(t, i, t.placement[i]) {
      assert EntryOk(s, i, s.placement[i]);
    }
    forall j | 0 <= j < |t.queue| ensures RequestOk(t, t.queue[j]) {
      assert RequestOk(s, s.queue[j]);
    }
  }

  lemma FollowPlanKeeps(s: State, index: nat, tag: nat, first: nat, last: nat, busy: bool)
    requires Inv(s) && index < s.sets && Block(s.sets, tag, index) < |s.counter|
    requires tag != 0 && first <= last < LINES
    ensures WellFormed(s.placement[index])
    ensures Inv(FollowPlan(s, index, tag, PlanFor(s.placement[index], tag, first, last), busy))
    ensures FollowPlan(s, index, tag, PlanFor(s.placement[index], tag, first, last), busy).placement == s.placement
  {
    var e := s.placement[index];
    assert EntryOk(s, index, e);
    match PlanFor(e, tag, first, last)
    case Hit =>
    case Evict => EvictColdKeeps(s, index, tag, busy);
    case MoveIn(start, n) =>
      PlanFits(e, tag, first, last);
      if !busy {
        EnqueueKeeps(s, MoveInRequest(e, index, tag, start, n));
      }
  }

  lemma CallHomeKeeps(s: State, index: nat, line: nat, busy: bool)
    requires Inv(s) && index < s.sets
    ensures Inv(CallHome(s, index, line, busy))
    ensures CallHome(s, index, line, busy).placement == s.placement
  {
    var e := s.placement[index];
    var k := FindFast(e, line, 0);
    if k < |e| && e[k].tag != 0 && !busy {
      EvictionRequestOk(s, index, k);
      EnqueueKeeps(s, EvictionRequest(e, index, k));
    }
  }

  /** An access never breaks the invariant and never changes a translation. */
  lemma TrackKeeps(s: State, block: nat, line: nat, busy: bool)
    requires Inv(s) && line < LINES
    ensures Inv(Track(s, block, line, busy))
    ensures Track(s, block, line, busy).placement == s.placement
  {
    if block < |s.counter| {
      var t := Count(s, block, line);
      var index, tag := block % s.sets, block / s.sets;
      CountKeeps(s, block, line);
      BlockSplit(s, block);
      if tag == 0 {
        CallHomeKeeps(t, index, line, busy);
      } else if t.hot[block] {
        assert t.access[block][line];
        FollowPlanKeeps(t, index, tag, First(t.access[block], 0), Last(t.access[block], LINES), busy);
      } else {
        EvictColdKeeps(t, index, tag, busy);
      }
    }
  }

  // ----- Periodic cooling ---------------------------------------------------------------------------

  /** Every counter is halved; a block that reaches zero turns cold and forgets its accesses. */
  function Cool(s: State): State
    requires TablesOk(s)
  {
    s.(counter := seq(|s.counter|, b requires 0 <= b < |s.counter| => s.counter[b] / 2),
       hot := seq(|s.hot|, b requires 0 <= b < |s.hot| => s.hot[b] && s.counter[b] / 2 != 0),
       access := seq(|s.access|, b requires 0 <= b < |s.access| =>
                   if s.counter[b] / 2 == 0 then seq(LINES, j => false) else s.access[b]))
  }

  function Tick(s: State): State
    requires TablesOk(s)
  {
    (if s.cycle % INTERVAL == 0 then Cool(s) else s).(cycle := s.cycle + 1)
  }

  lemma TickKeeps(s: State)
    requires Inv(s)
    ensures Inv(Tick(s)) && Tick(s).placement == s.placement
  {
    var t := Tick(s);
    forall i | 0 <= i < s.sets ensures EntryOk(t, i, t.placement[i]) {
      assert EntryOk(s, i, s.placement[i]);
    }
    forall j | 0 <= j < |t.queue| ensures RequestOk(t, t.queue[j]) {
      assert RequestOk(s, s.queue[j]);
    }
  }

  // ----- Finishing the oldest request ------------------------------------------------------------------

  /** First group at or behind `i` that ends behind line `fast` and has the page. */
  function FindOccupied(e: Entry, fast: nat, tag: nat, i: nat): (k: nat)
    requires i <= |e|
    ensures i <= k <= |e|
    ensures k < |e| ==> fast < Offset(e, k) + e[k].size && e[k].tag == tag
    ensures forall j :: i <= j < k ==> !(fast < Offset(e, j) + e[j].size && e[j].tag == tag)
    decreases |e| - i
  {
    if i == |e| || (fast < Offset(e, i) + e[i].size && e[i].tag == tag) then i
    else FindOccupied(e, fast, tag, i + 1)
  }

  lemma OccupiedIsNamed(e: Entry, r: Request, k: nat)
    requires WellFormed(e) && Names(e, k, r.fast, r.tag, r.slow, r.size)
    ensures FindOccupied(e, r.fast, r.tag, 0) == k
  {
    var f := FindOccupied(e, r.fast, r.tag, 0);
    if f < k {
      OffsetGrows(e, f, k);
    }
  }

  function Completed(e: Entry, r: Request): Entry {
    if IsMoveIn(r) then MovedIn(e, r.smLocation, r.slow, r.size)
    else
      var k := FindOccupied(e, r.fast, r.fmLocation, 0);
      if k < |e| then Evicted(e, k) else e
  }

  function Finish(s: State): State
    requires TablesOk(s) && (s.queue != [] ==> s.queue[0].index < s.sets)
  {
    if s.queue == [] then s
    else
      var r := s.queue[0];
      s.(queue := s.queue[1..],
         placement := s.placement[r.index := Completed(s.placement[r.index], r)])
  }

  /** The head of the queue completes: the entry stays in order, and no assertion of the source
      about cursor, size or free space can fail. */
  lemma CompletedOk(s: State, r: Request)
    requires TablesOk(s) && RequestOk(s, r)
    ensures var f := Completed(s.placement[r.index], r);
      EntryOk(s, r.index, f)
  {
    var e := s.placement[r.index];
    assert EntryOk(s, r.index, e);
    if MoveInOk(e, r) {
      MovedInShape(e, r.tag, r.slow, r.size);
    } else {
      var k :| Names(e, k, r.fast, r.tag, r.slow, r.size);
      OccupiedIsNamed(e, r, k);
      EvictedWellFormed(e, k);
      EvictedBlocks(s, r.index, k);
    }
  }

  lemma EvictedBlocks(s: State, index: nat, k: nat)
    requires TablesOk(s) && index < s.sets && k < |s.placement[index]|
    ensures forall i :: 0 <= i < |Evicted(s.placement[index], k)| ==>
      Block(s.sets, Evicted(s.placement[index], k)[i].tag, index) < |s.counter|
  {
    var e := s.placement[index];
    assert EntryOk(s, index, e);
    EvictedShape(e, k);
    forall i | 0 <= i < |Evicted(e, k)| ensures Block(s.sets, Evicted(e, k)[i].tag, index) < |s.counter| {
      assert Block(s.sets, e[i].tag, index) < |s.counter|;
      assert 0 <= e[i].tag * s.sets;
    }
  }

  /** Every other queued request survives the completion of the head, also when holes appear
      or the cursor steps back. */
  lemma OthersStayOk(s: State, r: Request, q: Request)
    requires TablesOk(s) && RequestOk(s, r) && RequestOk(s, q) && Compatible(r, q)
    ensures var t := s.(placement := s.placement[r.index := Completed(s.placement[r.index], r)]);
      RequestOk(t, q)
  {
    var e := s.placement[r.index];
    assert EntryOk(s, r.index, e);
    if q.index == r.index {
      if EvictionOk(e, r) && EvictionOk(e, q) {
        var k: nat :| Names(e, k, r.fast, r.tag, r.slow, r.size);
        var j: nat :| Names(e, j, q.fast, q.tag, q.slow, q.size);
        NamesUnique(e, k, j, r.fast, r.tag, r.slow, r.size, q.fast, q.tag, q.slow, q.size);
        OccupiedIsNamed(e, r, k);
        EvictionKeepsNames(e, k, j, q.fast, q.tag, q.slow, q.size);
      }
    }
  }

  lemma FinishKeeps(s: State)
    requires Inv(s)
    ensures s.queue != [] ==> RequestOk(s, s.queue[0])
    ensures Inv(Finish(s))
  {
    if s.queue != [] {
      var r := s.queue[0];
      var t := Finish(s);
      assert RequestOk(s, r);
      CompletedOk(s, r);
      forall i | 0 <= i < t.sets ensures EntryOk(t, i, t.placement[i]) {
        assert EntryOk(s, i, s.placement[i]);
      }
      forall j | 0 <= j < |t.queue| ensures RequestOk(t, t.queue[j]) {
        assert Compatible(s.queue[0], s.queue[j + 1]);
        OthersStayOk(s, r, s.queue[j + 1]);
      }
      forall i, j | 0 <= i < j < |t.queue| ensures Compatible(t.queue[i], t.queue[j]) {
        assert Compatible(s.queue[i + 1], s.queue[j + 1]);
      }
    }
  }

  /** Per set the queue holds one move, or only evictions of different groups that are live. */
  lemma QueuePerSet(s: State, i: nat, j: nat)
    requires Inv(s) && i < j < |s.queue| && s.queue[i].index == s.queue[j].index
    ensures var e := s.placement[s.queue[i].index];
      var a, b := s.queue[i], s.queue[j];
      exists m: nat, n: nat :: m != n
        && Names(e, m, a.fast, a.tag, a.slow, a.size) && Names(e, n, b.fast, b.tag, b.slow, b.size)
  {
    var a, b := s.queue[i], s.queue[j];
    var e := s.placement[a.index];
    assert Compatible(a, b) && RequestOk(s, a) && RequestOk(s, b) && EntryOk(s, a.index, e);
    assert EvictionOk(e, a) && EvictionOk(e, b);
    var m: nat :| Names(e, m, a.fast, a.tag, a.slow, a.size);
    var n: nat :| Names(e, n, b.fast, b.tag, b.slow, b.size);
    NamesUnique(e, m, n, a.fast, a.tag, a.slow, a.size, b.fast, b.tag, b.slow, b.size);
  }

  // ----- The tables, updated in place --------------------------------------------------------------------

  /** An address: byte `offset` of line `line` of page `tag` of set `index`. */
  datatype Address = Address(tag: nat, index: nat, line: nat, offset: nat)

  class Remapper {
    const sets: nat
    const threshold: nat
    var placement: seq<Entry>
    var access: seq<seq<bool>>
    var counter: seq<nat>
    var hot: seq<bool>
    var queue: seq<Request>
    var congestion: nat
    var cycle: nat

    function View(): State
      reads this
    {
      State(sets, threshold, placement, access, counter, hot, queue, congestion, cycle)
    }

    constructor (blocks: nat, sets: nat, threshold: nat)
      requires 0 < sets && blocks <= PAGES_PER_SET * sets
      ensures View() == Initial(blocks, sets, threshold) && Inv(View())
    {
      this.sets, this.threshold := sets, threshold;
      placement := seq(sets, i => []);
      access := seq(blocks, i => seq(LINES, j => false));
      counter := seq(blocks, i => 0);
      hot := seq(blocks, i => false);
      queue, congestion, cycle := [], 0, 0;
    }

    /** The loop over the groups for a line of slow page `tag`. */
    static method LocateSlow(e: Entry, tag: nat, line: nat) returns (i: nat, used: nat)
      requires WellFormed(e)
      ensures i == FindSlow(e, tag, line, 0) && used == Offset(e, i)
    {
      used, i := 0, 0;
      while i < |e|
        invariant i <= |e| && used == Offset(e, i)
        invariant FindSlow(e, tag, line, 0) == FindSlow(e, tag, line, i)
      {
        if e[i].tag == tag {
          if e[i].start <= line && line <= e[i].start + e[i].size - 1 {
            return;
          }
        }
        used := used + e[i].size;
        i := i + 1;
      }
    }

    /** The loop over the groups for a line of the fast page. */
    static method LocateFast(e: Entry, line: nat) returns (i: nat, used: nat)
      requires WellFormed(e)
      ensures i == FindFast(e, line, 0) && used == Offset(e, i) <= line
    {
      used, i := 0, 0;
      while i < |e|
        invariant i <= |e| && used == Offset(e, i) <= line
        invariant FindFast(e, line, 0) == FindFast(e, line, i)
      {
        used := used + e[i].size;
        if line <= used - 1 {
          used := used - e[i].size;
          return;
        }
        i := i + 1;
      }
    }

    /** Physical to hardware address. */
    method PhysicalToHardware(a: Address) returns (h: Address)
      requires Inv(View()) && a.index < sets && a.line < LINES
      ensures h.index == a.index && h.offset == a.offset
      ensures Line(h.tag, h.line) == Translate(placement[a.index], Line(a.tag, a.line))
    {
      var e := placement[a.index];
      assert EntryOk(View(), a.index, e);
      h := a;
      if a.tag != 0 {
        var i, used := LocateSlow(e, a.tag, a.line);
        if i < |e| {
          h := a.(tag := 0, line := used + (a.line - e[i].start));
        }
      } else {
        var i, used := LocateFast(e, a.line);
        if i < |e| && e[i].tag != 0 {
          h := a.(tag := e[i].tag, line := e[i].start + (a.line - used));
        }
      }
    }

    method EnqueueRemappingRequest(r: Request) returns (accepted: bool)
      requires Inv(View()) && RequestOk(View(), r)
      modifies `queue, `congestion
      ensures View() == Enqueue(old(View()), r) && Inv(View())
      ensures accepted <==> Scan(old(queue), r, 0) != Reject
    {
      EnqueueKeeps(View(), r);
      var duplicated := false;
      var i := 0;
      while i < |queue|
        invariant i <= |queue| && !duplicated && queue == old(queue)
        invariant Scan(queue, r, 0) == Scan(queue, r, i)
      {
        if queue[i].index == r.index {
          duplicated := true;
          if r.fmLocation == 0 && queue[i].fmLocation == 0 {
            if SameAddresses(queue[i], r) {
              if r.size > queue[i].size {
                queue := queue[i := queue[i].(size := r.size)];
              }
              return true;
            }
          } else if r.smLocation == 0 && queue[i].smLocation == 0 {
            if SameAddresses(queue[i], r) {
              if r.size > queue[i].size {
                queue := queue[i := queue[i].(size := r.size)];
              }
              return true;
            } else if queue[i].fast != r.fast {
              duplicated := false;
              i := i + 1;
              continue;
            }
          }
          break;
        }
        i := i + 1;
      }
      if !duplicated {
        if |queue| < QUEUE_LENGTH {
          queue := queue + [r];
        } else {
          congestion := congestion + 1;
        }
      } else {
        return false;
      }
      return true;
    }

    method ColdDataEviction(index: nat, tag: nat, busy: bool)
      requires Inv(View()) && index < sets
      modifies `queue, `congestion
      ensures View() == EvictCold(old(View()), index, tag, busy) && Inv(View())
    {
      var e := placement[index];
      assert EntryOk(View(), index, e);
      var cold := false;
      var k := 0;
      var used := 0;
      while k < |e|
        invariant k <= |e| && !cold && used == Offset(e, k)
        invariant FindCold(View(), index, tag, 0) == FindCold(View(), index, tag, k)
      {
        assert e[k].size != 0;
        used := used + e[k].size;
        if e[k].tag == tag {
          k := k + 1;
          continue;
        } else if e[k].tag != 0 {
          if !hot[Block(sets, e[k].tag, index)] {
            cold := true;
            used := used - e[k].size;
            break;
          }
        }
        k := k + 1;
      }
      if cold {
        var i := k;
        while i < |e|
          invariant k <= i <= |e| && used == Offset(e, i)
          invariant placement == old(placement) && Inv(View())
          invariant EvictPage(View(), e, index, e[k].tag, i, busy)
                 == EvictPage(old(View()), e, index, e[k].tag, k, busy)
        {
          if e[i].tag == e[k].tag {
            var r := Request(index, used, e[i].tag, e[i].start, e[i].tag, 0, e[i].size);
            if !busy {
              EvictionRequestOk(View(), index, i);
              var _ := EnqueueRemappingRequest(r);
            }
          }
          used := used + e[i].size;
          i := i + 1;
        }
      }
    }

    method CountAccess(block: nat, line: nat)
      requires Inv(View()) && block < |counter| && line < LINES
      modifies `access, `counter, `hot
      ensures View() == Count(old(View()), block, line) && Inv(View())
    {
      CountKeeps(View(), block, line);
      access := access[block := access[block][line := true]];
      if counter[block] < COUNTER_MAX {
        counter := counter[block := counter[block] + 1];
      }
      if counter[block] >= threshold {
        hot := hot[block := true];
      }
    }

    /** The branch of a hot block of slow memory. */
    method TrackHot(index: nat, tag: nat, bits: seq<bool>, busy: bool)
      requires Inv(View()) && index < sets && tag != 0 && Block(sets, tag, index) < |counter|
      requires Bits(bits) && WellFormed(placement[index])
      modifies `queue, `congestion
      ensures View() == FollowPlan(old(View()), index, tag,
                          PlanFor(old(placement[index]), tag, First(bits, 0), Last(bits, LINES)), busy)
      ensures Inv(View())
    {
      var e := placement[index];
      var first, last := AccessedSpan(bits);
      FollowPlanKeeps(View(), index, tag, first, last, busy);
      PlanFits(e, tag, first, last);
      var p := MakePlan(e, tag, first, last);
      match p {
        case Hit =>
        case Evict => ColdDataEviction(index, tag, busy);
        case MoveIn(start, n) =>
          var free := FreeSpace(e);
          if !busy {
            var _ := EnqueueRemappingRequest(Request(index, LINES - free, tag, start, 0, tag, n));
          }
      }
    }

    /** The branch of a cold block of slow memory. */
    method TrackCold(index: nat, tag: nat, line: nat, busy: bool)
      requires Inv(View()) && index < sets && tag != 0
      modifies `queue, `congestion
      ensures View() == if FindSlow(old(placement[index]), tag, line, 0) < |old(placement[index])| then old(View())
                        else EvictCold(old(View()), index, tag, busy)
      ensures Inv(View())
    {
      assert EntryOk(View(), index, placement[index]);
      var i, _ := LocateSlow(placement[index], tag, line);
      if i == |placement[index]| {
        ColdDataEviction(index, tag, busy);
      }
    }

    /** The branch of a block of fast memory. */
    method TrackFast(index: nat, line: nat, busy: bool)
      requires Inv(View()) && index < sets && line < LINES
      modifies `queue, `congestion
      ensures View() == CallHome(old(View()), index, line, busy) && Inv(View())
    {
      var e := placement[index];
      assert EntryOk(View(), index, e);
      var i, used := LocateFast(e, line);
      if i < |e| && e[i].tag != 0 && !busy {
        EvictionRequestOk(View(), index, i);
        var _ := EnqueueRemappingRequest(Request(index, used, e[i].tag, e[i].start, e[i].tag, 0, e[i].size));
      }
    }

    method MemoryActivityTracking(block: nat, line: nat, busy: bool) returns (ok: bool)
      requires Inv(View()) && line < LINES
      modifies `access, `counter, `hot, `queue, `congestion
      ensures View() == Track(old(View()), block, line, busy) && Inv(View())
      ensures ok <==> block < |old(counter)|
    {
      if block >= |counter| {
        return false;
      }
      BlockSplit(View(), block);
      var index := block % sets;
      var tag := block / sets;
      CountAccess(block, line);
      assert EntryOk(View(), index, placement[index]);
      assert access[block][line];
      if hot[block] && tag != 0 {
        TrackHot(index, tag, access[block], busy);
      } else if !hot[block] && tag != 0 {
        TrackCold(index, tag, line, busy);
      } else {
        TrackFast(index, line, busy);
      }
      return true;
    }

    method ColdDataDetection()
      requires Inv(View())
      modifies `counter, `hot, `access, `cycle
      ensures View() == Tick(old(View())) && Inv(View())
    {
      TickKeeps(View());
      if cycle % INTERVAL == 0 {
        ghost var s := View();
        var b := 0;
        while b < |counter|
          invariant b <= |counter| == |s.counter| && |hot| == |s.hot| && |access| == |s.access| && cycle == s.cycle
          invariant forall i :: 0 <= i < |s.counter| ==>
            counter[i] == (if i < b then Cool(s).counter[i] else s.counter[i])
          invariant forall i :: 0 <= i < |s.counter| ==>
            hot[i] == (if i < b then Cool(s).hot[i] else s.hot[i])
          invariant forall i :: 0 <= i < |s.counter| ==>
            access[i] == (if i < b then Cool(s).access[i] else s.access[i])
        {
          counter := counter[b := counter[b] / 2];
          if counter[b] == 0 {
            hot := hot[b := false];
            access := access[b := seq(LINES, j => false)];
          }
          b := b + 1;
        }
        assert counter == Cool(s).counter && hot == Cool(s).hot && access == Cool(s).access;
      }
      cycle := cycle + 1;
    }

    method IssueRemappingRequest() returns (some: bool, r: Request)
      ensures some <==> queue != []
      ensures some ==> r == queue[0]
    {
      r := Request(0, 0, 0, 0, 0, 0, 0);
      some := queue != [];
      if some {
        r := queue[0];
      }
    }

    /** None of the source's assertions fails: each is an `assert` here. */
    method FinishRemappingRequest() returns (ok: bool)
      requires Inv(View())
      modifies `queue, `placement
      ensures View() == Finish(old(View())) && Inv(View())
      ensures ok <==> old(queue) != []
    {
      if queue == [] {
        return false;
      }
      FinishKeeps(View());
      var r := queue[0];
      var e := placement[r.index];
      assert EntryOk(View(), r.index, e);
      queue := queue[1..];
      if r.fmLocation == 0 {
        MovedInShape(e, r.tag, r.slow, r.size);
        if |e| > 0 && e[|e| - 1].tag == r.smLocation && e[|e| - 1].start <= r.slow {
          e := e[|e| - 1 := e[|e| - 1].(size := e[|e| - 1].size + r.size)];
        } else {
          assert |e| < SLOTS;
          e := e + [Group(r.smLocation, r.slow, r.size)];
          var free := FreeSpace(e);
        }
      } else {
        assert r.smLocation == 0;
        e := Release(e, r);
        var free := FreeSpace(e);
      }
      placement := placement[r.index := e];
      return true;
    }

    /** The branch of an eviction: find the group, mark the hole, step the cursor back. */
    method Release(e: Entry, r: Request) returns (f: Entry)
      requires WellFormed(e) && Trimmed(e) && EvictionOk(e, r)
      ensures f == Completed(e, r) && WellFormed(f)
    {
      ghost var k: nat :| Names(e, k, r.fast, r.tag, r.slow, r.size);
      OccupiedIsNamed(e, r, k);
      EvictedWellFormed(e, k);
      var found := false;
      var used := 0;
      var i := 0;
      while i < |e|
        invariant i <= k && used == Offset(e, i) && !found
        invariant FindOccupied(e, r.fast, r.fmLocation, 0) == FindOccupied(e, r.fast, r.fmLocation, i)
      {
        used := used + e[i].size;
        if r.fast <= used - 1 {
          if e[i].tag == r.fmLocation {
            assert e[i].size == r.size;
            found := true;
            break;
          }
        }
        i := i + 1;
      }
      assert found && i == k;
      f := e[i := Group(r.smLocation, r.fast, r.size)];
      if i + 1 == |f| {
        assert f[..i] == e[..k];
        f := StepBack(f[..i]);
      }
    }

    /** The cursor steps back over the holes in front of it. */
    static method StepBack(e: Entry) returns (f: Entry)
      ensures f == TrimHoles(e)
    {
      f := e;
      while |f| > 0 && f[|f| - 1].tag == 0
        invariant TrimHoles(f) == TrimHoles(e)
      {
        f := f[..|f| - 1];
      }
    }
  }
}
