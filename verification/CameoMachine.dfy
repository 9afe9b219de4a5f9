/** The line location table as an object whose tables and queue are updated in place. Every method
    is proved against the functions of Cameo. */
module CameoMachine {
  import opened Cameo

  class LineLocator {
    const fast: nat
    const members: nat
    const slots: nat
    const threshold: nat
    const entries: array<Entry>
    const counter: array<nat>
    const hot: array<bool>
    var queue: seq<Request>
    var congestion: nat

    ghost function View(): State
      reads this, entries, counter, hot
    {
      State(fast, members, slots, threshold, entries[..], counter[..], hot[..], queue, congestion)
    }

    constructor (fast: nat, members: nat, slots: nat, threshold: nat)
      requires 0 < fast && 1 <= members <= slots <= 64
      ensures fresh(entries) && fresh(counter) && fresh(hot)
      ensures View() == Initial(fast, members, slots, threshold) && Inv(View())
    {
      this.fast, this.members, this.slots, this.threshold := fast, members, slots, threshold;
      entries := new Entry[fast](g => Identity(slots));
      counter := new nat[fast * members](b => 0);
      hot := new bool[fast * members](b => false);
      queue, congestion := [], 0;
      new;
      InitialKeeps(fast, members, slots, threshold);
      assert entries[..] == Initial(fast, members, slots, threshold).entries;
      assert counter[..] == Initial(fast, members, slots, threshold).counter;
      assert hot[..] == Initial(fast, members, slots, threshold).hot;
    }

    method PhysicalToHardware(line: nat) returns (h: nat)
      requires Sized(View()) && line < counter.Length
      ensures h == Translate(View(), line)
    {
      LineWhole(View(), line);
      h := entries[line % fast][line / fast] * fast + line % fast;
    }

    /** The slot of the group that holds location 0, or the number of slots. */
    method FindFastSlot(e: Entry) returns (k: nat)
      ensures k == FindZero(e, 0)
    {
      k := 0;
      while k < |e|
        invariant k <= |e| && FindZero(e, 0) == FindZero(e, k)
      {
        if e[k] == 0 {
          return;
        }
        k := k + 1;
      }
    }

    method EnqueueRequest(r: Request) returns (ok: bool)
      requires Sized(View())
      modifies this`queue, this`congestion
      ensures ok == Enqueued(old(View()), r).Running?
      ensures ok ==> View() == Enqueued(old(View()), r).state
    {
      for i := 0 to |queue|
        invariant forall k :: 0 <= k < i ==> queue[k].fmLine % fast != r.fmLine % fast
      {
        if queue[i].fmLine % fast == r.fmLine % fast {
          assert Group(View(), queue[i].fmLine) == Group(View(), r.fmLine);
          return true;
        }
      }
      assert !GroupQueued(View(), Group(View(), r.fmLine));
      if |queue| < QUEUE_LENGTH {
        if r.fmLine == r.smLine {
          return false;
        }
        queue := queue + [r];
      } else {
        congestion := congestion + 1;
      }
      return true;
    }

    method CountAccess(line: nat)
      requires Sized(View()) && line < counter.Length
      modifies counter, hot
      ensures View() == Counted(old(View()), line)
    {
      if counter[line] < COUNTER_MAX {
        counter[line] := counter[line] + 1;
      }
      if counter[line] >= threshold {
        hot[line] := true;
      }
    }

    /** Counts an access and may queue an exchange; no error exit is reached. */
    method MemoryActivityTracking(line: nat, busy: bool)
      requires Inv(View())
      modifies this`queue, this`congestion, counter, hot
      ensures Running(View()) == Tracked(old(View()), line, busy) && Inv(View())
    {
      TrackedKeeps(View(), line, busy);
      if line >= counter.Length {
        return;
      }
      LineWhole(View(), line);
      var group, member := line % fast, line / fast;
      var e := entries[group];
      var location := e[member];
      CountAccess(line);
      if hot[line] && location != 0 {
        var k := FindFastSlot(e);
        if !busy {
          var ok := EnqueueRequest(Request(e[k] * fast + group, location * fast + group, k, member));
          assert ok;
        }
      }
    }

    /** The sum of an entry's locations, in eight bits. */
    method SumLocations(e: Entry) returns (sum: nat)
      ensures sum == WrapSum(e, |e|)
    {
      sum := 0;
      for i := 0 to |e|
        invariant sum == WrapSum(e, i)
      {
        sum := (sum + e[i]) % 256;
      }
    }

    /** Carries out the head request; no error exit is reached. */
    method FinishRequest()
      requires Inv(View()) && queue != []
      modifies this`queue, entries
      ensures Running(View()) == Finished(old(View())) && Inv(View())
    {
      FinishedKeeps(View());
      assert RequestOk(View(), queue[0]);
      ghost var s := View();
      var r := queue[0];
      queue := queue[1..];
      var group := r.fmLine % fast;
      var e := entries[group];
      var fmLocation, smLocation := e[r.fm], e[r.sm];
      e := e[r.sm := fmLocation];
      e := e[r.fm := smLocation];
      entries[group] := e;
      assert fmLocation != smLocation;
      var sum := SumLocations(e);
      var correct := SumLocations(Identity(slots));
      assert sum == correct;
      assert View() == Finished(s).state;
    }
  }
}
