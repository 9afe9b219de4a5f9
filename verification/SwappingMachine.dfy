/** The swapping unit as an object: the buffer is an array that loops and callbacks update in
    place. Every method is proved against the functions of SwappingUnit. */
module SwappingMachine {
  import opened SwappingUnit
  import opened SwappingInvariants
  import opened SwappingRuns

  class Swapper {
    var mem: seq<Data>
    var flights: seq<Flight>
    const fast: nat
    const buffer: array<Entry>
    var base1: nat
    var base2: nat
    var active: nat
    var finished: nat
    var swapping: bool
    ghost var orig1: seq<Data>
    ghost var orig2: seq<Data>
    var log: seq<Absorbed>

    ghost function View(): State
      reads this, buffer
    {
      State(mem, fast, buffer[..], base1, base2, active, finished, swapping, flights, orig1, orig2, log)
    }

    constructor (mem: seq<Data>, fast: nat)
      requires fast <= |mem|
      ensures fresh(buffer) && View() == Initial(mem, fast)
    {
      this.mem, this.fast, flights, log := mem, fast, [], [];
      buffer := new Entry[ENTRIES](i => EMPTY_ENTRY);
      base1, base2, active, finished, swapping := 0, 0, 0, 0, false;
      orig1, orig2 := [], [];
      new;
      assert buffer[..] == seq(ENTRIES, i => EMPTY_ENTRY);
    }

    method InitializeSwapping()
      requires buffer.Length == ENTRIES
      modifies this, buffer
      ensures View() == Reset(old(View()))
    {
      swapping := false;
      var i := 0;
      while i < buffer.Length
        invariant 0 <= i <= buffer.Length
        invariant View() == old(View()).(swapping := false, buffer := buffer[..])
        invariant forall k :: 0 <= k < i ==> buffer[k] == EMPTY_ENTRY
      {
        buffer[i] := EMPTY_ENTRY;
        i := i + 1;
      }
      base1, base2, active, finished, log := 0, 0, 0, 0, [];
      orig1, orig2 := [], [];
      assert buffer[..] == seq(ENTRIES, i => EMPTY_ENTRY);
    }

    method StartSwappingSegments(address1: nat, address2: nat, size: nat) returns (started: bool)
      requires Segments(View(), address1, address2, size)
      modifies this
      ensures View() == Start(old(View()), address1, address2, size) && started == !old(swapping)
    {
      if swapping {
        return false;
      }
      swapping, base1, base2, active, log := true, address1, address2, size, [];
      orig1, orig2 := mem[address1..address1 + size], mem[address2..address2 + size];
      return true;
    }

    method UpdateSwappingSegments(address1: nat, address2: nat, size: nat) returns (updated: bool)
      requires Segments(View(), address1, address2, size)
      modifies this
      ensures View() == Update(old(View()), address1, address2, size)
      ensures updated == Grows(old(View()), address1, address2, size)
    {
      if address1 == base1 && address2 == base2 {
        if size > active {
          orig1 := orig1 + mem[base1 + active..base1 + size];
          orig2 := orig2 + mem[base2 + active..base2 + size];
          active, swapping := size, true;
          return true;
        }
      }
      return false;
    }

    method IssueRead(i: nat, j: nat, ok: bool)
      requires SizesOk(View()) && i < active && Seg(j)
      modifies this, buffer
      ensures View() == SendRead(old(View()), i, j, ok)
    {
      var c := Side(buffer[i], j);
      if !c.issued {
        var address := (if j == 1 then base1 else base2) + i;
        if ok {
          flights := flights + [Flight(address, mem[address])];
          buffer[i] := SetSide(buffer[i], j, c.(issued := true));
        }
      }
    }

    method IssueWrite(i: nat, j: nat, ok: bool)
      requires SizesOk(View()) && i < active && Seg(j)
      modifies this, buffer
      ensures View() == SendWrite(old(View()), i, j, ok)
    {
      var c := Side(buffer[i], j);
      if !c.write || c.dirty {
        var address := (if j == 1 then base1 else base2) + i;
        if ok {
          mem := mem[address := c.data];
          buffer[i] := SetSide(buffer[i], j, c.(write := true, dirty := false, flushed := |log|));
        }
      }
    }

    method IssueReads(a: Accepts)
      requires SizesOk(View())
      modifies this, buffer
      ensures View() == ReadPhase(old(View()), old(active), a)
    {
      ghost var s := View();
      var i := 0;
      while i < active
        invariant 0 <= i <= active == s.active
        invariant SizesOk(s) && View() == ReadPhase(s, i, a)
      {
        if !buffer[i].finish {
          IssueRead(i, 1, a.read(i, 1));
          IssueRead(i, 2, a.read(i, 2));
        }
        i := i + 1;
      }
    }

    method IssueEntryWrites(i: nat, a: Accepts)
      requires SizesOk(View()) && i < active
      modifies this, buffer
      ensures View() == EntryWrites(old(View()), i, a)
    {
      if !buffer[i].finish {
        if buffer[i].one.read && buffer[i].two.read {
          IssueWrite(i, 1, a.write(i, 1));
          IssueWrite(i, 2, a.write(i, 2));
        }
        if buffer[i].one.write && buffer[i].two.write {
          buffer[i] := buffer[i].(finish := true);
          finished := finished + 1;
        }
      }
    }

    method OperateSwapping(a: Accepts) returns (status: Status)
      requires SizesOk(View())
      modifies this, buffer
      ensures View() == Operated(old(View()), a) && status == StatusOf(old(View()), a)
    {
      if !swapping {
        return Idle;
      }
      IssueReads(a);
      ghost var t := View();
      var i := 0;
      while i < active
        invariant 0 <= i <= active == t.active
        invariant SizesOk(t) && View() == WritePhase(t, i, a)
      {
        IssueEntryWrites(i, a);
        i := i + 1;
      }
      if finished == active {
        swapping := false;
        return Done;
      }
      return Busy;
    }

    /** The memory answers read `k`. */
    method ReturnSwappingData(k: nat)
      requires Inv(View()) && k < |flights|
      modifies this, buffer
      ensures View() == Returned(old(View()), k) && Inv(View())
    {
      ReturnedKeeps(View(), k);
      ReturnedFills(View(), k);
      var f := flights[k];
      flights := flights[..k] + flights[k + 1..];
      if base1 <= f.addr < base1 + active {
        var i := f.addr - base1;
        var c := buffer[i].two;
        if !buffer[i].finish && !c.write && !c.dirty {
          buffer[i] := buffer[i].(two := c.(data := f.value, read := true));
        }
      } else {
        // An answer for a foreign line is impossible.
        assert base2 <= f.addr < base2 + active;
        var i := f.addr - base2;
        var c := buffer[i].one;
        if !buffer[i].finish && !c.write && !c.dirty {
          buffer[i] := buffer[i].(one := c.(data := f.value, read := true));
        }
      }
    }

    method CheckReadRequest(address: nat) returns (answer: Answer)
      requires SizesOk(View())
      ensures answer == CheckRead(View(), address)
    {
      var e, c;
      if base1 <= address < base1 + active {
        e := buffer[address - base1];
        c := e.one;
      } else if base2 <= address < base2 + active {
        e := buffer[address - base2];
        c := e.two;
      } else {
        return ToMemory;
      }
      if e.finish || c.read || c.write || c.dirty {
        return FromBuffer(c.data.word);
      }
      return Stall;
    }

    /** Absorbs the write if its line has been read. */
    method CheckWriteRequest(address: nat, word: int) returns (answer: Answer)
      requires Inv(View()) && address < |mem|
      modifies this, buffer
      ensures answer == CheckWrite(old(View()), address, word)
      ensures View() == if answer.FromBuffer? then Written(old(View()), address, word, true) else old(View())
    {
      var i, j;
      if base1 <= address < base1 + active {
        i, j := address - base1, 1;
      } else if base2 <= address < base2 + active {
        i, j := address - base2, 2;
      } else {
        return ToMemory;
      }
      var e := buffer[i];
      if e.one.read && e.two.read {
        var c := Side(e, j);
        if e.finish {
          CountPositive(buffer[..], active, i);
          finished := finished - 1;
        }
        buffer[i] := SetSide(e, j, c.(data := c.data.(word := word), dirty := true)).(finish := false);
        log := log + [Absorbed(j, i, word)];
        return FromBuffer(word);
      }
      return Stall;
    }

    /** A processor write: only when the unit lets it pass is it sent to memory. */
    method AddWriteRequest(address: nat, word: int, ok: bool) returns (accepted: bool)
      requires Inv(View()) && address < |mem|
      modifies this, buffer
      ensures View() == Written(old(View()), address, word, ok) && Inv(View())
      ensures accepted == (CheckWrite(old(View()), address, word).FromBuffer?
                           || (CheckWrite(old(View()), address, word).ToMemory? && ok))
    {
      WrittenKeeps(View(), address, word, ok);
      var answer := CheckWriteRequest(address, word);
      match answer
      case Stall => return false;
      case FromBuffer(_) => return true;
      case ToMemory =>
        if ok {
          mem := mem[address := mem[address].(word := word)];
        }
        return ok;
    }

    /** One cycle: operate, then start, grow or end a swap. */
    method Operate(a: Accepts, ask: Ask) returns (ended: bool)
      requires Inv(View()) && AskOk(View(), ask)
      modifies this, buffer
      ensures View() == Rounded(old(View()), a, ask) && Inv(View())
      ensures ended == (StatusOf(old(View()), a) == Done
                        && !Grows(Operated(old(View()), a), ask.base1, ask.base2, ask.size))
    {
      OperatedKeeps(View(), a);
      var status := OperateSwapping(a);
      ended := false;
      match status
      case Idle =>
        if ask.Ask? {
          var started := StartSwappingSegments(ask.base1, ask.base2, ask.size);
        }
      case Busy =>
        var grown := UpdateSwappingSegments(ask.base1, ask.base2, ask.size);
      case Done =>
        var updated := UpdateSwappingSegments(ask.base1, ask.base2, ask.size);
        if !updated {
          ended := true;
          InitializeSwapping();
        }
    }
  }
}
