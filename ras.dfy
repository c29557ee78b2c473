/** gem5's speculative Return Address Stack (ReturnAddrStack,
    src/cpu/pred/ras.cc) as a class over a fixed array of slots.

    Each method changes the fields in place as gem5's code does, and its
    postcondition ties the new state to the transition of the same name in
    RasSpec applied to the old state. */
module Ras {
  import RasSpec

  /** The source's `unsigned`. */
  newtype u32 = x: int | 0 <= x < 0x1_0000_0000

  class ReturnAddrStack<T> {
    /** The program-counter state that reset() writes into every slot. */
    const neutral: T
    /** Capacity; fixed once by the constructor. */
    const numEntries: u32
    /** The slots; allocated once by the constructor and never resized. */
    const addrStack: array<T>
    /** Index of the most recently pushed slot. */
    var tos: u32
    /** Number of slots counted as valid, saturating at numEntries. */
    var usedEntries: u32

    ghost predicate Valid()
      reads this
    {
      addrStack.Length == numEntries as int &&
      0 < numEntries && tos < numEntries && usedEntries <= numEntries
    }

    /** The value of the object, as RasSpec describes it. */
    ghost function Model(): (m: RasSpec.RasState<T>)
      reads this, addrStack
      requires Valid()
      ensures m.Valid() && m.Capacity() == numEntries as nat
    {
      RasSpec.RasState(addrStack[..], tos as nat, usedEntries as nat)
    }

    /** init(_numEntries): fix the capacity, allocate that many slots, reset. */
    constructor Init(n: u32, neutral: T)
      requires 0 < n
      ensures Valid() && fresh(addrStack)
      ensures numEntries == n && this.neutral == neutral
      ensures tos == 0 && usedEntries == 0
      ensures forall i :: 0 <= i < addrStack.Length ==> addrStack[i] == neutral
    {
      this.neutral := neutral;
      numEntries := n;
      addrStack := new T[n](_ => neutral);
      tos, usedEntries := 0, 0;
      new;
      Reset();
    }

    /** reset(): zero both counters and overwrite every slot, one at a time. */
    method Reset()
      requires Valid()
      modifies this`tos, this`usedEntries, addrStack
      ensures Valid()
      ensures Model() == RasSpec.Reset(old(Model()), neutral)
    {
      usedEntries := 0;
      tos := 0;
      var i: u32 := 0;
      while i < numEntries
        invariant i <= numEntries && tos == 0 && usedEntries == 0
        invariant forall j :: 0 <= j < i ==> addrStack[j] == neutral
      {
        addrStack[i] := neutral;
        i := i + 1;
      }
      assert addrStack[..] == RasSpec.Reset(old(Model()), neutral).entries;
    }

    /** incrTos(): step the cursor forward, wrapping to slot 0. */
    method IncrTos()
      requires Valid()
      modifies this`tos
      ensures Valid()
      ensures tos as nat == RasSpec.IncrTos(old(tos) as nat, numEntries as nat)
    {
      tos := (tos + 1) % numEntries;
    }

    /** decrTos(): step the cursor back, wrapping to the last slot. */
    method DecrTos()
      requires Valid()
      modifies this`tos
      ensures Valid()
      ensures tos as nat == RasSpec.DecrTos(old(tos) as nat, numEntries as nat)
    {
      tos := if tos == 0 then numEntries - 1 else tos - 1;
    }

    /** push(return_addr). */
    method Push(returnAddr: T)
      requires Valid()
      modifies this`tos, this`usedEntries, addrStack
      ensures Valid()
      ensures Model() == RasSpec.Push(old(Model()), returnAddr)
    {
      IncrTos();
      addrStack[tos] := returnAddr;
      if usedEntries != numEntries {
        usedEntries := usedEntries + 1;
      }
    }

    /** pop(): the slots are not touched (addrStack is outside the frame). */
    method Pop()
      requires Valid()
      modifies this`tos, this`usedEntries
      ensures Valid()
      ensures Model() == RasSpec.Pop(old(Model()))
    {
      if usedEntries > 0 {
        usedEntries := usedEntries - 1;
      }
      DecrTos();
    }

    /** restore(top_entry_idx, restored). */
    method Restore(topEntryIdx: u32, restored: T)
      requires Valid() && topEntryIdx < numEntries
      modifies this`tos, addrStack
      ensures Valid()
      ensures Model() == RasSpec.Restore(old(Model()), topEntryIdx as nat, restored)
    {
      tos := topEntryIdx;
      addrStack[tos] := restored;
    }
  }

  /** Two slots: push x, push y, pop, then restore the checkpoint taken after
      the first push. */
  method TwoSlotScenario<T>(x: T, y: T, zero: T)
  {
    var ras := new ReturnAddrStack.Init(2, zero);
    ras.Push(x);
    var savedTop, savedValue := ras.tos, ras.addrStack[ras.tos];
    assert savedValue == x && ras.usedEntries == 1;
    ras.Push(y);
    assert ras.addrStack[ras.tos] == y && ras.usedEntries == 2;
    ras.Pop();
    assert ras.usedEntries == 1 && ras.tos == savedTop && ras.addrStack[ras.tos] == x;
    ras.Restore(savedTop, savedValue);
    assert ras.tos == savedTop && ras.addrStack[ras.tos] == x && ras.usedEntries == 1;
  }

  /** Three slots, four pushes: the cursor visits 1, 2, 0, 1 and the fourth
      address overwrites the first. */
  method WraparoundScenario<T>(a: T, b: T, c: T, d: T, zero: T)
  {
    var ras := new ReturnAddrStack.Init(3, zero);
    ras.Push(a);
    assert ras.tos == 1 && ras.addrStack[1] == a;
    ras.Push(b);
    assert ras.tos == 2 && ras.addrStack[2] == b;
    ras.Push(c);
    assert ras.tos == 0 && ras.addrStack[0] == c && ras.usedEntries == 3;
    ras.Push(d);
    assert ras.tos == 1 && ras.addrStack[1] == d && ras.usedEntries == 3;
    assert ras.addrStack[..] == [c, d, b];
  }
}
