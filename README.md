# Return Address Stack — a verified Dafny model

This project models gem5's speculative Return Address Stack
(`ReturnAddrStack`, `src/cpu/pred/ras.cc`). A branch predictor uses it to guess
where a subroutine return will jump. It is a fixed-capacity circular buffer of
opaque program-counter states. It has a top-of-stack cursor `tos` and an
occupancy counter `usedEntries`, and five operations: `init`, `reset`, `push`,
`pop` and `restore`.

The project has two modules:

- `RasSpec` (`ras_spec.dfy`) describes the stack as a value, `RasState`
  (slots, cursor, counter). Each operation is a pure transition (`Reset`,
  `Push`, `Pop`, `Restore`). The file also has the circular cursor arithmetic
  (`IncrTos`, `DecrTos`) and `Run`, which applies any sequence of operations.
  The properties of the stack are lemmas about these transitions.
- `Ras` (`ras.dfy`) is the class `ReturnAddrStack` over an `array<T>` with the
  source's fields. `numEntries`, `tos` and `usedEntries` are modelled as 32-bit
  unsigned (`u32`), so every increment is checked for overflow. Each method
  updates the fields in place, as the source does. Its postcondition states the
  new `Model()` as the `RasSpec` transition applied to the old one. `Valid()`
  is the object invariant: `0 <= tos < numEntries` and
  `usedEntries <= numEntries`.

The program-counter state type is the type parameter `T`. The neutral value
that `PCState::set(0)` produces is passed to the constructor and kept in the
constant `neutral`.

Two client methods drive the class through fixed operation sequences and assert
the results. `TwoSlotScenario` does push, push, pop, then restore. `WraparoundScenario`
pushes four values into three slots; the cursor visits 1, 2, 0, 1.

The code's guard for counting a pushed entry is `usedEntries != numEntries`
(`src/cpu/pred/ras.cc:57`), and the model keeps the `!=`. Under `Valid()` it
acts as `usedEntries < numEntries`, which the `Min` postcondition of
`RasSpec.Push` states.

## Model

| member | source | states |
|---|---|---|
| `Ras.ReturnAddrStack.Init` | src/cpu/pred/ras.cc:33-39 | init fixes the capacity to n, allocates exactly n fresh slots, and leaves the reset state: tos 0, usedEntries 0, every slot neutral; the invariant holds |
| `Ras.ReturnAddrStack.Reset` | src/cpu/pred/ras.cc:41-48 | the slot-by-slot loop leaves tos 0, usedEntries 0 and every slot neutral (new state equals `RasSpec.Reset` of the old); the invariant is kept |
| `Ras.ReturnAddrStack.IncrTos` | src/cpu/pred/ras.cc:53 | the cursor moves to its circular successor and stays below numEntries |
| `Ras.ReturnAddrStack.DecrTos` | src/cpu/pred/ras.cc:69 | the cursor moves to its circular predecessor and stays below numEntries |
| `Ras.ReturnAddrStack.Push` | src/cpu/pred/ras.cc:50-60 | new state equals `RasSpec.Push` of the old; the 32-bit counter increment never overflows; the invariant is kept |
| `Ras.ReturnAddrStack.Pop` | src/cpu/pred/ras.cc:62-70 | new state equals `RasSpec.Pop` of the old; the array is outside the frame, so no slot changes; the counter never underflows |
| `Ras.ReturnAddrStack.Restore` | src/cpu/pred/ras.cc:72-79 | given an index below numEntries, new state equals `RasSpec.Restore` of the old; the invariant is kept |
| `RasSpec.IncrTos` | src/cpu/pred/ras.cc:53 | the successor is below n and is tos + 1, or 0 when tos is the last slot |
| `RasSpec.DecrTos` | src/cpu/pred/ras.cc:69 | the predecessor is below n and is tos - 1, or the last slot when tos is 0 |
| `RasSpec.Reset` | src/cpu/pred/ras.cc:42-48 | the capacity is kept, the cursor and counter are 0, and every slot holds the neutral value |
| `RasSpec.Push` | src/cpu/pred/ras.cc:50-60 | the cursor is the circular successor, the new top holds the pushed value, every other slot is unchanged, the counter becomes min(used + 1, capacity), and validity is preserved |
| `RasSpec.Pop` | src/cpu/pred/ras.cc:62-70 | the slots are unchanged, the cursor is the circular predecessor, the counter decrements but never below 0, and validity is preserved |
| `RasSpec.Restore` | src/cpu/pred/ras.cc:72-79 | tos equals the index, that slot holds the restored value, the counter and every other slot are unchanged, and validity is preserved |
| `RasSpec.Run` | src/cpu/pred/ras.cc:50-79 | any sequence of push, pop and in-range restore keeps the cursor in range, keeps the counter within the capacity, and keeps the capacity |
| `RasSpec.IncrDecrInverse` | src/cpu/pred/ras.cc:50-70 | stepping the cursor forward then back, or back then forward, returns it to where it was |
| `RasSpec.ResetIdempotent` | src/cpu/pred/ras.cc:42-48 | resetting twice gives the same state as resetting once |
| `RasSpec.PushPopRoundTrip` | src/cpu/pred/ras.cc:50-70 | push then pop returns the cursor; it returns the counter unless the stack was full (then capacity - 1); the only slot changed is the one the push wrote |
| `RasSpec.PushAllEffect` | src/cpu/pred/ras.cc:50-60 | after k pushes the cursor has advanced by k (mod capacity) and the counter is min(used + k, capacity); the newest min(k, capacity) values sit behind the cursor, newest first; every slot not written keeps its contents |
| `RasSpec.PushesFromReset` | src/cpu/pred/ras.cc:42-60 | from reset, 1 <= N <= capacity pushes give usedEntries N, tos N mod capacity, and the last pushed value on top |
| `RasSpec.PushBeyondCapacity` | src/cpu/pred/ras.cc:50-60 | from reset, capacity + 1 pushes saturate the counter at capacity; the slots hold exactly the newest capacity values; the first value's slot now holds the last |
| `RasSpec.PopAfterPushes` | src/cpu/pred/ras.cc:42-70 | a pop after 1..capacity pushes from reset gives counter N - 1 and cursor N - 1; the top is then the previous push, or neutral after a single push (with one slot, that push is still on top) |
| `RasSpec.RestoreUndoesPop` | src/cpu/pred/ras.cc:62-79 | restoring the checkpoint (tos, top value) taken before a pop gives back the cursor and every slot; the counter keeps the pop's value |
| `RasSpec.RestoreUndoesPush` | src/cpu/pred/ras.cc:50-79 | restoring the checkpoint taken before a push gives back the cursor and the top value; every slot except the one the push wrote is as before; the counter keeps the push's value |
| `RasSpec.RestoreAfterRun` | src/cpu/pred/ras.cc:72-79 | after any sequence of operations, restore(i, v) leaves tos i and v on top; the counter and all other slots are as the sequence left them |

## Left out

- `src/mem/dramsim3_wrapper.cc` is not part of this model. It only forwards calls to the external DRAMSim3 library, whose code is not available.
- The internals of `TheISA::PCState`. It is the opaque type parameter `T`, and the constructor's `neutral` argument stands for `set(0)`.
- `incrTos`/`decrTos` and the `top()` accessor are defined in `cpu/pred/ras.hh`, which is not part of this model. The cursor moves are modelled as `(tos + 1) % numEntries` and `tos == 0 ? numEntries - 1 : tos - 1`. `RasState.Top()` stands in for reading the top slot.
- `Ras.ReturnAddrStack.Init`: calling `init` again to resize is not modelled. `init` is the constructor, and `numEntries` and `addrStack` are constants afterwards. A capacity of 0 is excluded by a precondition; the source does not check it.
- `Ras.ReturnAddrStack.Init`: the values `vector::resize` gives new slots before `reset` runs are not modelled. The constructor fills the slots with `neutral`, and `reset` then overwrites them as gem5's code does.
- `Ras.ReturnAddrStack.Restore`: requires `topEntryIdx < numEntries`. The source does no range check and would write outside the vector.
- The branch-prediction unit's call/return detection, its checkpointing, and its reverse-order restore protocol are not modelled. Only the effect of a single `restore` is modelled.
- No claim is made that `usedEntries` equals the number of valid entries after a `restore`. The code does not recompute the counter there, and the model keeps that imprecision.
