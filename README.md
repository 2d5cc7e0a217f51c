# Signal/slot dispatcher — a Dafny model

This project models `sig::Signal<R(Args...), Combiner>` from `Signal.h`, a small
in-process observer. A signal keeps a table of callbacks ("slots"). Each slot is
stored under a key taken from a counter. `connectSlot` stores a callback and
returns its key. `disconnectSlot` erases a key. `emitSignal` calls every stored
slot in ascending key order and, unless the combiner's `result_type` is `void`,
feeds each return value to a combiner and returns the combiner's `result()`.
Three combiners are modelled: `DiscardCombiner`, `LastCombiner<T>` and
`VectorCombiner<T>`, plus the `void` specialisations of the last two.

Files:

- `combiners.dfy` (module `Combiners`): the combiner as a datatype value with
  `Combine`, `Result` and the moved-from state `MovedFrom`. `CombineAll` folds
  `combine` over a sequence of slot results. Lemmas state what each combiner
  ends up holding.
- `signal.dfy` (module `Signals`): the class `Signal` with fields `combiner`
  (`m_combiner`), `slots` (`m_slots`) and `nextId` (`m_id`).
  - `m_slots` is a sequence of `Entry(id, slot)` pairs kept in strictly
    ascending key order, as a `std::map` is. `Emplace` and `Erase` are
    `std::map::emplace` and `std::map::erase` on that sequence.
  - `TableOf` reads the sequence as a map from key to callback.
  - `RunSlots` is the reference definition of one pass over the table: slots are
    called in order and each one sees the state left by the previous one.
  - `Emit` is the loop of `emitSignal`, proved against `RunSlots` and `CombineAll`.
- `scenarios.dfy` (module `SignalScenarios`): the unit tests of
  `testSignal.cc`, and the Last and Vector combiners over slots returning 1, 2
  and 3. They are written as methods whose postconditions are the tests'
  expectations, proved from the specifications of `Signal`'s methods.

A slot is modelled as a total function `(W, A) -> (W, R)`. `A` is the argument
tuple. `W` is the state that the C++ lambdas capture by reference (`res1`,
`ints`, ...). The function returns the updated state and the slot's return value.
A `void` return is `()`. With this model, the side effects the tests check are
visible, and so is the order in which slots run.

The `void` case is chosen at compile time in C++ with `if constexpr`. Here the
combiner is a value of one datatype, so `Emit` tests `ResultIsVoid()` at run
time. The two branches match those of `emitSignal`.

Two consequences of the code that a user of the library may not expect:

- `Signal.h` has no First combiner and no empty-result error. A `LastCombiner`
  with no connected slots returns the value it already holds. On a fresh signal
  that is the value-initialised `T` passed as the constructor's default argument.
- The combiner is never reset between emissions. It is a field of the signal,
  and each emission starts from whatever the previous `result()` left behind.

## Model

| member | source | states |
|---|---|---|
| `Combiners.Combiner.ResultIsVoid` | Signal.h:17-122 | The combiner's `result_type` is `void` (lines 17, 75 and 122) exactly for DiscardCombiner and for the two specialisations without members, never for LastCombiner<T> or VectorCombiner<T>. This is the test `emitSignal` makes at line 161. |
| `Combiners.Combiner.HasMembers` | Signal.h:71-123 | Every combiner declares `combine` and `result` except LastCombiner<void> (lines 71-76) and VectorCombiner<void> (lines 118-123), which declare neither. |
| `Combiners.Combiner.Combine` | Signal.h:19-106 | DiscardCombiner's `combine` (lines 19-23) keeps it a DiscardCombiner. After `combine(item)` a LastCombiner's `result()` is the item, whatever it held before (unconditional overwrite). A VectorCombiner's `result()` is its previous buffer with the item appended. LastCombiner's is at lines 56-60 and VectorCombiner's at lines 102-106. The combiner's kind never changes. |
| `Combiners.Combiner.Result` | Signal.h:25-111 | `result()` returns nothing exactly when `result_type` is `void` (DiscardCombiner, lines 25-28). A LastCombiner returns its held value (lines 62-65). A VectorCombiner returns its whole buffer (lines 108-111). |
| `Combiners.Combiner.MovedFrom` | Signal.h:108-111 | After `result()` a VectorCombiner's buffer is empty. A LastCombiner still returns what it held. |
| `Combiners.CombineAll` | Signal.h:170-173 | Folding `combine` over the slot results, in order, never changes which combiner it is. |
| `Combiners.CollectAll` | Signal.h:102-106 | A VectorCombiner holding `held` ends up holding `held` followed by every item, in arrival order. |
| `Combiners.KeepLast` | Signal.h:56-60 | A LastCombiner ends up holding the last item. If there are no items it keeps what it held. |
| `Combiners.DiscardAll` | Signal.h:19-23 | DiscardCombiner's `combine` ignores every item. |
| `Signals.TableOf` | Signal.h:180 | The map view of the table has exactly the table's keys. |
| `Signals.Emplace` | Signal.h:149 | `emplace` keeps the table in key order and adds the key. If the key is already present, the table is unchanged. |
| `Signals.EmplaceTable` | Signal.h:149 | An `emplace` under an absent key maps exactly that key to the callback, and leaves every other key as it was. |
| `Signals.Erase` | Signal.h:156 | `erase` removes exactly the given key from the key set and keeps key order. |
| `Signals.RunSlots` | Signal.h:163-166 | A pass over the table yields exactly one return value per slot. |
| `Signals.Signal.constructor` | Signal.h:141-144 | A new signal holds the given combiner, no slots, and counter 0. |
| `Signals.Signal.Connect` | Signal.h:146-152 | Returns the old counter, which was not a key. Stores the callback under it, at the end of the table. Increases the counter by exactly one. The invariant (keys ascending, all below the counter) is kept. |
| `Signals.Signal.Disconnect` | Signal.h:154-157 | Removes exactly the entry under `id`, keeping the others and their order. Does nothing when `id` is absent. The counter and combiner are unchanged. |
| `Signals.Signal.Emit` | Signal.h:159-176 | Calls every slot once, in key order, and returns the resulting state. Table and counter are unchanged. For a `void` result_type the combiner is untouched and nothing is returned. Otherwise the returned result is `result()` of the combiner after combining every slot's value in key order, and the moved-from state is left in the field. |
| `Signals.EmplaceAboveAll` | Signal.h:148-150 | When every key is below the counter, `emplace` under the counter always inserts, and it inserts at the end. So connection order is key order. |
| `Signals.EraseTable` | Signal.h:154-157 | Erasing a key removes exactly that key from the map view. Every other key keeps its callback. |
| `Signals.EraseAbsent` | Signal.h:154-157 | Erasing an absent key leaves the table unchanged. |
| `Signals.ErasePresent` | Signal.h:154-157 | Erasing the key at position `k` removes only that entry. The remaining slots keep their relative order. |
| `Signals.TableAt` | Signal.h:163-166 | Walking the table in key order meets each stored key exactly once. The callback met there is the one stored under that key. |
| `Signals.OutputAt` | Signal.h:170-173 | The k-th value fed to the combiner is the one returned by the k-th slot in key order. That slot is called on the state left by the slots before it. |
| `Signals.LastEmission` | Signal.h:170-174 | With a LastCombiner, emission returns the value of the slot with the highest key, which is the last one connected. With no slots it returns the held value. |
| `Signals.CollectEmission` | Signal.h:170-174 | With a VectorCombiner, emission returns the held buffer followed by one value per slot, in key order, each being that slot's return value. Its length is the held length plus the number of slots. |
| `SignalScenarios.UniqueIds` | testSignal.cc:10-21 | Three connections return three pairwise distinct keys. |
| `SignalScenarios.NoReuseAfterDisconnect` | Signal.h:146-157 | A key is not handed out again after its slot is disconnected. |
| `SignalScenarios.DisconnectOne` | testSignal.cc:26-47 | Emitting 2 sets `res1 = 2` and `res2 = 4`. After the second slot is disconnected, emitting 3 sets only `res1`. |
| `SignalScenarios.DisconnectAll` | testSignal.cc:49-68 | Once both slots are disconnected, an emission changes nothing. |
| `SignalScenarios.KeepOtherAccess` | testSignal.cc:70-91 | Disconnecting the middle slot of three leaves the outer two running. |
| `SignalScenarios.MultipleArgsType` | testSignal.cc:97-117 | With two arguments, the slots push `1, 2` and `'a', 'b'`, in connection order. |
| `SignalScenarios.TestSubject` | testSignal.cc:131-146 | After emitting 1, the recording lambda holds 1. |
| `SignalScenarios.LastOfThree` | Signal.h:50-69 | With slots returning 1, 2 and 3, a LastCombiner returns 3. A fresh signal with no slots returns the value-initialised 0. |
| `SignalScenarios.CollectThree` | Signal.h:96-115 | With slots returning 1, 2 and 3, a VectorCombiner returns `[1, 2, 3]`. Because its buffer was moved out, it returns `[1, 2, 3]` again on the next emission. |

## Left out

- `Combiners.Combiner.MovedFrom`: a LastCombiner keeps its value after `result()` moves it out. This is exact for trivially copyable `T` such as `int`. For other types C++ leaves an unspecified moved-from value. A VectorCombiner is taken to be empty after the move, which is what `std::vector` does in practice.
- The `std::size_t` counter is a `nat`, so wrap-around at 2^64 is not modelled.
- `std::function` type erasure, closures, and the `printf` in the test file's `callback`. Slots are pure state transformers, and the printing slot leaves the state unchanged.
- `std::forward`/`std::move` of arguments and results, and move-only payloads. Values in the model are immutable.
- `Signals.Signal.Emit`: every slot receives the same `args`. In C++, lines 165 and 172 forward the by-value `args` as rvalues to each slot in turn, so with a by-value class-type argument such as `std::string`, a slot that moves from it leaves every later slot a moved-from value.
- Template machinery. This covers `if constexpr`, and the `LastCombinerBase`/`VectorCombinerBase` classes whose private do-nothing members cannot be reached. It also covers implicit conversions, such as a `char` argument passed to an `int` lambda: the combiner's item type is the slot's return type.
- In `MultipleArgsType`, storing `c + 1` back into a `char` is modelled as unsigned 8-bit truncation.
- An exception thrown by a slot, which would propagate out of `emitSignal`: slots are total functions.
- A slot that connects or disconnects while an emission is running, and concurrency. Neither is supported by the code.
- The gtest harness and `main` in `testSignal.cc`.
