/**
 The dispatcher `Signal<R(Args...), Combiner>`: an ordered table of slots keyed by
 a counter, connect and disconnect, and an emission that calls every slot in
 ascending key order and feeds each return value to the combiner.

 A slot is modelled as a state transformer: it receives the state `W` that its
 captures refer to together with the emitted arguments `A`, and returns the
 updated state and its return value `R`. For a `void` signature `R` is `()`.
 */
module Signals {
  import opened Combiners

  type Slot<!W, !A, R> = (W, A) -> (W, R)

  /** One entry of `m_slots`: a key and the callback stored under it. */
  datatype Entry<!W, !A, R> = Entry(id: nat, slot: Slot<W, A, R>)

  /** The state after the slots ran and the values they returned, in the order
      they ran. */
  datatype Run<W, R> = Run(world: W, outputs: seq<R>)

  /** The keys present in a table. */
  ghost function Keys<W, A, R>(e: seq<Entry<W, A, R>>): set<nat>
  {
    set k | 0 <= k < |e| :: e[k].id
  }

  /** The table is ordered by strictly ascending key, as a `std::map` is. */
  ghost predicate Ascending<W, A, R>(e: seq<Entry<W, A, R>>)
  {
    forall i, j :: 0 <= i < j < |e| ==> e[i].id < e[j].id
  }

  /** The table read as a map from key to callback. */
  ghost function TableOf<W, A, R>(e: seq<Entry<W, A, R>>): (t: map<nat, Slot<W, A, R>>)
    ensures t.Keys == Keys(e)
    decreases |e|
  {
    if e == [] then map[]
    else
      var p := e[..|e| - 1];
      assert Keys(e) == Keys(p) + {e[|e| - 1].id} by { KeysSnoc(p, e[|e| - 1]); assert p + [e[|e| - 1]] == e; }
      TableOf(p)[e[|e| - 1].id := e[|e| - 1].slot]
  }

  lemma KeysSnoc<W, A, R>(p: seq<Entry<W, A, R>>, x: Entry<W, A, R>)
    ensures Keys(p + [x]) == Keys(p) + {x.id}
  {
    var e := p + [x];
    forall key | key in Keys(e) ensures key in Keys(p) + {x.id} {
      var k :| 0 <= k < |e| && e[k].id == key;
      if k < |p| { assert p[k] == e[k]; }
    }
    forall key | key in Keys(p) ensures key in Keys(e) {
      var k :| 0 <= k < |p| && p[k].id == key;
      assert e[k] == p[k];
    }
    assert e[|p|] == x;
  }

  lemma AscendingSnoc<W, A, R>(p: seq<Entry<W, A, R>>, x: Entry<W, A, R>)
    ensures Ascending(p + [x]) <==> Ascending(p) && forall key :: key in Keys(p) ==> key < x.id
  {
    var e := p + [x];
    if Ascending(e) {
      forall key | key in Keys(p) ensures key < x.id {
        var k :| 0 <= k < |p| && p[k].id == key;
        assert e[k] == p[k] && e[|p|] == x;
      }
      forall i, j | 0 <= i < j < |p| ensures p[i].id < p[j].id {
        assert e[i] == p[i] && e[j] == p[j];
      }
    }
    if Ascending(p) && forall key :: key in Keys(p) ==> key < x.id {
      forall i, j | 0 <= i < j < |e| ensures e[i].id < e[j].id {
        if j < |p| {
          assert e[i] == p[i] && e[j] == p[j];
        } else {
          assert p[i].id in Keys(p) && e[i] == p[i];
        }
      }
    }
  }

  /** `std::map::emplace(id, slot)`: insert the entry at its place in key order,
      or leave the table unchanged when the key is already present. */
  function Emplace<W, A, R>(e: seq<Entry<W, A, R>>, id: nat, slot: Slot<W, A, R>): (r: seq<Entry<W, A, R>>)
    requires Ascending(e)
    ensures Ascending(r)
    ensures Keys(r) == Keys(e) + {id}
    ensures id in Keys(e) ==> r == e
    decreases |e|
  {
    if e == [] then
      KeysSnoc([], Entry(id, slot));
      assert [] + [Entry(id, slot)] == [Entry(id, slot)];
      [Entry(id, slot)]
    else
      var p, x := e[..|e| - 1], e[|e| - 1];
      assert e == p + [x];
      AscendingSnoc(p, x);
      KeysSnoc(p, x);
      if x.id == id then
        e
      else if x.id < id then
        AscendingSnoc(e, Entry(id, slot));
        KeysSnoc(e, Entry(id, slot));
        e + [Entry(id, slot)]
      else
        var q := Emplace(p, id, slot);
        AscendingSnoc(q, x);
        KeysSnoc(q, x);
        q + [x]
  }

  /** An `emplace` under a new key adds exactly that key, mapped to the given
      callback, to the map view. */
  lemma {:induction false} EmplaceTable<W, A, R>(e: seq<Entry<W, A, R>>, id: nat, slot: Slot<W, A, R>)
    requires Ascending(e) && id !in Keys(e)
    ensures TableOf(Emplace(e, id, slot)) == TableOf(e)[id := slot]
    decreases |e|
  {
    if e == [] {
      assert [Entry(id, slot)][..0] == [];
    } else {
      var p, x := e[..|e| - 1], e[|e| - 1];
      EmplaceUnfold(e, id, slot);
      if x.id < id {
        var r := e + [Entry(id, slot)];
        assert r[..|r| - 1] == e;
      } else {
        AscendingSnoc(p, x);
        KeysSnoc(p, x);
        var q := Emplace(p, id, slot);
        var r := q + [x];
        assert r[..|r| - 1] == q;
        EmplaceTable(p, id, slot);
        UpdatesCommute(TableOf(p), id, slot, x.id, x.slot);
      }
    }
  }

  /** One step of `Emplace` on a non-empty table whose keys miss `id`. */
  lemma EmplaceUnfold<W, A, R>(e: seq<Entry<W, A, R>>, id: nat, slot: Slot<W, A, R>)
    requires Ascending(e) && id !in Keys(e) && e != []
    ensures Ascending(e[..|e| - 1]) && id !in Keys(e[..|e| - 1])
    ensures Emplace(e, id, slot) ==
      if e[|e| - 1].id < id then e + [Entry(id, slot)]
      else Emplace(e[..|e| - 1], id, slot) + [e[|e| - 1]]
  {
    var p, x := e[..|e| - 1], e[|e| - 1];
    assert e == p + [x];
    AscendingSnoc(p, x);
    KeysSnoc(p, x);
  }

  lemma UpdatesCommute<K, V>(m: map<K, V>, a: K, u: V, b: K, v: V)
    requires a != b
    ensures m[a := u][b := v] == m[b := v][a := u]
  {
  }

  /** `std::map::erase(id)`: remove the entry under `id`, if there is one. */
  function Erase<W, A, R>(e: seq<Entry<W, A, R>>, id: nat): (r: seq<Entry<W, A, R>>)
    ensures Keys(r) == Keys(e) - {id}
    ensures Ascending(e) ==> Ascending(r)
    decreases |e|
  {
    if e == [] then []
    else
      var p, x := e[..|e| - 1], e[|e| - 1];
      assert e == p + [x];
      AscendingSnoc(p, x);
      KeysSnoc(p, x);
      var q := Erase(p, id);
      if x.id == id then q
      else
        AscendingSnoc(q, x);
        KeysSnoc(q, x);
        q + [x]
  }

  /** Call the slots of `e` in order, each on the state the previous one left,
      all with the same arguments. */
  function RunSlots<W, A, R>(e: seq<Entry<W, A, R>>, w: W, args: A): (run: Run<W, R>)
    ensures |run.outputs| == |e|
    decreases |e|
  {
    if e == [] then Run(w, [])
    else
      var before := RunSlots(e[..|e| - 1], w, args);
      var (after, out) := e[|e| - 1].slot(before.world, args);
      Run(after, before.outputs + [out])
  }

  /** Running one more slot after `p`: it is called once, on the state `p`
      left, and its value comes after theirs. */
  lemma RunSnoc<W, A, R>(p: seq<Entry<W, A, R>>, x: Entry<W, A, R>, w: W, args: A)
    ensures RunSlots(p + [x], w, args) ==
      var before := RunSlots(p, w, args);
      Run(x.slot(before.world, args).0, before.outputs + [x.slot(before.world, args).1])
  {
    assert (p + [x])[..|p|] == p;
  }

  class Signal<W, A, R> {
    var combiner: Combiner<R>          // m_combiner
    var slots: seq<Entry<W, A, R>>     // m_slots, in key order
    var nextId: nat                    // m_id

    /** The table is in key order and every key is below the counter. */
    ghost predicate Valid()
      reads this
    {
      Ascending(slots) && forall k :: 0 <= k < |slots| ==> slots[k].id < nextId
    }

    /** `m_slots` as a map from key to callback. */
    ghost function Table(): map<nat, Slot<W, A, R>>
      reads this
    {
      TableOf(slots)
    }

    /** `Signal(Combiner combiner = Combiner())`. */
    constructor (combiner: Combiner<R>)
      ensures Valid()
      ensures this.combiner == combiner && slots == [] && Table() == map[] && nextId == 0
    {
      this.combiner := combiner;
      slots := [];
      nextId := 0;
    }

    /** `connectSlot`: store the callback under the current counter value, then
        advance the counter; the stored key is returned. */
    method Connect(callback: Slot<W, A, R>) returns (id: nat)
      requires Valid()
      modifies this
      ensures Valid()
      ensures id == old(nextId) && nextId == old(nextId) + 1
      ensures id !in old(Table())
      ensures Table() == old(Table())[id := callback]
      ensures slots == old(slots) + [Entry(id, callback)]
      ensures combiner == old(combiner)
    {
      id := nextId;
      EmplaceAboveAll(slots, id, callback);
      slots := Emplace(slots, id, callback);
      nextId := nextId + 1;
    }

    /** `disconnectSlot`: erase the entry under `id`; nothing happens when there
        is none. */
    method Disconnect(id: nat)
      requires Valid()
      modifies this
      ensures Valid()
      ensures slots == Erase(old(slots), id)
      ensures Table() == old(Table()) - {id}
      ensures id !in old(Table()) ==> slots == old(slots)
      ensures nextId == old(nextId) && combiner == old(combiner)
    {
      EraseTable(slots, id);
      if id !in Keys(slots) {
        EraseAbsent(slots, id);
      }
      slots := Erase(slots, id);
    }

    /** `emitSignal`: call every slot in key order. When the combiner's
        result_type is `void` the slots are only called; otherwise each return
        value goes to `combine`, and `result()` is returned. */
    method Emit(w: W, args: A) returns (world: W, result: Outcome<R>)
      modifies this`combiner
      ensures slots == old(slots) && nextId == old(nextId) && Valid() == old(Valid())
      ensures world == RunSlots(slots, w, args).world
      ensures old(combiner).ResultIsVoid() ==> combiner == old(combiner) && result == Nothing
      ensures !old(combiner).ResultIsVoid() ==>
        var folded := CombineAll(old(combiner), RunSlots(slots, w, args).outputs);
        result == folded.Result() && combiner == folded.MovedFrom()
    {
      world := w;
      var i := 0;
      if combiner.ResultIsVoid() {
        while i < |slots|
          invariant i <= |slots|
          invariant world == RunSlots(slots[..i], w, args).world
        {
          assert slots[..i + 1][..i] == slots[..i];
          world := slots[i].slot(world, args).0;
          i := i + 1;
        }
        result := Nothing;
      } else {
        while i < |slots|
          invariant i <= |slots|
          invariant world == RunSlots(slots[..i], w, args).world
          invariant combiner == CombineAll(old(combiner), RunSlots(slots[..i], w, args).outputs)
        {
          assert slots[..i + 1][..i] == slots[..i];
          var (after, out) := slots[i].slot(world, args);
          world := after;
          ghost var outs := RunSlots(slots[..i + 1], w, args).outputs;
          assert outs[..|outs| - 1] == RunSlots(slots[..i], w, args).outputs;
          combiner := combiner.Combine(out);
          i := i + 1;
        }
        assert slots[..i] == slots;
        result := combiner.Result();
        combiner := combiner.MovedFrom();
      }
      assert slots[..i] == slots;
    }
  }

  /** The counter is above every key, so `emplace` appends the new entry at the
      end of the table: insertion always happens and connection order is key
      order. */
  lemma {:induction false} EmplaceAboveAll<W, A, R>(e: seq<Entry<W, A, R>>, id: nat, slot: Slot<W, A, R>)
    requires Ascending(e)
    requires forall k :: 0 <= k < |e| ==> e[k].id < id
    ensures id !in Keys(e)
    ensures Emplace(e, id, slot) == e + [Entry(id, slot)]
  {
    if e != [] {
      assert e == e[..|e| - 1] + [e[|e| - 1]];
      KeysSnoc(e[..|e| - 1], e[|e| - 1]);
      EmplaceAboveAll(e[..|e| - 1], id, slot);
    }
  }

  /** Erasing a key removes exactly that key from the map view. */
  lemma {:induction false} EraseTable<W, A, R>(e: seq<Entry<W, A, R>>, id: nat)
    ensures TableOf(Erase(e, id)) == TableOf(e) - {id}
    decreases |e|
  {
    if e != [] {
      var p, x := e[..|e| - 1], e[|e| - 1];
      assert TableOf(e) == TableOf(p)[x.id := x.slot];
      EraseTable(p, id);
      var q := Erase(p, id);
      if x.id == id {
        assert Erase(e, id) == q;
        RemoveUpdated(TableOf(p), id, x.slot);
      } else {
        assert Erase(e, id) == q + [x];
        assert (q + [x])[..|q|] == q;
        assert TableOf(q + [x]) == TableOf(q)[x.id := x.slot];
        UpdateThenRemove(TableOf(p), x.id, x.slot, id);
      }
    }
  }

  lemma RemoveUpdated<K, V>(m: map<K, V>, a: K, v: V)
    ensures m[a := v] - {a} == m - {a}
  {
  }

  lemma UpdateThenRemove<K, V>(m: map<K, V>, a: K, v: V, b: K)
    requires a != b
    ensures m[a := v] - {b} == (m - {b})[a := v]
  {
  }

  /** Erasing a key that is not present leaves the table as it was. */
  lemma {:induction false} EraseAbsent<W, A, R>(e: seq<Entry<W, A, R>>, id: nat)
    requires id !in Keys(e)
    ensures Erase(e, id) == e
    decreases |e|
  {
    if e != [] {
      var p, x := e[..|e| - 1], e[|e| - 1];
      assert e == p + [x];
      KeysSnoc(p, x);
      EraseAbsent(p, id);
    }
  }

  /** In a table in key order, erasing the key found at position `k` removes
      that one entry and keeps all the others in their order. */
  lemma {:induction false} ErasePresent<W, A, R>(e: seq<Entry<W, A, R>>, k: nat)
    requires Ascending(e) && k < |e|
    ensures Erase(e, e[k].id) == e[..k] + e[k + 1..]
    decreases |e|
  {
    var p, x := e[..|e| - 1], e[|e| - 1];
    assert e == p + [x];
    AscendingSnoc(p, x);
    if k == |e| - 1 {
      forall j | 0 <= j < |p| ensures p[j].id != x.id { assert p[j].id in Keys(p); }
      EraseAbsent(p, x.id);
    } else {
      assert p[k] == e[k];
      ErasePresent(p, k);
      assert e[k].id in Keys(p);
      assert e[..k] + e[k + 1..] == p[..k] + p[k + 1..] + [x];
    }
  }

  /** Walking a table in key order meets every stored key exactly once: the
      entry at position `k` is the only one under its key, and its callback is
      the one the map view holds for that key. */
  lemma {:induction false} TableAt<W, A, R>(e: seq<Entry<W, A, R>>, k: nat)
    requires Ascending(e) && k < |e|
    ensures e[k].id in TableOf(e) && TableOf(e)[e[k].id] == e[k].slot
    ensures forall j :: 0 <= j < |e| && e[j].id == e[k].id ==> j == k
    decreases |e|
  {
    var p, x := e[..|e| - 1], e[|e| - 1];
    assert e == p + [x];
    if k < |e| - 1 {
      AscendingSnoc(p, x);
      assert p[k] == e[k];
      TableAt(p, k);
    }
  }

  /** The k-th value an emission collects is the one slot `k` returns, called
      once, on the state the slots before it left. */
  lemma {:induction false} OutputAt<W, A, R>(e: seq<Entry<W, A, R>>, w: W, args: A, k: nat)
    requires k < |e|
    ensures RunSlots(e, w, args).outputs[k] == e[k].slot(RunSlots(e[..k], w, args).world, args).1
    decreases |e|
  {
    var p := e[..|e| - 1];
    if k < |e| - 1 {
      OutputAt(p, w, args, k);
      assert p[..k] == e[..k];
    }
  }
  /** With a LastCombiner, an emission over a table in key order returns what
      the slot with the highest key (the last one connected) returned, or the
      value the combiner already held when no slot is connected. */
  lemma {:induction false} LastEmission<W, A, R>(e: seq<Entry<W, A, R>>, w: W, args: A, held: R)
    requires Ascending(e)
    ensures e == [] ==> CombineAll(Last(held), RunSlots(e, w, args).outputs).Result() == Single(held)
    ensures e != [] ==>
      && (forall k :: 0 <= k < |e| - 1 ==> e[k].id < e[|e| - 1].id)
      && CombineAll(Last(held), RunSlots(e, w, args).outputs).Result()
         == Single(e[|e| - 1].slot(RunSlots(e[..|e| - 1], w, args).world, args).1)
  {
    var outs := RunSlots(e, w, args).outputs;
    KeepLast(held, outs);
    if e != [] {
      OutputAt(e, w, args, |e| - 1);
    }
  }

  /** With a VectorCombiner, an emission appends, after what the combiner
      already held, one value per connected slot, in key order: the value that
      slot returned. */
  lemma {:induction false} CollectEmission<W, A, R>(e: seq<Entry<W, A, R>>, w: W, args: A, held: seq<R>)
    ensures CombineAll(Vector(held), RunSlots(e, w, args).outputs).Result()
            == Collected(held + RunSlots(e, w, args).outputs)
    ensures |held + RunSlots(e, w, args).outputs| == |held| + |e|
    ensures forall k :: 0 <= k < |e| ==>
      (held + RunSlots(e, w, args).outputs)[|held| + k] == e[k].slot(RunSlots(e[..k], w, args).world, args).1
  {
    var outs := RunSlots(e, w, args).outputs;
    CollectAll(held, outs);
    forall k | 0 <= k < |e|
      ensures (held + outs)[|held| + k] == e[k].slot(RunSlots(e[..k], w, args).world, args).1
    {
      OutputAt(e, w, args, k);
    }
  }
}
