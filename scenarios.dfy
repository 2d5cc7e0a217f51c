/**
 Client scenarios: the unit tests of the signal, and the two value-returning
 combiners, played through the specifications of Signal's methods alone. The
 variables the C++ lambdas capture by reference are the state `W` the slots
 transform.
 */
module SignalScenarios {
  import opened Combiners
  import opened Signals

  // Small facts about literal tables, kept apart so that each scenario's proof
  // stays small.

  lemma EraseMiddle<W, A, R>(x: Entry<W, A, R>, y: Entry<W, A, R>, z: Entry<W, A, R>)
    requires x.id < y.id < z.id
    ensures Erase([x, y, z], y.id) == [x, z]
  {
    var e := [x, y, z];
    assert e[1] == y && Ascending(e);
    ErasePresent(e, 1);
    assert e[..1] + e[2..] == [x, z];
  }

  lemma RunOne<W, A, R>(x: Entry<W, A, R>, w: W, args: A)
    ensures RunSlots([x], w, args) == Run(x.slot(w, args).0, [x.slot(w, args).1])
  {
    assert [x] == [] + [x];
    RunSnoc([], x, w, args);
  }

  lemma RunTwo<W, A, R>(x: Entry<W, A, R>, y: Entry<W, A, R>, w: W, args: A)
    ensures var w1 := x.slot(w, args).0;
      RunSlots([x, y], w, args) == Run(y.slot(w1, args).0, [x.slot(w, args).1, y.slot(w1, args).1])
  {
    assert [x, y] == [x] + [y];
    RunOne(x, w, args);
    RunSnoc([x], y, w, args);
  }

  lemma RunThree<W, A, R>(x: Entry<W, A, R>, y: Entry<W, A, R>, z: Entry<W, A, R>, w: W, args: A)
    ensures var w1 := x.slot(w, args).0; var w2 := y.slot(w1, args).0;
      RunSlots([x, y, z], w, args)
      == Run(z.slot(w2, args).0, [x.slot(w, args).1, y.slot(w1, args).1, z.slot(w2, args).1])
  {
    assert [x, y, z] == [x, y] + [z];
    RunTwo(x, y, w, args);
    RunSnoc([x, y], z, w, args);
  }

  /** The two slots of the two-argument test, each pushing onto the vectors
      `ints` and `chars`; `c + 1` is stored back into an 8-bit `char`. */
  function PushOnce(w: (seq<int>, seq<char>), a: (int, char)): ((seq<int>, seq<char>), ())
  {
    ((w.0 + [a.0], w.1 + [a.1]), ())
  }

  function PushTwice(w: (seq<int>, seq<char>), a: (int, char)): ((seq<int>, seq<char>), ())
  {
    ((w.0 + [a.0 * 2], w.1 + [((a.1 as int + 1) % 256) as char]), ())
  }

  lemma PushBoth(x: Entry<(seq<int>, seq<char>), (int, char), ()>, y: Entry<(seq<int>, seq<char>), (int, char), ()>)
    requires x.slot == PushOnce && y.slot == PushTwice
    ensures RunSlots([x, y], ([], []), (1, 'a')).world == ([1, 2], ['a', 'b'])
  {
    var w: (seq<int>, seq<char>) := ([], []);
    RunTwo(x, y, w, (1, 'a'));
    assert w.0 + [1] == [1] && w.1 + ['a'] == ['a'];
    var w1 := PushOnce(w, (1, 'a')).0;
    assert w1 == ([1], ['a']);
    assert ((('a' as int) + 1) % 256) as char == 'b';
    assert [1] + [2] == [1, 2] && ['a'] + ['b'] == ['a', 'b'];
    assert PushTwice(w1, (1, 'a')).0 == ([1, 2], ['a', 'b']);
  }

  lemma EraseSecond<W, A, R>(x: Entry<W, A, R>, y: Entry<W, A, R>)
    requires x.id < y.id
    ensures Erase([x, y], y.id) == [x]
  {
    var e := [x, y];
    assert e[1] == y && Ascending(e);
    ErasePresent(e, 1);
    assert e[..1] + e[2..] == [x];
  }

  lemma EraseFirst<W, A, R>(x: Entry<W, A, R>, y: Entry<W, A, R>)
    requires x.id < y.id
    ensures Erase([x, y], x.id) == [y]
  {
    var e := [x, y];
    assert e[0] == x && Ascending(e);
    ErasePresent(e, 0);
    assert e[..0] + e[1..] == [y];
  }

  /** Three connections to a `void()` signal get three different keys. */
  method UniqueIds() returns (id1: nat, id2: nat, id3: nat)
    ensures id1 != id2 && id2 != id3 && id3 != id1
  {
    var signal := new Signal<(), (), ()>(Discard);
    var noop: Slot<(), (), ()> := (w, a) => (w, ());
    id1 := signal.Connect(noop);
    id2 := signal.Connect(noop);
    id3 := signal.Connect(noop);
  }

  /** A key given up by a disconnection is not handed out again. */
  method NoReuseAfterDisconnect() returns (id1: nat, id2: nat, id3: nat)
    ensures id3 != id1 && id3 != id2
  {
    var signal := new Signal<(), (), ()>(Discard);
    var noop: Slot<(), (), ()> := (w, a) => (w, ());
    id1 := signal.Connect(noop);
    id2 := signal.Connect(noop);
    signal.Disconnect(id2);
    signal.Disconnect(id1);
    id3 := signal.Connect(noop);
  }

  /** Two slots writing `res1 = i` and `res2 = i * 2`; after the second is
      disconnected only the first still runs. */
  method DisconnectOne() returns (first: (int, int), second: (int, int))
    ensures first == (2, 4) && second == (3, 4)
  {
    var signal := new Signal<(int, int), int, ()>(Discard);
    var set1: Slot<(int, int), int, ()> := (w: (int, int), i: int) => ((i, w.1), ());
    var set2: Slot<(int, int), int, ()> := (w: (int, int), i: int) => ((w.0, i * 2), ());
    var id1 := signal.Connect(set1);
    var id2 := signal.Connect(set2);
    var e1, e2 := Entry(id1, set1), Entry(id2, set2);
    assert signal.slots == [e1, e2];
    var outcome;
    first, outcome := signal.Emit((0, 0), 2);
    RunTwo(e1, e2, (0, 0), 2);
    signal.Disconnect(id2);
    EraseSecond(e1, e2);
    second, outcome := signal.Emit(first, 3);
    RunOne(e1, first, 3);
  }

  /** Once both slots are disconnected an emission calls none of them. */
  method DisconnectAll() returns (first: (int, int), second: (int, int))
    ensures first == (2, 4) && second == (2, 4)
  {
    var signal := new Signal<(int, int), int, ()>(Discard);
    var set1: Slot<(int, int), int, ()> := (w: (int, int), i: int) => ((i, w.1), ());
    var set2: Slot<(int, int), int, ()> := (w: (int, int), i: int) => ((w.0, i * 2), ());
    var id1 := signal.Connect(set1);
    var id2 := signal.Connect(set2);
    var e1, e2 := Entry(id1, set1), Entry(id2, set2);
    assert signal.slots == [e1, e2];
    var outcome;
    first, outcome := signal.Emit((0, 0), 2);
    RunTwo(e1, e2, (0, 0), 2);
    signal.Disconnect(id1);
    EraseFirst(e1, e2);
    signal.Disconnect(id2);
    assert signal.slots == [] by {
      EraseTable([e2], id2);
      assert Keys(signal.slots) == {};
    }
    second, outcome := signal.Emit(first, 3);
  }

  /** Disconnecting the middle of three slots leaves the outer two running. */
  method KeepOtherAccess() returns (first: (int, int, int), second: (int, int, int))
    ensures first == (2, 4, 6) && second == (3, 4, 9)
  {
    var signal := new Signal<(int, int, int), int, ()>(Discard);
    var set1: Slot<(int, int, int), int, ()> := (w: (int, int, int), i: int) => ((i, w.1, w.2), ());
    var set2: Slot<(int, int, int), int, ()> := (w: (int, int, int), i: int) => ((w.0, i * 2, w.2), ());
    var set3: Slot<(int, int, int), int, ()> := (w: (int, int, int), i: int) => ((w.0, w.1, i * 3), ());
    var id1 := signal.Connect(set1);
    var id2 := signal.Connect(set2);
    var id3 := signal.Connect(set3);
    var e1, e2, e3 := Entry(id1, set1), Entry(id2, set2), Entry(id3, set3);
    assert signal.slots == [e1, e2, e3];
    var outcome;
    first, outcome := signal.Emit((0, 0, 0), 2);
    assert first == (2, 4, 6) by {
      RunThree(e1, e2, e3, (0, 0, 0), 2);
    }
    signal.Disconnect(id2);
    EraseMiddle(e1, e2, e3);
    second, outcome := signal.Emit(first, 3);
    assert second == (3, 4, 9) by {
      RunTwo(e1, e3, first, 3);
    }
  }

  /** A two-argument signature: both slots append to two shared vectors, the
      first slot's values before the second's. */
  method MultipleArgsType() returns (ints: seq<int>, chars: seq<char>)
    ensures ints == [1, 2] && chars == ['a', 'b']
  {
    var signal := new Signal<(seq<int>, seq<char>), (int, char), ()>(Discard);
    var id1 := signal.Connect(PushOnce);
    var id2 := signal.Connect(PushTwice);
    var outcome;
    var world;
    world, outcome := signal.Emit(([], []), (1, 'a'));
    PushBoth(Entry(id1, PushOnce), Entry(id2, PushTwice));
    ints, chars := world.0, world.1;
  }

  /** A printing callback (its output is not modelled) and a lambda that
      records its argument: after emitting 1 the lambda has seen 1. */
  method TestSubject() returns (res: int)
    ensures res == 1
  {
    var signal := new Signal<int, int, ()>(Discard);
    var callback: Slot<int, int, ()> := (w: int, x: int) => (w, ());
    var record: Slot<int, int, ()> := (w: int, x: int) => (x, ());
    var id1 := signal.Connect(callback);
    var id2 := signal.Connect(record);
    var outcome;
    res, outcome := signal.Emit(0, 1);
    RunTwo(Entry(id1, callback), Entry(id2, record), 0, 1);
  }

  /** Slots returning 1, 2 and 3: a LastCombiner hands back 3; on a fresh signal
      without slots it hands back the value-initialised 0. */
  method LastOfThree() returns (three: Outcome<int>, none: Outcome<int>)
    ensures three == Single(3) && none == Single(0)
  {
    var empty := new Signal<(), (), int>(Last(0));
    var w;
    w, none := empty.Emit((), ());
    var signal := new Signal<(), (), int>(Last(0));
    var one: Slot<(), (), int> := (w, a) => (w, 1);
    var two: Slot<(), (), int> := (w, a) => (w, 2);
    var thr: Slot<(), (), int> := (w, a) => (w, 3);
    var id1 := signal.Connect(one);
    var id2 := signal.Connect(two);
    var id3 := signal.Connect(thr);
    w, three := signal.Emit((), ());
    LastEmission(signal.slots, (), (), 0);
  }

  /** Slots returning 1, 2 and 3: a VectorCombiner hands back [1, 2, 3], and,
      since its buffer was moved out, the same again on the next emission. */
  method CollectThree() returns (first: Outcome<int>, again: Outcome<int>)
    ensures first == Collected([1, 2, 3]) && again == Collected([1, 2, 3])
  {
    var signal := new Signal<(), (), int>(Vector([]));
    var one: Slot<(), (), int> := (w, a) => (w, 1);
    var two: Slot<(), (), int> := (w, a) => (w, 2);
    var thr: Slot<(), (), int> := (w, a) => (w, 3);
    var id1 := signal.Connect(one);
    var id2 := signal.Connect(two);
    var id3 := signal.Connect(thr);
    ghost var outs := RunSlots(signal.slots, (), ()).outputs;
    assert outs == [1, 2, 3] by {
      assert signal.slots == [Entry(id1, one), Entry(id2, two), Entry(id3, thr)];
      RunThree(Entry(id1, one), Entry(id2, two), Entry(id3, thr), (), ());
    }
    var w;
    w, first := signal.Emit((), ());
    assert first == Collected([1, 2, 3]) && signal.combiner == Vector([]) by {
      CollectAll([], outs);
    }
    w, again := signal.Emit((), ());
    assert again == Collected([1, 2, 3]) by {
      CollectAll([], outs);
    }
  }
}
