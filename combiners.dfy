/**
 The return-combination policies of a signal: DiscardCombiner, LastCombiner<T>,
 VectorCombiner<T> and the `void` specialisations LastCombiner<void> and
 VectorCombiner<void>.

 A combiner is a value the signal keeps in a field. Each `combine` replaces that
 value (LastCombiner overwrites its held result, VectorCombiner appends to its
 buffer); `result` hands back what was accumulated and leaves the moved-from
 state behind.
 */
module Combiners {

  /** What `result()` hands back: nothing when the combiner's result_type is
      `void`, one value for LastCombiner<T>, the collected values for
      VectorCombiner<T>. */
  datatype Outcome<T> = Nothing | Single(value: T) | Collected(values: seq<T>)

  datatype Combiner<T> =
    | Discard                    // DiscardCombiner
    | LastVoid                   // LastCombiner<void>
    | VectorVoid                 // VectorCombiner<void>
    | Last(lastResult: T)        // LastCombiner<T>, holding m_lastResult
    | Vector(allResults: seq<T>) // VectorCombiner<T>, holding m_all_results
  {
    /** The combiner's result_type is `void`: DiscardCombiner and the two
        specialisations that declare no members; never LastCombiner<T> or
        VectorCombiner<T>. */
    function ResultIsVoid(): (v: bool)
      ensures v <==> Discard? || !HasMembers()
      ensures v ==> !Last? && !Vector?
    {
      Discard? || LastVoid? || VectorVoid?
    }

    /** The combiner declares `combine` and `result`: every combiner but the two
        `void` specialisations, which declare neither. */
    function HasMembers(): (m: bool)
      ensures m <==> !(LastVoid? || VectorVoid?)
    {
      Discard? || Last? || Vector?
    }

    /** `combine(item)`: accumulate one slot result. LastCombiner's result is
        then the item whatever it held before; VectorCombiner's result grows by
        the item at its end; DiscardCombiner's result stays empty. */
    function Combine(item: T): (c: Combiner<T>)
      requires HasMembers()
      ensures c.Discard? == Discard? && c.Last? == Last? && c.Vector? == Vector?
      ensures Last? ==> c.Result() == Single(item)
      ensures Vector? ==> c.Result() == Collected(Result().values + [item])
    {
      match this
      case Discard => Discard
      case Last(_) => Last(item)
      case Vector(all) => Vector(all + [item])
    }

    /** `result()`: what the accumulated state hands back. */
    function Result(): (o: Outcome<T>)
      requires HasMembers()
      ensures o.Nothing? <==> ResultIsVoid()
      ensures Last? ==> o == Single(lastResult)
      ensures Vector? ==> o == Collected(allResults)
    {
      match this
      case Discard => Nothing
      case Last(held) => Single(held)
      case Vector(all) => Collected(all)
    }

    /** The state `result()` leaves behind once it has moved its value out: an
        empty vector for VectorCombiner; for LastCombiner the held value is
        kept, which is what a move leaves in a trivially copyable T. */
    function MovedFrom(): (c: Combiner<T>)
      requires HasMembers()
      ensures c.HasMembers() && c.Result() == (if Vector? then Collected([]) else Result())
    {
      match this
      case Vector(_) => Vector([])
      case _ => this
    }
  }

  /** The combiner state after `combine` has been called on each of `items`,
      first to last. */
  function CombineAll<T>(c: Combiner<T>, items: seq<T>): (r: Combiner<T>)
    requires c.HasMembers()
    ensures r.Discard? == c.Discard? && r.Last? == c.Last? && r.Vector? == c.Vector?
    decreases |items|
  {
    if items == [] then c
    else CombineAll(c, items[..|items| - 1]).Combine(items[|items| - 1])
  }

  /** VectorCombiner keeps every item, in arrival order, after what it already
      held. */
  lemma {:induction false} CollectAll<T>(held: seq<T>, items: seq<T>)
    ensures CombineAll(Vector(held), items) == Vector(held + items)
    decreases |items|
  {
    if items != [] {
      var n := |items| - 1;
      CollectAll(held, items[..n]);
      assert held + items[..n] + [items[n]] == held + items;
    }
  }

  /** LastCombiner ends up holding the last item, or what it held before when
      there were no items. */
  lemma {:induction false} KeepLast<T>(held: T, items: seq<T>)
    ensures CombineAll(Last(held), items) == Last(if items == [] then held else items[|items| - 1])
  {
  }

  /** DiscardCombiner ignores every item. */
  lemma {:induction false} DiscardAll<T>(items: seq<T>)
    ensures CombineAll(Discard, items) == Discard
  {
  }
}
