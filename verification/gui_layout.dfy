/** The chest GUIs of the plugin: six rows of nine slots, numbered row by
    row from 0, and the slot maps they fill by putting one item after
    another into a fixed list of slots. */
module GuiLayout {
  import opened Seqs

  const COLUMNS: int := 9
  const SIZE: int := 54

  predicate InGrid(slot: int) {
    0 <= slot < SIZE
  }

  /** The slot map after the first `n` items have been put into the first `n`
      slots, one `put` per item in list order (a later put wins). */
  function PlacedUpTo<T>(items: seq<T>, slots: seq<int>, n: nat): map<int, T>
    requires n <= |items| && n <= |slots|
  {
    if n == 0 then map[]
    else
      var prev := PlacedUpTo(items, slots, n - 1);
      prev[slots[n - 1] := items[n - 1]]
  }

  /** The first `n` puts fill exactly the first `n` slots, with items of the
      list. */
  lemma {:induction false} PlacedUpToDomain<T>(items: seq<T>, slots: seq<int>, n: nat)
    requires n <= |items| && n <= |slots|
    ensures forall s :: s in PlacedUpTo(items, slots, n) <==> exists k :: 0 <= k < n && slots[k] == s
    ensures forall s :: s in PlacedUpTo(items, slots, n) ==> PlacedUpTo(items, slots, n)[s] in items
  {
    if n > 0 {
      PlacedUpToDomain(items, slots, n - 1);
    }
  }

  /** The slot map of a capped placement loop: the items go into the slots in
      order, and the items beyond the last slot are not placed. */
  function Placed<T>(items: seq<T>, slots: seq<int>): map<int, T> {
    PlacedUpTo(items, slots, Min(|items|, |slots|))
  }

  /** With no slot listed twice, slot `k` holds item `k`. */
  lemma {:induction false} PlacedUpToValues<T>(items: seq<T>, slots: seq<int>, n: nat)
    requires n <= |items| && n <= |slots| && Distinct(slots)
    ensures forall k :: 0 <= k < n ==> slots[k] in PlacedUpTo(items, slots, n)
    ensures forall k :: 0 <= k < n ==> PlacedUpTo(items, slots, n)[slots[k]] == items[k]
  {
    PlacedUpToDomain(items, slots, n);
    if n > 0 {
      PlacedUpToValues(items, slots, n - 1);
    }
  }

  /** The capped placement fills exactly the first `min(items, slots)` slots,
      slot `k` holding item `k`: order kept, extras dropped. */
  lemma PlacedLayout<T>(items: seq<T>, slots: seq<int>)
    requires Distinct(slots)
    ensures forall k :: 0 <= k < |slots| ==> (slots[k] in Placed(items, slots) <==> k < |items|)
    ensures forall k :: 0 <= k < |slots| && k < |items| ==> Placed(items, slots)[slots[k]] == items[k]
    ensures forall s :: s in Placed(items, slots) ==> s in slots && Placed(items, slots)[s] in items
  {
    var n := Min(|items|, |slots|);
    PlacedUpToDomain(items, slots, n);
    PlacedUpToValues(items, slots, n);
    forall k | 0 <= k < |slots| && slots[k] in Placed(items, slots)
      ensures k < |items|
    {
      var j :| 0 <= j < n && slots[j] == slots[k];
      assert j == k;
    }
  }

  /** Putting a slot into the right operand of a map union puts it into the
      union. */
  lemma UnionPut<T>(m: map<int, T>, p: map<int, T>, slot: int, item: T)
    ensures m + p[slot := item] == (m + p)[slot := item]
  {
  }
}
