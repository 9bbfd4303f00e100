/** Sums of weights over a sequence. */
module Sums {
  function Sum<T>(items: seq<T>, weight: T -> nat): nat {
    if items == [] then 0 else weight(items[0]) + Sum(items[1..], weight)
  }

  lemma {:induction false} SumAppend<T>(items: seq<T>, item: T, weight: T -> nat)
    ensures Sum(items + [item], weight) == Sum(items, weight) + weight(item)
    decreases |items|
  {
    if items == [] {
      assert [item][1..] == [];
    } else {
      assert (items + [item])[1..] == items[1..] + [item];
      SumAppend(items[1..], item, weight);
    }
  }

  lemma {:induction false} SumRemove<T>(items: seq<T>, i: nat, weight: T -> nat)
    requires i < |items|
    ensures Sum(items, weight) == weight(items[i]) + Sum(items[..i] + items[i + 1..], weight)
    decreases |items|
  {
    var rest := items[..i] + items[i + 1..];
    if i == 0 {
      assert rest == items[1..];
    } else {
      assert items[1..][..i - 1] + items[1..][i..] == rest[1..] && rest[0] == items[0];
      SumRemove(items[1..], i - 1, weight);
    }
  }

  lemma {:induction false} SumZero<T>(items: seq<T>, weight: T -> nat, item: T)
    requires Sum(items, weight) == 0 && item in items
    ensures weight(item) == 0
    decreases |items|
  {
    if item != items[0] {
      assert items == [items[0]] + items[1..];
      SumZero(items[1..], weight, item);
    }
  }

  lemma {:induction false} SumAllZero<T>(items: seq<T>, weight: T -> nat)
    requires forall item <- items :: weight(item) == 0
    ensures Sum(items, weight) == 0
    decreases |items|
  {
    if items != [] {
      SumAllZero(items[1..], weight);
    }
  }

  lemma {:induction false} SumUpdate<T>(items: seq<T>, i: nat, item: T, weight: T -> nat)
    requires i < |items|
    ensures Sum(items[i := item], weight) == Sum(items, weight) - weight(items[i]) + weight(item)
    ensures Sum(items, weight) >= weight(items[i])
    decreases |items|
  {
    if i > 0 {
      assert items[i := item][1..] == items[1..][i - 1 := item];
      SumUpdate(items[1..], i - 1, item, weight);
    }
  }
}
