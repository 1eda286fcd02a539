/** Optional values, results that can carry an error, and operations on lists. */
module Wrappers {

  datatype Option<+T> = None | Some(value: T)

  datatype Result<+T, +E> = Ok(value: T) | Err(error: E)

  /** The lists in a list, one after the other. */
  function Flatten<T>(lists: seq<seq<T>>): seq<T> {
    if lists == [] then [] else Flatten(lists[..|lists| - 1]) + lists[|lists| - 1]
  }

  lemma FlattenSnoc<T>(lists: seq<seq<T>>, last: seq<T>)
    ensures Flatten(lists + [last]) == Flatten(lists) + last
  {
    assert (lists + [last])[..|lists|] == lists;
  }

  lemma Associate<T>(x: seq<T>, y: seq<T>, z: seq<T>)
    ensures (x + y) + z == x + (y + z)
  {
  }

  lemma {:induction false} FlattenCons<T>(first: seq<T>, lists: seq<seq<T>>)
    ensures Flatten([first] + lists) == first + Flatten(lists)
  {
    if lists == [] {
      assert [first] + lists == [] + [first];
      FlattenSnoc([], first);
    } else {
      var init, last := lists[..|lists| - 1], lists[|lists| - 1];
      FlattenCons(first, init);
      assert [first] + lists == ([first] + init) + [last];
      FlattenSnoc([first] + init, last);
      Associate(first, Flatten(init), last);
    }
  }

  /** list(dict.fromkeys(items)): the items in the order in which they first occur. */
  function Distinct<T(==, !new)>(items: seq<T>): (r: seq<T>)
    ensures forall x :: x in r <==> x in items
    ensures forall i, j :: 0 <= i < j < |r| ==> r[i] != r[j]
  {
    if items == [] then []
    else
      var init, last := Distinct(items[..|items| - 1]), items[|items| - 1];
      assert items == items[..|items| - 1] + [last];
      if last in init then init else init + [last]
  }

  /** Later items change nothing about the order of earlier ones. */
  lemma {:induction false} DistinctKeepsOrder<T(!new)>(a: seq<T>, b: seq<T>)
    ensures Distinct(a) <= Distinct(a + b)
    decreases |b|
  {
    if b == [] {
      assert a + b == a;
    } else {
      DistinctKeepsOrder(a, b[..|b| - 1]);
      assert (a + b)[..|a + b| - 1] == a + b[..|b| - 1];
    }
  }
}
