/** `ObservableVec` of `src/observable/mod.rs`: a growable list of items. */
module Observable {

  class ObservableVec<T> {
    var items: seq<T>

    /** `ObservableVec::new`: no items. */
    constructor New()
      ensures items == []
    {
      items := [];
    }

    /** `push`: `item` goes at the end, after the items already there. */
    method Push(item: T)
      modifies this
      ensures items == old(items) + [item]
    {
      items := items + [item];
    }

    /**
     * `remove`: the item at `index` is taken out and returned, and the items
     * after it move down one place. `Vec::remove` panics on an index past the
     * end, which is why callers must stay in range.
     */
    method Remove(index: nat) returns (removed: T)
      requires index < |items|
      modifies this
      ensures removed == old(items)[index]
      ensures items == Removed(old(items), index)
    {
      removed := items[index];
      items := items[..index] + items[index + 1..];
    }
  }

  /** `xs` without its element at `i`. */
  function Removed<T>(xs: seq<T>, i: nat): (r: seq<T>)
    requires i < |xs|
    ensures |r| == |xs| - 1
    ensures forall j :: 0 <= j < i ==> r[j] == xs[j]
    ensures forall j :: i <= j < |r| ==> r[j] == xs[j + 1]
  {
    xs[..i] + xs[i + 1..]
  }

  /** Removing what was just pushed gives back the list before the push. */
  lemma RemoveLastUndoesPush<T>(xs: seq<T>, x: T)
    ensures Removed(xs + [x], |xs|) == xs
  {
    assert (xs + [x])[..|xs|] == xs;
  }

  /** Removing leaves every other item, in order: putting the item back restores the list. */
  lemma RemovedThenReinserted<T>(xs: seq<T>, i: nat)
    requires i < |xs|
    ensures Removed(xs, i)[..i] + [xs[i]] + Removed(xs, i)[i..] == xs
  {
    var r := Removed(xs, i);
    assert r[..i] == xs[..i];
    assert r[i..] == xs[i + 1..];
    assert xs[..i] + [xs[i]] + xs[i + 1..] == xs;
  }

  /** Pushing two items and removing the first leaves only the second. */
  method PushPushRemove<T>(a: T, b: T) returns (removed: T, rest: seq<T>)
    ensures removed == a && rest == [b]
  {
    var v := new ObservableVec<T>.New();
    v.Push(a);
    v.Push(b);
    removed := v.Remove(0);
    rest := v.items;
  }
}
