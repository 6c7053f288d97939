/** The drag-and-drop reordering of `TransformationSelector.tsx`: when a drag
    ends over a different card, the dragged card is taken out of the list and
    put back at the position it was dropped on. */
module TransformationOrder {
  import opened Wrappers

  /** `splice(i, 1)` on a copy: the list without its `i`-th element. */
  function RemoveAt<T>(s: seq<T>, i: nat): (r: seq<T>)
    requires i < |s|
    ensures |r| == |s| - 1
    ensures forall k :: 0 <= k < i ==> r[k] == s[k]
    ensures forall k :: i <= k < |r| ==> r[k] == s[k + 1]
  {
    s[..i] + s[i + 1..]
  }

  /** `splice(i, 0, x)`: `x` placed so that it ends up at position `i`. */
  function InsertAt<T>(s: seq<T>, i: nat, x: T): (r: seq<T>)
    requires i <= |s|
    ensures |r| == |s| + 1 && r[i] == x
    ensures forall k :: 0 <= k < i ==> r[k] == s[k]
    ensures forall k :: i < k < |r| ==> r[k] == s[k - 1]
  {
    s[..i] + [x] + s[i..]
  }

  lemma RemoveInsert<T>(s: seq<T>, i: nat, x: T)
    requires i <= |s|
    ensures RemoveAt(InsertAt(s, i, x), i) == s
  {
  }

  lemma InsertRemove<T>(s: seq<T>, i: nat)
    requires i < |s|
    ensures InsertAt(RemoveAt(s, i), i, s[i]) == s
  {
  }

  lemma InsertRemoveMultiset<T>(s: seq<T>, i: nat, j: nat)
    requires i < |s| && j < |s|
    ensures multiset(InsertAt(RemoveAt(s, i), j, s[i])) == multiset(s)
  {
    var u := RemoveAt(s, i);
    assert s == s[..i] + [s[i]] + s[i + 1..];
    assert u == s[..i] + s[i + 1..];
    assert InsertAt(u, j, s[i]) == u[..j] + [s[i]] + u[j..];
    assert u == u[..j] + u[j..];
    assert multiset(InsertAt(u, j, s[i])) == multiset(u[..j]) + multiset{s[i]} + multiset(u[j..]);
    assert multiset(u) == multiset(u[..j]) + multiset(u[j..]);
    assert multiset(u) == multiset(s[..i]) + multiset(s[i + 1..]);
    assert multiset(s) == multiset(s[..i]) + multiset{s[i]} + multiset(s[i + 1..]);
    assert multiset(InsertAt(u, j, s[i])) == multiset(u) + multiset{s[i]};
  }

  /** The element at `from` moved to `to`: the list is the same up to order,
      the moved element is at `to`, and taking it out again leaves the other
      elements in their old relative order. */
  function Move<T>(s: seq<T>, from: nat, to: nat): (r: seq<T>)
    requires from < |s| && to < |s|
    ensures |r| == |s|
    ensures r[to] == s[from]
    ensures multiset(r) == multiset(s)
    ensures RemoveAt(r, to) == RemoveAt(s, from)
  {
    InsertRemoveMultiset(s, from, to);
    RemoveInsert(RemoveAt(s, from), to, s[from]);
    InsertAt(RemoveAt(s, from), to, s[from])
  }

  /** Dropping the moved element back where it came from restores the list. */
  lemma MoveBack<T>(s: seq<T>, from: nat, to: nat)
    requires from < |s| && to < |s|
    ensures Move(Move(s, from, to), to, from) == s
  {
    var m := Move(s, from, to);
    assert RemoveAt(m, to) == RemoveAt(s, from);
    assert m[to] == s[from];
    InsertRemove(s, from);
  }

  /** Position by position: moving down shifts the cards in between up by
      one, moving up shifts them down by one, and the rest stay put. */
  lemma MovePositions<T>(s: seq<T>, from: nat, to: nat, k: nat)
    requires from < |s| && to < |s| && k < |s|
    ensures var r := Move(s, from, to);
      && (k < from && k < to ==> r[k] == s[k])
      && (k > from && k > to ==> r[k] == s[k])
      && (from <= k < to ==> r[k] == s[k + 1])
      && (to < k <= from ==> r[k] == s[k - 1])
  {
  }

  /** The two indices the selector tracks during a drag. */
  datatype Drag = Drag(dragged: Option<nat>, over: Option<nat>)

  /** What `handleDragEnd` reports through `onOrderChange` (if anything), and
      the indices it leaves behind. */
  datatype DragEnd<T> = DragEnd(newOrder: Option<seq<T>>, drag: Drag)

  /** The indices a drag can hold: positions of the rendered cards. */
  predicate IndicesInList<T>(s: seq<T>, d: Drag) {
    (d.dragged.Some? ==> d.dragged.value < |s|) && (d.over.Some? ==> d.over.value < |s|)
  }

  /** `handleDragEnd`: with both indices set and different, the new order is
      the move between them; the indices are cleared either way. */
  function HandleDragEnd<T>(s: seq<T>, d: Drag): (r: DragEnd<T>)
    requires IndicesInList(s, d)
    ensures r.drag == Drag(None, None)
    ensures r.newOrder.Some? <==> d.dragged.Some? && d.over.Some? && d.dragged.value != d.over.value
    ensures r.newOrder.Some? ==>
      |r.newOrder.value| == |s| && multiset(r.newOrder.value) == multiset(s)
      && r.newOrder.value[d.over.value] == s[d.dragged.value]
      && RemoveAt(r.newOrder.value, d.over.value) == RemoveAt(s, d.dragged.value)
  {
    if d.dragged.Some? && d.over.Some? && d.dragged.value != d.over.value then
      DragEnd(Some(Move(s, d.dragged.value, d.over.value)), Drag(None, None))
    else
      DragEnd(None, Drag(None, None))
  }
}
