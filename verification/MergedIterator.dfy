/** Iteration over layered databases: the k-way merging iterator, the iterator
    that skips deleted and empty values, and the listing of a historical view. */
module MergedIterator {
  import opened Bytes
  import opened Patches
  import opened Sets
  import opened VersionedDb

  datatype Item = Item(key: Bytes, value: Bytes)

  predicate Ascending(items: seq<Item>) {
    forall i, j :: 0 <= i < j < |items| ==> Less(items[i].key, items[j].key)
  }

  /** The items are the entries of the map, once each, in ascending key order. */
  ghost predicate Lists(items: seq<Item>, m: Raw) {
    && Ascending(items)
    && (forall i :: 0 <= i < |items| ==> items[i].key in m && m[items[i].key] == items[i].value)
    && (forall k :: k in m ==> exists i :: 0 <= i < |items| && items[i].key == k)
  }

  /** `mergedDB.Get`: the first layer that has the key answers. */
  function MergedGet(layers: seq<Raw>, k: Bytes): Option<Bytes> {
    if layers == [] then None
    else if k in layers[0] then Some(layers[0][k])
    else MergedGet(layers[1..], k)
  }

  function Merge(layers: seq<Raw>): Raw {
    if layers == [] then map[] else Merge(layers[1..]) + layers[0]
  }

  lemma {:induction false} MergeReads(layers: seq<Raw>, k: Bytes)
    ensures MergedGet(layers, k) == Get(Merge(layers), k)
  {
    if layers != [] { MergeReads(layers[1..], k); }
  }

  /** The topmost of the layers that hold a key supplies its value. */
  lemma {:induction false} TopmostWins(layers: seq<Raw>, i: nat, k: Bytes)
    requires i < |layers| && k in layers[i]
    requires forall j :: 0 <= j < i ==> k !in layers[j]
    ensures MergedGet(layers, k) == Some(layers[i][k])
  {
    if i > 0 {
      assert layers[1..][i - 1] == layers[i];
      TopmostWins(layers[1..], i - 1, k);
    }
  }

  lemma {:induction false} MergedHas(layers: seq<Raw>, k: Bytes)
    ensures MergedGet(layers, k).Some? <==> exists i :: 0 <= i < |layers| && k in layers[i]
  {
    if layers != [] {
      MergedHas(layers[1..], k);
      if i :| 0 <= i < |layers| && k in layers[i] {
        if i > 0 { assert layers[1..][i - 1] == layers[i]; }
      }
      if i :| 0 <= i < |layers[1..]| && k in layers[1..][i] { assert layers[i + 1] == layers[1..][i]; }
    }
  }

  /** Keys after the last one returned; all keys before the first step. */
  predicate Above(last: Option<Bytes>, k: Bytes) {
    last.None? || Less(last.value, k)
  }

  /** What one successful step of an iterator over `m` must return. */
  ghost predicate IsNext(m: Raw, last: Option<Bytes>, k: Bytes, v: Bytes) {
    && k in m && m[k] == v && Above(last, k)
    && (forall x :: x in m && Above(last, x) ==> !Less(x, k))
  }

  ghost predicate Exhausted(m: Raw, last: Option<Bytes>) {
    forall x :: x in m ==> !Above(last, x)
  }

  // ---- One child of the merge ----

  /** The child has passed exactly the keys up to `last`. */
  ghost predicate Passed(items: seq<Item>, p: nat, last: Option<Bytes>) {
    p <= |items| && forall j :: 0 <= j < |items| ==> (j < p <==> !Above(last, items[j].key))
  }

  /** The child has passed exactly the keys below k. */
  ghost predicate StandsAt(items: seq<Item>, p: nat, k: Bytes) {
    p <= |items| && forall j :: 0 <= j < |items| ==> (j < p <==> Less(items[j].key, k))
  }

  /** Moving off the current key. */
  function Advanced(items: seq<Item>, p: nat, k: Bytes): (q: nat) {
    if p < |items| && items[p].key == k then p + 1 else p
  }

  lemma {:induction false} AdvancePasses(items: seq<Item>, p: nat, k: Bytes)
    requires Ascending(items) && StandsAt(items, p, k)
    ensures Passed(items, Advanced(items, p, k), Some(k))
  {
    var q := Advanced(items, p, k);
    forall j | 0 <= j < |items| ensures j < q <==> !Less(k, items[j].key) {
      var x := items[j].key;
      LessIsTotal(k, x);
      LessIsIrreflexive(k);
      if j < p { LessIsAsymmetric(x, k); }
      if p < j {
        if Less(k, items[p].key) { LessIsTransitive(k, items[p].key, x); } else { LessIsTotal(k, items[p].key); }
      }
    }
  }

  /** Choosing a key above the last that no child's next key is below. */
  lemma {:induction false} ChoiceStands(items: seq<Item>, p: nat, last: Option<Bytes>, k: Bytes)
    requires Ascending(items) && Passed(items, p, last) && Above(last, k)
    requires p < |items| ==> !Less(items[p].key, k)
    ensures StandsAt(items, p, k)
  {
    forall j | 0 <= j < |items| ensures j < p <==> Less(items[j].key, k) {
      var x := items[j].key;
      if j < p {
        LessIsTotal(last.value, x);
        if Less(x, last.value) { LessIsTransitive(x, last.value, k); }
      } else if p < j && Less(x, k) {
        LessIsTransitive(items[p].key, x, k);
      }
    }
  }

  lemma {:induction false} ChildHas(items: seq<Item>, m: Raw, p: nat, k: Bytes)
    requires Lists(items, m) && StandsAt(items, p, k)
    ensures k in m <==> p < |items| && items[p].key == k
  {
    if k in m {
      var j :| 0 <= j < |items| && items[j].key == k;
      LessIsIrreflexive(k);
    }
  }

  ghost predicate Children(layers: seq<Raw>, children: seq<seq<Item>>) {
    |children| == |layers| && forall i :: 0 <= i < |children| ==> Lists(children[i], layers[i])
  }

  /** The lowest child standing on k supplies what the merged database answers for it. */
  lemma {:induction false} ChoiceIsNext(layers: seq<Raw>, children: seq<seq<Item>>, pos: seq<nat>,
          last: Option<Bytes>, best: nat)
    requires Children(layers, children) && |pos| == |children| && best < |children| && pos[best] < |children[best]|
    requires forall i :: 0 <= i < |children| ==> Passed(children[i], pos[i], last)
    requires forall i :: 0 <= i < |children| ==> StandsAt(children[i], pos[i], children[best][pos[best]].key)
    requires forall i :: 0 <= i < best && pos[i] < |children[i]| ==>
        children[i][pos[i]].key != children[best][pos[best]].key
    ensures IsNext(Merge(layers), last, children[best][pos[best]].key, children[best][pos[best]].value)
  {
    var k := children[best][pos[best]].key;
    forall i | 0 <= i < best ensures k !in layers[i] { ChildHas(children[i], layers[i], pos[i], k); }
    TopmostWins(layers, best, k);
    MergeReads(layers, k);
    forall x | x in Merge(layers) && Above(last, x) ensures !Less(x, k) {
      MergeReads(layers, x);
      MergedHas(layers, x);
      var i :| 0 <= i < |layers| && x in layers[i];
      var j :| 0 <= j < |children[i]| && children[i][j].key == x;
    }
  }

  lemma {:induction false} AllPassed(layers: seq<Raw>, children: seq<seq<Item>>, last: Option<Bytes>)
    requires Children(layers, children)
    requires forall i :: 0 <= i < |children| ==> Passed(children[i], |children[i]|, last)
    ensures Exhausted(Merge(layers), last)
  {
    forall x | x in Merge(layers) ensures !Above(last, x) {
      MergeReads(layers, x);
      MergedHas(layers, x);
      var i :| 0 <= i < |layers| && x in layers[i];
      var j :| 0 <= j < |children[i]| && children[i][j].key == x;
    }
  }

  class Merged {
    const layers: seq<Raw>
    const children: seq<seq<Item>>
    var pos: seq<nat>
    var current: int
    ghost var last: Option<Bytes>

    /** Before a step the children have passed the last key, or stand on it. */
    ghost predicate Valid()
      reads this
    {
      && Children(layers, children) && |pos| == |children| && -1 <= current < |children|
      && (current == -1 ==> forall i :: 0 <= i < |children| ==> Passed(children[i], pos[i], last))
      && (current >= 0 ==>
            && last.Some? && pos[current] < |children[current]| && children[current][pos[current]].key == last.value
            && forall i :: 0 <= i < |children| ==> StandsAt(children[i], pos[i], last.value))
    }

    constructor (layers: seq<Raw>, children: seq<seq<Item>>)
      requires Children(layers, children)
      ensures Valid() && last == None && this.layers == layers
    {
      this.layers, this.children := layers, children;
      pos, current, last := seq(|children|, i => 0), -1, None;
    }

    function Key(): Bytes
      requires Valid() && current >= 0
      reads this
    {
      children[current][pos[current]].key
    }

    function Value(): Bytes
      requires Valid() && current >= 0
      reads this
    {
      children[current][pos[current]].value
    }

    /** Calls Next on every child that stands on the current key. */
    method Leave()
      requires Valid()
      modifies `pos, `current
      ensures Valid() && current == -1
    {
      if current >= 0 {
        var key := Key();
        var index := 0;
        ghost var before := pos;
        while index < |children|
          invariant 0 <= index <= |children| && |pos| == |children|
          invariant forall i :: 0 <= i < index ==> pos[i] == Advanced(children[i], before[i], key)
          invariant forall i :: index <= i < |children| ==> pos[i] == before[i]
        {
          if pos[index] < |children[index]| && children[index][pos[index]].key == key {
            pos := pos[index := pos[index] + 1];
          }
          index := index + 1;
        }
        forall i | 0 <= i < |children| ensures Passed(children[i], pos[i], last) {
          AdvancePasses(children[i], before[i], key);
        }
        current := -1;
      }
    }

    /** The first child whose next key is below all the others. */
    method Select() returns (best: int)
      requires Children(layers, children) && |pos| == |children|
      requires forall i :: 0 <= i < |pos| ==> pos[i] <= |children[i]|
      ensures -1 <= best < |children|
      ensures best == -1 ==> forall i :: 0 <= i < |children| ==> pos[i] == |children[i]|
      ensures best >= 0 ==>
                && pos[best] < |children[best]|
                && (forall i :: 0 <= i < |children| && pos[i] < |children[i]| ==>
                    !Less(children[i][pos[i]].key, children[best][pos[best]].key))
                && (forall i :: 0 <= i < best && pos[i] < |children[i]| ==>
                    children[i][pos[i]].key != children[best][pos[best]].key)
    {
      best := -1;
      var index := 0;
      while index < |children|
        invariant -1 <= best < index <= |children|
        invariant best == -1 ==> forall i :: 0 <= i < index ==> pos[i] == |children[i]|
        invariant best >= 0 ==> pos[best] < |children[best]|
        invariant best >= 0 ==> forall i :: 0 <= i < index && pos[i] < |children[i]| ==>
            !Less(children[i][pos[i]].key, children[best][pos[best]].key)
        invariant best >= 0 ==> forall i :: 0 <= i < best && pos[i] < |children[i]| ==>
            children[i][pos[i]].key != children[best][pos[best]].key
      {
        if pos[index] < |children[index]| {
          var key := children[index][pos[index]].key;
          LessIsIrreflexive(key);
          if best == -1 || Less(key, children[best][pos[best]].key) {
            forall i | 0 <= i < index && best >= 0 && pos[i] < |children[i]|
              ensures !Less(children[i][pos[i]].key, key) && children[i][pos[i]].key != key
            {
              if Less(children[i][pos[i]].key, key) {
                LessIsTransitive(children[i][pos[i]].key, key, children[best][pos[best]].key);
              }
            }
            best := index;
          }
        }
        index := index + 1;
      }
    }

    /** One step: the next key of the union of the layers, with the value Get returns for it. */
    method Next() returns (more: bool)
      requires Valid()
      modifies `pos, `current, `last
      ensures Valid() && (more <==> current >= 0)
      ensures more ==> last.Some? && IsNext(Merge(layers), old(last), last.value, Value()) && Key() == last.value
      ensures !more ==> last == old(last) && Exhausted(Merge(layers), last)
    {
      Leave();
      var best := Select();
      more := best >= 0;
      if more {
        var key := children[best][pos[best]].key;
        forall i | 0 <= i < |children| ensures StandsAt(children[i], pos[i], key) {
          ChoiceStands(children[i], pos[i], last, key);
        }
        ChoiceIsNext(layers, children, pos, last, best);
        current, last := best, Some(key);
      } else {
        AllPassed(layers, children, last);
      }
    }
  }

  // ---- Draining an iterator ----

  /** The entries an iterator has returned when its last key was `last`. */
  function UpTo(m: Raw, last: Option<Bytes>): Raw {
    map k | k in m && !Above(last, k) :: m[k]
  }

  ghost function Remaining(m: Raw, last: Option<Bytes>): nat {
    |set k | k in m && Above(last, k)|
  }

  lemma {:induction false} NextShrinks(m: Raw, last: Option<Bytes>, k: Bytes)
    requires k in m && Above(last, k)
    ensures Remaining(m, Some(k)) < Remaining(m, last)
  {
    var a, b := set x | x in m && Above(last, x), set x | x in m && Above(Some(k), x);
    LessIsIrreflexive(k);
    assert b <= a - {k} by {
      forall x | x in b ensures x in a {
        if last.Some? { LessIsTransitive(last.value, k, x); }
      }
    }
    assert |b| <= |a - {k}| by { SubsetSize(b, a - {k}); }
  }

  lemma {:induction false} AppendNext(items: seq<Item>, m: Raw, last: Option<Bytes>, k: Bytes, v: Bytes)
    requires Lists(items, UpTo(m, last)) && IsNext(m, last, k, v)
    ensures Lists(items + [Item(k, v)], UpTo(m, Some(k)))
  {
    var items', m' := items + [Item(k, v)], UpTo(m, Some(k));
    LessIsIrreflexive(k);
    forall i | 0 <= i < |items| ensures Less(items[i].key, k) && items[i].key in m' {
      var x := items[i].key;
      assert x in UpTo(m, last);
      LessIsTotal(last.value, x);
      if Less(x, last.value) { LessIsTransitive(x, last.value, k); }
      LessIsAsymmetric(x, k);
    }
    forall x | x in m' ensures exists i :: 0 <= i < |items'| && items'[i].key == x {
      LessIsTotal(k, x);
      if x == k {
        assert items'[|items|].key == x;
      } else {
        assert x in UpTo(m, last);
        var i :| 0 <= i < |items| && items[i].key == x;
        assert items'[i].key == x;
      }
    }
  }

  /** Every layer's keys, ascending and once each, with the topmost value. */
  method Collect(layers: seq<Raw>, children: seq<seq<Item>>) returns (items: seq<Item>)
    requires Children(layers, children)
    ensures Lists(items, Merge(layers))
  {
    ghost var m := Merge(layers);
    var it := new Merged(layers, children);
    items := [];
    while true
      invariant fresh(it) && it.Valid() && it.layers == layers
      invariant Lists(items, UpTo(m, it.last))
      decreases Remaining(m, it.last)
    {
      ghost var before := it.last;
      var more := it.Next();
      if !more { break; }
      NextShrinks(m, before, it.last.value);
      AppendNext(items, m, before, it.Key(), it.Value());
      items := items + [Item(it.Key(), it.Value())];
    }
    assert UpTo(m, it.last) == m;
  }

  /** What `skipDeletedDb` lets through: tombstones and empty values are skipped. */
  function Visible(m: Raw): Raw {
    map k | k in m && |m[k]| > 1 :: m[k]
  }

  class SkipDeleted {
    const inner: Merged

    constructor (inner: Merged)
      ensures this.inner == inner
    {
      this.inner := inner;
    }

    /** The next visible key after the last one; everything passed over is invisible. */
    method Next() returns (more: bool)
      requires inner.Valid()
      modifies inner`pos, inner`current, inner`last
      ensures inner.Valid() && (more <==> inner.current >= 0)
      ensures more ==>
          && inner.last.Some? && inner.Key() == inner.last.value
          && IsNext(Visible(Merge(inner.layers)), old(inner.last), inner.last.value, inner.Value())
      ensures !more ==> Exhausted(Visible(Merge(inner.layers)), old(inner.last))
    {
      ghost var m := Merge(inner.layers);
      while true
        invariant inner.Valid()
        invariant forall x :: x in Visible(m) && Above(old(inner.last), x) ==> Above(inner.last, x)
        invariant forall x :: Above(inner.last, x) ==> Above(old(inner.last), x)
        decreases Remaining(m, inner.last)
      {
        ghost var before := inner.last;
        more := inner.Next();
        if !more { return; }
        NextShrinks(m, before, inner.last.value);
        if |inner.Value()| > 1 { return; }
        forall x ensures x in Visible(m) && Above(before, x) ==> Above(inner.last, x)
                 ensures Above(inner.last, x) ==> Above(before, x)
        {
          LessIsTotal(inner.last.value, x);
          if before.Some? && Above(inner.last, x) { LessIsTransitive(before.value, inner.last.value, x); }
        }
      }
    }
  }

  method CollectVisible(layers: seq<Raw>, children: seq<seq<Item>>) returns (items: seq<Item>)
    requires Children(layers, children)
    ensures Lists(items, Visible(Merge(layers)))
  {
    ghost var m := Visible(Merge(layers));
    var inner := new Merged(layers, children);
    var it := new SkipDeleted(inner);
    items := [];
    ghost var last := inner.last;
    while true
      invariant fresh(inner) && inner.Valid() && inner.layers == layers && last == inner.last && it.inner == inner
      invariant Lists(items, UpTo(m, last))
      decreases Remaining(m, last)
    {
      var more := it.Next();
      if !more { break; }
      NextShrinks(m, last, inner.last.value);
      AppendNext(items, m, last, inner.Key(), inner.Value());
      items := items + [Item(inner.Key(), inner.Value())];
      last := inner.last;
    }
    assert UpTo(m, last) == m;
  }

  /** The iterator of a historical view: the private top layer over the visible
      part of the overlay merged with the snapshot. */
  method ListView(top: Raw, overlay: Raw, snapshot: Raw, topItems: seq<Item>, overlayItems: seq<Item>,
          snapshotItems: seq<Item>)
    returns (items: seq<Item>)
    requires Lists(topItems, top) && Lists(overlayItems, overlay) && Lists(snapshotItems, snapshot)
    ensures Lists(items, Visible(snapshot + overlay) + top)
  {
    var visible := CollectVisible([overlay, snapshot], [overlayItems, snapshotItems]);
    MergeTwo(overlay, snapshot);
    MergeTwo(top, Visible(snapshot + overlay));
    items := Collect([top, Visible(snapshot + overlay)], [topItems, visible]);
  }

  lemma MergeTwo(a: Raw, b: Raw)
    ensures Merge([a, b]) == b + a
  {
    assert [a, b][1..] == [b] && [b][1..] == [] && map[] + b == b;
    assert Merge([b]) == b;
  }

  /** The listing of an unwritten view that reads like a past state: exactly the
      keys that state holds with a non-empty value, ascending, with those values. */
  lemma {:induction false} ViewListing(items: seq<Item>, overlay: Raw, snapshot: Raw, past: State)
    requires Lists(items, Visible(snapshot + overlay)) && SameReads(ViewState(overlay, snapshot), past)
    ensures Ascending(items)
    ensures forall i :: 0 <= i < |items| ==>
        items[i].value != [] && Get(past, items[i].key) == Some(items[i].value[1..]) && items[i].value[1..] != []
    ensures forall k :: OrEmpty(Get(past, k)) != [] ==> exists i :: 0 <= i < |items| && items[i].key == k
  {
    var m := snapshot + overlay;
    forall i | 0 <= i < |items|
      ensures items[i].value != [] && Get(past, items[i].key) == Some(items[i].value[1..]) && items[i].value[1..] != []
    {
      assert OrEmpty(Get(Decode(m), items[i].key)) == OrEmpty(Get(past, items[i].key));
    }
    forall k | OrEmpty(Get(past, k)) != [] ensures exists i :: 0 <= i < |items| && items[i].key == k {
      assert OrEmpty(Get(Decode(m), k)) == OrEmpty(Get(past, k));
      assert k in Visible(m);
    }
  }
}
