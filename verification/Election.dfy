/** Which pillars produce the momentums of a period: the heaviest, a random part
    of them exchanged for others, in shuffled order. The pseudo-random permutation
    is a parameter: a seed and a length give some ordering of the indices. */
module Election {
  import opened Bytes

  datatype Delegation = Delegation(name: Bytes, producing: Bytes, weight: nat)

  /** The group's sizes: slots of a period, and how many of them are drawn. */
  datatype Group = Group(nodeCount: nat, randCount: nat)

  type Perm = (int, nat) -> seq<nat>

  function Iota(n: nat): seq<nat> { seq(n, i => i) }

  ghost predicate Shuffles(perm: Perm) {
    forall seed, n :: multiset(perm(seed, n)) == multiset(Iota(n))
  }

  /** The height as a signed 64-bit seed. */
  function Signed(h: int): (r: int)
    ensures -0x8000_0000_0000_0000 <= r < 0x8000_0000_0000_0000 && (h - r) % TWO_64 == 0
  {
    var low := h % TWO_64;
    if low < TWO_64 / 2 then low else low - TWO_64
  }

  // ---- Order by weight ----

  /** Heavier first, then by name. */
  predicate Before(a: Delegation, b: Delegation) {
    a.weight > b.weight || (a.weight == b.weight && Less(a.name, b.name))
  }

  ghost predicate Ordered(s: seq<Delegation>) {
    forall i, j :: 0 <= i < j < |s| ==> !Before(s[j], s[i])
  }

  /** A pillar name belongs to one registration. */
  ghost predicate NamesIdentify(s: multiset<Delegation>) {
    forall x, y :: x in s && y in s && x.name == y.name ==> x == y
  }

  ghost predicate NoRepeats<T(!new)>(s: multiset<T>) {
    forall x :: s[x] <= 1
  }

  lemma {:induction false} BeforeIsTransitive(a: Delegation, b: Delegation, c: Delegation)
    requires !Before(b, a) && !Before(c, b)
    ensures !Before(c, a)
  {
    if c.weight == b.weight == a.weight && Less(c.name, a.name) {
      LessIsTotal(b.name, a.name);
      LessIsTotal(c.name, b.name);
      if a.name != b.name && b.name != c.name { LessIsTransitive(a.name, b.name, c.name); }
      LessIsAsymmetric(c.name, a.name);
    }
  }

  lemma {:induction false} BeforeIsTotal(a: Delegation, b: Delegation)
    requires !Before(a, b) && !Before(b, a)
    ensures a.name == b.name
  {
    LessIsTotal(a.name, b.name);
  }

  function Insert(s: seq<Delegation>, x: Delegation): (r: seq<Delegation>)
    ensures multiset(r) == multiset(s) + multiset{x}
  {
    if s == [] || !Before(s[0], x) then
      assert multiset([x] + s) == multiset{x} + multiset(s);
      [x] + s
    else
      assert s == [s[0]] + s[1..];
      [s[0]] + Insert(s[1..], x)
  }

  /** The slice in order; by SortIsUnique any sorting gives this one. */
  function Sorted(s: seq<Delegation>): (r: seq<Delegation>)
    ensures multiset(r) == multiset(s) && |r| == |s|
  {
    if s == [] then [] else
      var r := Insert(Sorted(s[1..]), s[0]);
      assert s == [s[0]] + s[1..];
      assert |multiset(r)| == |multiset(s)|;
      r
  }

  lemma {:induction false} InsertOrders(s: seq<Delegation>, x: Delegation)
    requires Ordered(s)
    ensures Ordered(Insert(s, x))
  {
    var r := Insert(s, x);
    if s == [] {
    } else if !Before(s[0], x) {
      forall i, j | 0 <= i < j < |r| ensures !Before(r[j], r[i]) {
        if i == 0 && j > 1 { BeforeIsTransitive(x, s[0], s[j - 1]); }
      }
    } else {
      var t := Insert(s[1..], x);
      InsertOrders(s[1..], x);
      forall j | 0 <= j < |t| ensures !Before(t[j], s[0]) {
        assert t[j] in multiset(t);
        assert t[j] == x || t[j] in s[1..];
        if t[j] == x {
          if x.weight == s[0].weight { LessIsAsymmetric(s[0].name, x.name); }
        }
      }
    }
  }

  lemma {:induction false} SortsInOrder(s: seq<Delegation>)
    ensures Ordered(Sorted(s))
  {
    if s != [] {
      SortsInOrder(s[1..]);
      InsertOrders(Sorted(s[1..]), s[0]);
    }
  }

  /** The sorted list: the same pillars, none before a heavier one, nor before one of
      equal weight and smaller name. */
  lemma {:induction false} SortedIsOrdered(s: seq<Delegation>)
    ensures multiset(Sorted(s)) == multiset(s)
    ensures forall i, j :: 0 <= i < j < |Sorted(s)| ==>
              || Sorted(s)[i].weight > Sorted(s)[j].weight
              || (Sorted(s)[i].weight == Sorted(s)[j].weight && !Less(Sorted(s)[j].name, Sorted(s)[i].name))
  {
    SortsInOrder(s);
  }

  lemma {:induction false} MultisetWithout<T>(s: seq<T>, k: nat)
    requires k < |s|
    ensures multiset(s[..k] + s[k + 1..]) == multiset(s) - multiset{s[k]}
  {
    assert s == s[..k] + [s[k]] + s[k + 1..];
  }

  lemma {:induction false} FirstsAgree(s: seq<Delegation>, t: seq<Delegation>)
    requires s != [] && multiset(s) == multiset(t) && NamesIdentify(multiset(s)) && Ordered(s) && Ordered(t)
    ensures t != [] && s[0] == t[0]
  {
    assert s[0] in multiset(t) && t != [];
    assert t[0] in multiset(s);
    var j :| 0 <= j < |t| && t[j] == s[0];
    var k :| 0 <= k < |s| && s[k] == t[0];
    if j > 0 && k > 0 { BeforeIsTotal(s[0], t[0]); }
  }

  lemma {:induction false} TailFits(s: seq<Delegation>)
    requires s != []
    ensures multiset(s[1..]) == multiset(s) - multiset{s[0]}
    ensures NamesIdentify(multiset(s)) ==> NamesIdentify(multiset(s[1..]))
    ensures Ordered(s) ==> Ordered(s[1..])
  {
    hide Ordered, NamesIdentify;
    assert s == [s[0]] + s[1..];
    TailIsOrdered(s);
    FewerIdentify(multiset(s), multiset(s[1..]));
  }

  lemma FewerIdentify(s: multiset<Delegation>, t: multiset<Delegation>)
    requires t <= s
    ensures NamesIdentify(s) ==> NamesIdentify(t)
  {
  }

  lemma TailIsOrdered(s: seq<Delegation>)
    requires s != []
    ensures Ordered(s) ==> Ordered(s[1..])
  {
  }

  /** There is one way to put pillars in order. */
  lemma {:induction false} SortIsUnique(s: seq<Delegation>, t: seq<Delegation>)
    requires multiset(s) == multiset(t) && NamesIdentify(multiset(s)) && Ordered(s) && Ordered(t)
    ensures s == t
  {
    hide Ordered, NamesIdentify;
    if s == [] {
      assert |multiset(t)| == 0;
    } else {
      FirstsAgree(s, t);
      TailFits(s);
      TailFits(t);
      SortIsUnique(s[1..], t[1..]);
      assert s == [s[0]] + s[1..] && t == [t[0]] + t[1..];
    }
  }

  lemma SortIgnoresOrder(s: seq<Delegation>, t: seq<Delegation>)
    requires multiset(s) == multiset(t) && NamesIdentify(multiset(s))
    ensures Sorted(s) == Sorted(t)
  {
    SortsInOrder(s);
    SortsInOrder(t);
    SortIsUnique(Sorted(s), Sorted(t));
  }

  // ---- Picking by index ----

  ghost predicate Indexes(p: seq<nat>, n: nat) { forall i :: 0 <= i < |p| ==> p[i] < n }

  function Picked<T>(s: seq<T>, p: seq<nat>): (r: seq<T>)
    requires Indexes(p, |s|)
    ensures |r| == |p|
  {
    seq(|p|, i requires 0 <= i < |p| => s[p[i]])
  }

  lemma {:induction false} SamePicks<T>(s: seq<T>, p: seq<nat>, q: seq<nat>)
    requires Indexes(p, |s|) && Indexes(q, |s|) && multiset(p) == multiset(q)
    ensures multiset(Picked(s, p)) == multiset(Picked(s, q))
  {
    hide Picked;
    if p == [] {
      assert |multiset(q)| == 0;
      assert q == p;
    } else {
      assert p[0] in multiset(q);
      var k :| 0 <= k < |q| && q[k] == p[0];
      MultisetWithout(q, k);
      var q' := q[..k] + q[k + 1..];
      assert multiset(p[1..]) == multiset(q') by { assert p == [p[0]] + p[1..]; }
      SamePicks(s, p[1..], q');
      PickedFirst(s, p);
      PickedWithout(s, q, k);
    }
  }

  lemma PickedFirst<T>(s: seq<T>, p: seq<nat>)
    requires Indexes(p, |s|) && p != []
    ensures multiset(Picked(s, p)) == multiset(Picked(s, p[1..])) + multiset{s[p[0]]}
  {
    assert Picked(s, p) == [s[p[0]]] + Picked(s, p[1..]);
  }

  lemma {:induction false} PickedWithout<T>(s: seq<T>, p: seq<nat>, k: nat)
    requires Indexes(p, |s|) && k < |p|
    ensures multiset(Picked(s, p)) == multiset(Picked(s, p[..k] + p[k + 1..])) + multiset{s[p[k]]}
  {
    MultisetWithout(Picked(s, p), k);
    assert Picked(s, p)[..k] + Picked(s, p)[k + 1..] == Picked(s, p[..k] + p[k + 1..]);
  }

  lemma {:induction false} PermIndexes(perm: Perm, seed: int, n: nat)
    requires Shuffles(perm)
    ensures Indexes(perm(seed, n), n) && |perm(seed, n)| == n
  {
    var p := perm(seed, n);
    assert |multiset(p)| == |multiset(Iota(n))|;
    forall i | 0 <= i < |p| ensures p[i] < n {
      assert p[i] in multiset(Iota(n));
    }
  }

  /** A shuffled slice. */
  function Shuffled<T>(perm: Perm, seed: int, s: seq<T>): (r: seq<T>)
    requires Shuffles(perm)
    ensures |r| == |s|
  {
    PermIndexes(perm, seed, |s|);
    Picked(s, perm(seed, |s|))
  }

  lemma {:induction false} ShuffledKeeps<T>(perm: Perm, seed: int, s: seq<T>)
    requires Shuffles(perm)
    ensures multiset(Shuffled(perm, seed, s)) == multiset(s)
  {
    PermIndexes(perm, seed, |s|);
    SamePicks(s, perm(seed, |s|), Iota(|s|));
    assert Picked(s, Iota(|s|)) == s;
  }

  /** The loops that append one picked element after the other. */
  method Pick<T>(s: seq<T>, p: seq<nat>) returns (r: seq<T>)
    requires Indexes(p, |s|)
    ensures r == Picked(s, p)
  {
    r := [];
    for k := 0 to |p|
      invariant r == Picked(s, p[..k])
    {
      r := r + [s[p[k]]];
    }
    assert p[..|p|] == p;
  }

  // ---- Too few pillars: fill up ----

  /** A block repeated up to a length. */
  function Filled<T>(block: seq<T>, total: nat): (r: seq<T>)
    requires block != []
    ensures |r| == total
    decreases total
  {
    if total < |block| then block[..total] else block + Filled(block, total - |block|)
  }

  lemma {:induction false} FillStep<T>(block: seq<T>, result: seq<T>, total: nat)
    requires block != [] && |result| <= total && result + Filled(block, total - |result|) == Filled(block, total)
    ensures var more := result + block;
            if |more| <= total then more + Filled(block, total - |more|) == Filled(block, total)
            else more[..total] == Filled(block, total)
  {
    var left := total - |result|;
    if left < |block| {
      assert (result + block)[..total] == result + block[..left];
    } else {
      assert result + (block + Filled(block, left - |block|)) == result + block + Filled(block, left - |block|);
    }
  }

  method FillUp<T>(block: seq<T>, total: nat) returns (r: seq<T>)
    requires block != []
    ensures r == Filled(block, total)
  {
    hide Filled;
    var result := [];
    assert result + Filled(block, total) == Filled(block, total);
    while |result| < total
      invariant if |result| <= total then result + Filled(block, total - |result|) == Filled(block, total)
                else result[..total] == Filled(block, total)
      decreases total - |result|
    {
      FillStep(block, result, total);
      result := result + block;
    }
    return result[..total];
  }

  /** A share of total in n parts, rounded down or up. */
  ghost predicate FairShare(share: nat, total: nat, n: nat) {
    (share - 1) * n < total < (share + 1) * n
  }

  /** Every element of a block without repetitions gets its share. */
  lemma {:induction false} FilledShares<T>(block: seq<T>, total: nat, x: T)
    requires x in block && multiset(block)[x] == 1
    ensures FairShare(multiset(Filled(block, total))[x], total, |block|)
    decreases total
  {
    var n, share := |block|, multiset(Filled(block, total))[x];
    if total < n {
      assert block == block[..total] + block[total..];
      assert share <= 1;
      if total == 0 { assert share == 0; }
    } else {
      FilledShares(block, total - n, x);
      assert share == multiset(Filled(block, total - n))[x] + 1;
      assert (share + 1) * n == share * n + n;
      assert (share - 2) * n == (share - 1) * n - n;
    }
  }

  // ---- Selection ----

  /** The heaviest of them, and the rest. */
  function Heaviest(group: Group, ds: seq<Delegation>): (r: seq<Delegation>) {
    if |ds| <= group.nodeCount then ds else Sorted(ds)[..group.nodeCount]
  }

  function Others(group: Group, ds: seq<Delegation>): (r: seq<Delegation>) {
    if |ds| <= group.nodeCount then [] else Sorted(ds)[group.nodeCount..]
  }

  lemma {:induction false} SplitKeeps(group: Group, ds: seq<Delegation>)
    ensures multiset(Heaviest(group, ds)) + multiset(Others(group, ds)) == multiset(ds)
  {
    var s := Sorted(ds);
    if |ds| > group.nodeCount { assert s == s[..group.nodeCount] + s[group.nodeCount..]; }
  }

  /** The drawn part: from the others and the heaviest that were passed over. */
  function Drawn(perm: Perm, group: Group, seed: int, a: seq<Delegation>, b: seq<Delegation>): (r: seq<Delegation>)
    requires Shuffles(perm) && |a| == group.nodeCount && group.randCount <= group.nodeCount
    ensures |r| == group.nodeCount
  {
    var top := group.nodeCount - group.randCount;
    var order := Shuffled(perm, seed, Sorted(a));
    order[..top] + Shuffled(perm, Signed(seed + 1), Sorted(b) + order[top..])[..group.randCount]
  }

  function Selected(perm: Perm, group: Group, height: nat, ds: seq<Delegation>): (r: seq<Delegation>)
    requires Shuffles(perm) && ds != [] && group.randCount <= group.nodeCount
    ensures |r| == group.nodeCount
  {
    var a, b, seed := Heaviest(group, ds), Others(group, ds), Signed(height);
    var chosen := if |a| != group.nodeCount then Filled(Shuffled(perm, seed, Sorted(a)), group.nodeCount)
                  else Drawn(perm, group, seed, a, b);
    Shuffled(perm, seed, chosen)
  }

  method FilterByWeight(group: Group, ds: seq<Delegation>) returns (a: seq<Delegation>, b: seq<Delegation>)
    ensures multiset(a) + multiset(b) == multiset(ds)
    ensures |a| == (if |ds| < group.nodeCount then |ds| else group.nodeCount)
    ensures forall i, j :: 0 <= i < |a| && 0 <= j < |b| ==>
              a[i].weight > b[j].weight || (a[i].weight == b[j].weight && !Less(b[j].name, a[i].name))
    ensures a == Heaviest(group, ds) && b == Others(group, ds)
  {
    SplitKeeps(group, ds);
    SortsInOrder(ds);
    if |ds| <= group.nodeCount {
      return ds, [];
    }
    var s := Sorted(ds);
    return s[..group.nodeCount], s[group.nodeCount..];
  }

  method FilterRandom(perm: Perm, group: Group, seed: int, a: seq<Delegation>, b: seq<Delegation>)
    returns (result: seq<Delegation>)
    requires Shuffles(perm) && (a != [] || group.nodeCount == 0) && group.randCount <= group.nodeCount
    ensures result == if |a| != group.nodeCount then Filled(Shuffled(perm, seed, Sorted(a)), group.nodeCount)
                      else Drawn(perm, group, seed, a, b)
  {
    var total := group.nodeCount;
    var groupA, groupB := Sorted(a), Sorted(b);
    hide Shuffles, Picked, Sorted, Filled;
    PermIndexes(perm, seed, |groupA|);
    if total != |groupA| {
      var block := Pick(groupA, perm(seed, |groupA|));
      result := FillUp(block, total);
      return;
    }
    var topTotal := total - group.randCount;
    var topIndex := perm(seed, |groupA|);
    result := Pick(groupA, topIndex[..topTotal]);
    var passedOver := Pick(groupA, topIndex[topTotal..]);
    PickedParts(groupA, topIndex, topTotal);
    groupB := groupB + passedOver;
    PermIndexes(perm, Signed(seed + 1), |groupB|);
    var randomIndex := perm(Signed(seed + 1), |groupB|);
    PickedParts(groupB, randomIndex, group.randCount);
    var promoted := Pick(groupB, randomIndex[..group.randCount]);
    result := result + promoted;
  }

  lemma PickedParts<T>(s: seq<T>, p: seq<nat>, k: nat)
    requires Indexes(p, |s|) && k <= |p|
    ensures Picked(s, p[..k]) == Picked(s, p)[..k] && Picked(s, p[k..]) == Picked(s, p)[k..]
  {
  }

  method SelectProducers(perm: Perm, group: Group, height: nat, ds: seq<Delegation>)
    returns (producers: seq<Delegation>)
    requires Shuffles(perm) && ds != [] && group.randCount <= group.nodeCount
    ensures producers == Selected(perm, group, height, ds)
  {
    var a, b := FilterByWeight(group, ds);
    producers := FilterRandom(perm, group, Signed(height), a, b);
    PermIndexes(perm, Signed(height), |producers|);
    producers := Pick(producers, perm(Signed(height), |producers|));
  }

  // ---- What the selection guarantees ----

  /** The same pillars in any order give the same producers. */
  lemma {:induction false} SelectionIgnoresOrder(perm: Perm, group: Group, height: nat, ds: seq<Delegation>,
          es: seq<Delegation>)
    requires Shuffles(perm) && ds != [] && group.randCount <= group.nodeCount
    requires multiset(ds) == multiset(es) && NamesIdentify(multiset(ds))
    ensures es != [] && Selected(perm, group, height, ds) == Selected(perm, group, height, es)
  {
    hide Shuffled, Shuffles, Filled, Sorted;
    assert |multiset(ds)| == |multiset(es)|;
    SortIgnoresOrder(ds, es);
  }

  lemma SmallerHasFewer<T>(a: multiset<T>, b: multiset<T>)
    requires a <= b
    ensures |a| <= |b|
  {
    assert b == a + (b - a);
  }

  /** With enough pillars every slot goes to a different one, and all but the drawn
      ones go to the heaviest. */
  lemma {:induction false} EnoughPillars(perm: Perm, group: Group, height: nat, ds: seq<Delegation>)
    requires Shuffles(perm) && group.randCount <= group.nodeCount <= |ds| && ds != []
    ensures var r := multiset(Selected(perm, group, height, ds));
            && r <= multiset(ds)
            && |r * multiset(Sorted(ds)[..group.nodeCount])| >= group.nodeCount - group.randCount
    ensures NoRepeats(multiset(ds)) ==> NoRepeats(multiset(Selected(perm, group, height, ds)))
  {
    hide Shuffled, Shuffles, Filled, Sorted, Drawn;
    var a, b := Heaviest(group, ds), Others(group, ds);
    var drawn := Drawn(perm, group, Signed(height), a, b);
    ShuffledKeeps(perm, Signed(height), drawn);
    SplitKeeps(group, ds);
    DrawnFrom(perm, group, Signed(height), a, b);
    var heaviest := multiset(Sorted(ds)[..group.nodeCount]);
    if |ds| == group.nodeCount { assert Sorted(ds)[..group.nodeCount] == Sorted(ds); }
    assert heaviest == multiset(a);
  }

  lemma {:induction false} DrawnFrom(perm: Perm, group: Group, seed: int, a: seq<Delegation>, b: seq<Delegation>)
    requires Shuffles(perm) && |a| == group.nodeCount && group.randCount <= group.nodeCount
    ensures multiset(Drawn(perm, group, seed, a, b)) <= multiset(a) + multiset(b)
    ensures |multiset(Drawn(perm, group, seed, a, b)) * multiset(a)| >= group.nodeCount - group.randCount
  {
    hide Shuffled, Shuffles, Sorted;
    var top := group.nodeCount - group.randCount;
    var order := Shuffled(perm, seed, Sorted(a));
    ShuffledKeeps(perm, seed, Sorted(a));
    assert order == order[..top] + order[top..];
    var pool := Shuffled(perm, Signed(seed + 1), Sorted(b) + order[top..]);
    ShuffledKeeps(perm, Signed(seed + 1), Sorted(b) + order[top..]);
    assert pool == pool[..group.randCount] + pool[group.randCount..];
    var kept, promoted := multiset(order[..top]), multiset(pool[..group.randCount]);
    assert multiset(order) == kept + multiset(order[top..]) == multiset(a);
    assert promoted <= multiset(pool) == multiset(b) + multiset(order[top..]);
    assert multiset(Drawn(perm, group, seed, a, b)) == kept + promoted;
    SmallerHasFewer(kept, (kept + promoted) * multiset(a));
  }

  /** With fewer pillars than slots each gets an equal share, up to rounding. */
  lemma {:induction false} FewPillars(perm: Perm, group: Group, height: nat, ds: seq<Delegation>, d: Delegation)
    requires Shuffles(perm) && group.randCount <= group.nodeCount && 0 < |ds| < group.nodeCount
    requires d in ds && NoRepeats(multiset(ds))
    ensures FairShare(multiset(Selected(perm, group, height, ds))[d], group.nodeCount, |ds|)
  {
    hide Shuffled, Shuffles, Filled, Sorted;
    var block := Shuffled(perm, Signed(height), Sorted(ds));
    ShuffledKeeps(perm, Signed(height), Sorted(ds));
    ShuffledKeeps(perm, Signed(height), Filled(block, group.nodeCount));
    assert multiset(block)[d] == 1;
    assert d in multiset(block);
    FilledShares(block, group.nodeCount, d);
  }

  // ---- Slot by slot ----

  lemma Apart(n: nat, a: nat, b: nat)
    requires a < b
    ensures a * n + n <= b * n
  {
    assert b * n == a * n + n + (b - a - 1) * n;
  }

  lemma SameRemainder(n: nat, a: nat, r: nat, b: nat, t: nat)
    requires r < n && t < n && a * n + r == b * n + t
    ensures r == t
  {
    if a < b { Apart(n, a, b); }
    if b < a { Apart(n, b, a); }
  }

  lemma ModBack(i: nat, n: nat)
    requires 0 < n <= i
    ensures i % n == (i - n) % n
  {
    var a, b := (i - n) / n, i / n;
    assert (a + 1) * n == a * n + n;
    SameRemainder(n, a + 1, (i - n) % n, b, i % n);
  }

  lemma {:induction false} FilledAt<T>(block: seq<T>, total: nat, i: nat)
    requires block != [] && i < total
    ensures i % |block| < |block| && Filled(block, total)[i] == block[i % |block|]
    decreases total
  {
    if |block| <= i {
      FilledAt(block, total - |block|, i - |block|);
      ModBack(i, |block|);
    }
  }

  /** The heaviest, sorted: the front of the sorted list. */
  lemma {:induction false} SortedSplit(group: Group, ds: seq<Delegation>)
    requires NamesIdentify(multiset(ds)) && group.nodeCount <= |ds|
    ensures Sorted(Heaviest(group, ds)) == Sorted(ds)[..group.nodeCount]
    ensures Sorted(Others(group, ds)) == Sorted(ds)[group.nodeCount..]
  {
    hide Sorted;
    var all, n := Sorted(ds), group.nodeCount;
    SortsInOrder(ds);
    SortsInOrder(all[..n]);
    SortsInOrder(all[n..]);
    assert all == all[..n] + all[n..];
    FewerIdentify(multiset(ds), multiset(all[..n]));
    FewerIdentify(multiset(ds), multiset(all[n..]));
    if |ds| == n {
      assert all[..n] == all && all[n..] == [];
      EmptySorted();
    } else {
      SortIsUnique(Sorted(all[..n]), all[..n]);
      SortIsUnique(Sorted(all[n..]), all[n..]);
    }
  }

  lemma EmptySorted()
    ensures Sorted([]) == []
  {
  }

  /** Who takes place j of n, for pillars from heavy to light: the first places go to the
      heaviest n in their shuffled order; the last k are drawn, with the next seed, from
      the lighter ones and the heaviest passed over. */
  ghost function AtPlace(perm: Perm, n: nat, k: nat, seed: int, all: seq<Delegation>, j: nat): Delegation
    requires Shuffles(perm) && k <= n <= |all| && j < n
  {
    PermIndexes(perm, seed, n);
    PermIndexes(perm, Signed(seed + 1), |all| - n + k);
    var p, q := perm(seed, n), perm(Signed(seed + 1), |all| - n + k);
    if j < n - k then all[p[j]]
    else
      var c := q[j - (n - k)];
      if c < |all| - n then all[n + c] else all[p[n - k + (c - (|all| - n))]]
  }

  lemma {:induction false} DrawnAt(perm: Perm, group: Group, seed: int, a: seq<Delegation>, b: seq<Delegation>,
          all: seq<Delegation>, j: nat)
    requires Shuffles(perm) && |a| == group.nodeCount && group.randCount <= group.nodeCount && j < group.nodeCount
    requires |all| == |a| + |b| && Sorted(a) == all[..|a|] && Sorted(b) == all[|a|..]
    ensures Drawn(perm, group, seed, a, b)[j] == AtPlace(perm, group.nodeCount, group.randCount, seed, all, j)
  {
    hide Sorted, Shuffles;
    var n, k := group.nodeCount, group.randCount;
    PermIndexes(perm, seed, n);
    PermIndexes(perm, Signed(seed + 1), |all| - n + k);
    var order := Shuffled(perm, seed, all[..n]);
    var pool := all[n..] + order[n - k..];
    assert |pool| == |all| - n + k;
    if j >= n - k {
      var c := perm(Signed(seed + 1), |all| - n + k)[j - (n - k)];
      assert Shuffled(perm, Signed(seed + 1), pool)[j - (n - k)] == pool[c];
      if c >= |all| - n { assert pool[c] == order[n - k + (c - (|all| - n))]; }
    }
  }

  /** With enough pillars, who gets slot i: whoever takes the place the shuffle sends it to. */
  lemma {:induction false} SlotExactly(perm: Perm, group: Group, height: nat, ds: seq<Delegation>, i: nat)
    requires Shuffles(perm) && group.randCount <= group.nodeCount <= |ds| && ds != [] && i < group.nodeCount
    requires NamesIdentify(multiset(ds))
    ensures var all, n, seed := Sorted(ds), group.nodeCount, Signed(height);
            && |all| == |ds| && |perm(seed, n)| == n && perm(seed, n)[i] < n
            && Selected(perm, group, height, ds)[i] == AtPlace(perm, n, group.randCount, seed, all, perm(seed, n)[i])
  {
    hide Sorted, Shuffles, Filled, Drawn, AtPlace;
    var all, n, seed := Sorted(ds), group.nodeCount, Signed(height);
    PermIndexes(perm, seed, n);
    SortsInOrder(ds);
    assert |multiset(all)| == |multiset(ds)|;
    SortedSplit(group, ds);
    DrawnAt(perm, group, seed, Heaviest(group, ds), Others(group, ds), all, perm(seed, n)[i]);
  }

  /** With fewer pillars than slots they repeat in their shuffled order. */
  lemma {:induction false} FewSlotExactly(perm: Perm, group: Group, height: nat, ds: seq<Delegation>, i: nat)
    requires Shuffles(perm) && group.randCount <= group.nodeCount && 0 < |ds| < group.nodeCount && i < group.nodeCount
    ensures var all, seed := Sorted(ds), Signed(height);
            var p, q := perm(seed, group.nodeCount), perm(seed, |ds|);
            && |all| == |ds| == |q| && |p| == group.nodeCount && q[p[i] % |ds|] < |ds|
            && Selected(perm, group, height, ds)[i] == all[q[p[i] % |ds|]]
  {
    hide Sorted, Shuffles, Filled;
    var all, seed := Sorted(ds), Signed(height);
    SortsInOrder(ds);
    assert |multiset(all)| == |multiset(ds)|;
    PermIndexes(perm, seed, group.nodeCount);
    PermIndexes(perm, seed, |ds|);
    var block := Shuffled(perm, seed, all);
    FilledAt(block, group.nodeCount, perm(seed, group.nodeCount)[i]);
  }
}
