/** Inserting a batch of momentums: known ones are skipped, a longer side chain may
    replace up to thirty of ours, the rest is applied one by one. */
module Reorg {
  import opened Bytes
  import opened VersionedDb

  datatype Momentum = Momentum(id: HashHeight, previousHash: Bytes)

  const MAX_ROLLBACK := 30

  function Below(h: uint64): uint64 { (h + TWO_64 - 1) % TWO_64 }

  /** `Momentum.Previous`: the height wraps below zero. */
  function Previous(m: Momentum): HashHeight { HashHeight(m.previousHash, Below(m.id.height)) }

  /** Our momentums from genesis on: never empty, heights from 1. */
  ghost predicate Linked(chain: seq<Momentum>) {
    0 < |chain| < TWO_64 && forall i :: 0 <= i < |chain| ==> Sits(chain, i)
  }

  ghost predicate Sits(chain: seq<Momentum>, i: nat)
    requires i < |chain|
  {
    chain[i].id.height == i + 1 && (i > 0 ==> Previous(chain[i]) == chain[i - 1].id)
  }

  /** A batch as it is downloaded: each momentum names the one before it. */
  ghost predicate Batch(ms: seq<Momentum>) {
    && ms != [] && 1 <= ms[0].id.height && ms[0].id.height + |ms| < TWO_64
    && forall i :: 0 < i < |ms| ==> Follows(ms, i)
  }

  ghost predicate Follows(ms: seq<Momentum>, i: nat)
    requires 0 < i < |ms|
  {
    Previous(ms[i]) == ms[i - 1].id
  }

  lemma {:induction false} BatchHeights(ms: seq<Momentum>, i: nat)
    requires Batch(ms) && i < |ms|
    ensures ms[i].id.height == ms[0].id.height + i
  {
    if i > 0 {
      BatchHeights(ms, i - 1);
      assert Follows(ms, i);
    }
  }

  lemma {:induction false} BatchRest(ms: seq<Momentum>, n: nat)
    requires Batch(ms) && n < |ms|
    ensures Batch(ms[n..])
  {
    BatchHeights(ms, n);
    forall i | 0 < i < |ms| - n ensures Follows(ms[n..], i) { assert Follows(ms, n + i); }
  }

  function ByHeight(chain: seq<Momentum>, h: uint64): Option<Momentum> {
    if 1 <= h <= |chain| then Some(chain[h - 1]) else None
  }

  function Frontier(chain: seq<Momentum>): Momentum
    requires chain != []
  {
    chain[|chain| - 1]
  }

  // ---- What an insertion amounts to ----

  /** Momentums at the front of the batch that are ours. */
  function Known(chain: seq<Momentum>, ms: seq<Momentum>): (n: nat)
    ensures n <= |ms|
    ensures forall i :: 0 <= i < n ==>
        ByHeight(chain, ms[i].id.height).Some? && ByHeight(chain, ms[i].id.height).value.id.hash == ms[i].id.hash
  {
    if ms == [] then 0
    else
      var ours := ByHeight(chain, ms[0].id.height);
      if ours == None || ours.value.id.hash != ms[0].id.hash then 0 else Known(chain, ms[1..]) + 1
  }

  /** What supervisor and pool make of a momentum on top of a chain. */
  type Applies = (seq<Momentum>, Momentum) -> bool

  /** Momentums applied until one fails. */
  function Applied(applies: Applies, chain: seq<Momentum>, ms: seq<Momentum>): (n: nat)
    ensures n <= |ms|
    decreases |ms|
  {
    if ms == [] || !applies(chain, ms[0]) then 0 else Applied(applies, chain + [ms[0]], ms[1..]) + 1
  }

  datatype Decision = NothingNew | Extend | Replace(keep: nat) | Crash | NoLink | TooFar | NotLonger

  /** The checks before anything changes; ms is what is not known of the batch. */
  function Decide(chain: seq<Momentum>, ms: seq<Momentum>): Decision
    requires chain != []
  {
    if ms == [] then NothingNew
    else if Previous(ms[0]) == Frontier(chain).id then Extend
    else
      var target := ByHeight(chain, Below(ms[0].id.height));
      if target == None then Crash
      else if target.value.id != Previous(ms[0]) then NoLink
      else if Frontier(chain).id.height - target.value.id.height > MAX_ROLLBACK then TooFar
      else if ms[|ms| - 1].id.height <= Frontier(chain).id.height then NotLonger
      else Replace(target.value.id.height)
  }

  datatype Outcome = Success | Failure(index: nat) | Refused(decision: Decision) | Crashed

  datatype Result = Result(chain: seq<Momentum>, outcome: Outcome)

  function Inserted(applies: Applies, chain: seq<Momentum>, batch: seq<Momentum>): Result
    requires chain != []
  {
    var start := Known(chain, batch);
    var ms := batch[start..];
    var decision := Decide(chain, ms);
    match decision
    case NothingNew => Result(chain, Success)
    case Extend => Finished(applies, chain, ms, start)
    case Replace(keep) =>
      if keep <= |chain| then Finished(applies, chain[..keep], ms, start) else Result(chain, Refused(decision))
    case Crash => Result(chain, Crashed)
    case _ => Result(chain, Refused(decision))
  }

  function Finished(applies: Applies, base: seq<Momentum>, ms: seq<Momentum>, start: nat): Result {
    var n := Applied(applies, base, ms);
    Result(base + ms[..n], if n == |ms| then Success else Failure(start + n))
  }

  // ---- What it guarantees ----

  /** A momentum of the batch that continues a chain, and those after it. */
  lemma {:induction false} LinkedAppend(chain: seq<Momentum>, ms: seq<Momentum>, n: nat)
    requires Linked(chain) && Batch(ms) && n <= |ms| && Previous(ms[0]) == Frontier(chain).id
    ensures Linked(chain + ms[..n]) && ms[0].id.height == |chain| + 1
  {
    assert Sits(chain, |chain| - 1);
    var longer := chain + ms[..n];
    forall i | 0 <= i < |longer| ensures Sits(longer, i) {
      if i < |chain| {
        assert Sits(chain, i);
      } else {
        BatchHeights(ms, i - |chain|);
        if i > |chain| { assert Follows(ms, i - |chain|); }
      }
    }
  }

  lemma {:induction false} LinkedPrefix(chain: seq<Momentum>, n: nat)
    requires Linked(chain) && 0 < n <= |chain|
    ensures Linked(chain[..n])
  {
    forall i | 0 <= i < n ensures Sits(chain[..n], i) { assert Sits(chain, i); }
  }

  /** The fork point: ours up to it, different above it, at most thirty momentums. */
  lemma {:induction false} ReplaceForks(chain: seq<Momentum>, ms: seq<Momentum>)
    requires Linked(chain) && Batch(ms) && Known(chain, ms) == 0 && Decide(chain, ms).Replace?
    ensures var keep := Decide(chain, ms).keep;
            && 0 < keep < |chain| && |chain| - keep <= MAX_ROLLBACK
            && chain[keep - 1].id == Previous(ms[0]) && chain[keep].id.hash != ms[0].id.hash &&
                ms[0].id.height == keep + 1
            && ms[|ms| - 1].id.height > |chain|
  {
    var keep := Decide(chain, ms).keep;
    assert Sits(chain, |chain| - 1);
    assert Below(ms[0].id.height) == ms[0].id.height - 1;
    assert Sits(chain, keep - 1);
  }

  lemma {:induction false} NothingKnownAfter(chain: seq<Momentum>, ms: seq<Momentum>)
    ensures Known(chain, ms[Known(chain, ms)..]) == 0
  {
    var n := Known(chain, ms);
    if n > 0 {
      assert ms[1..][n - 1..] == ms[n..];
      NothingKnownAfter(chain, ms[1..]);
    }
  }

  /** How much of our chain stays under the inserted momentums. */
  function Keep(chain: seq<Momentum>, ms: seq<Momentum>): nat
    requires chain != []
  {
    var d := Decide(chain, ms);
    if d.Replace? then d.keep else |chain|
  }

  /** What any insertion leaves: our chain up to a point at most thirty below the
      frontier, then the momentums of the batch that follow on it; all linked. */
  lemma {:induction false} InsertionLinks(applies: Applies, chain: seq<Momentum>, batch: seq<Momentum>)
    requires Linked(chain) && Batch(batch)
    ensures var r, ms := Inserted(applies, chain, batch), batch[Known(chain, batch)..];
            var keep := Keep(chain, ms);
            && Linked(r.chain) && 0 < keep <= |chain| && |chain| - keep <= MAX_ROLLBACK && keep <= |r.chain|
            && r.chain[..keep] == chain[..keep] && r.chain[keep..] <= ms
            && (r.outcome.Refused? || r.outcome.Crashed? ==> r.chain == chain)
  {
    var start := Known(chain, batch);
    var ms, r := batch[start..], Inserted(applies, chain, batch);
    NothingKnownAfter(chain, batch);
    if ms != [] {
      BatchRest(batch, start);
      var d := Decide(chain, ms);
      if d.Replace? {
        ReplaceForks(chain, ms);
        LinkedPrefix(chain, d.keep);
        LinkedAppend(chain[..d.keep], ms, Applied(applies, chain[..d.keep], ms));
      } else if d.Extend? {
        LinkedAppend(chain, ms, Applied(applies, chain, ms));
      }
    }
  }

  /** Success leaves the chain alone when all was known, and otherwise makes it
      strictly longer and ends it in the batch's last momentum. */
  lemma {:induction false} SuccessEndsAtTail(applies: Applies, chain: seq<Momentum>, batch: seq<Momentum>)
    requires Linked(chain) && Batch(batch) && Inserted(applies, chain, batch).outcome == Success
    ensures var r := Inserted(applies, chain, batch);
            if Known(chain, batch) == |batch| then r.chain == chain
            else |r.chain| > |chain| && r.chain[|r.chain| - 1] == batch[|batch| - 1]
  {
    var start := Known(chain, batch);
    var ms, r := batch[start..], Inserted(applies, chain, batch);
    NothingKnownAfter(chain, batch);
    if ms != [] {
      BatchRest(batch, start);
      BatchHeights(ms, |ms| - 1);
      if Decide(chain, ms).Replace? { ReplaceForks(chain, ms); }
      assert ms[..|ms|] == ms;
    }
  }

  /** How many apply: the first that does not stops them. */
  lemma {:induction false} AppliedStops(applies: Applies, chain: seq<Momentum>, ms: seq<Momentum>, n: nat)
    requires n <= |ms|
    ensures Applied(applies, chain, ms) < n <==> exists i :: 0 <= i < n && !applies(chain + ms[..i], ms[i])
    decreases |ms|
  {
    if ms != [] && n > 0 {
      assert chain + ms[..0] == chain;
      if applies(chain, ms[0]) {
        AppliedStops(applies, chain + [ms[0]], ms[1..], n - 1);
        forall i | 0 <= i < n - 1
          ensures chain + [ms[0]] + ms[1..][..i] == chain + ms[..i + 1] && ms[1..][i] == ms[i + 1]
        {}
        if i :| 0 <= i < n - 1 && !applies(chain + [ms[0]] + ms[1..][..i], ms[1..][i]) {
          assert !applies(chain + ms[..i + 1], ms[i + 1]);
        }
        if i :| 0 <= i < n && !applies(chain + ms[..i], ms[i]) {
          assert i > 0 && !applies(chain + [ms[0]] + ms[1..][..i - 1], ms[1..][i - 1]);
        }
      } else {
        assert !applies(chain + ms[..0], ms[0]);
      }
    }
  }

  // ---- Each outcome exactly ----

  predicate IsOurs(chain: seq<Momentum>, m: Momentum) {
    exists k :: 0 <= k < |chain| && chain[k].id == m.id
  }

  /** The s-th is the first momentum of the batch that is not ours. */
  ghost predicate FirstNew(chain: seq<Momentum>, batch: seq<Momentum>, s: nat) {
    s < |batch| && !IsOurs(chain, batch[s]) && forall i :: 0 <= i < s ==> IsOurs(chain, batch[i])
  }

  /** It names as previous our momentum right below it. */
  predicate SitsOn(chain: seq<Momentum>, m: Momentum) {
    1 < m.id.height <= |chain| + 1 && chain[m.id.height - 2].id == Previous(m)
  }

  /** The momentums before the n-th apply, each on top of those before it. */
  ghost predicate ApplyUpTo(applies: Applies, base: seq<Momentum>, ms: seq<Momentum>, n: nat) {
    n <= |ms| && forall i :: 0 <= i < n ==> applies(base + ms[..i], ms[i])
  }

  lemma OursByHeight(chain: seq<Momentum>, m: Momentum)
    requires Linked(chain)
    ensures IsOurs(chain, m) <==>
            ByHeight(chain, m.id.height).Some? && ByHeight(chain, m.id.height).value.id.hash == m.id.hash
  {
    forall k | 0 <= k < |chain| ensures chain[k].id.height == k + 1 { assert Sits(chain, k); }
  }

  lemma {:induction false} KnownExactly(chain: seq<Momentum>, batch: seq<Momentum>, s: nat)
    requires Linked(chain) && s <= |batch| && (forall i :: 0 <= i < s ==> IsOurs(chain, batch[i]))
    requires s == |batch| || !IsOurs(chain, batch[s])
    ensures Known(chain, batch) == s
    decreases |batch|
  {
    hide IsOurs, Linked;
    if batch != [] {
      OursByHeight(chain, batch[0]);
      if s > 0 { KnownExactly(chain, batch[1..], s - 1); }
    }
  }

  lemma {:induction false} AppliedExactly(applies: Applies, base: seq<Momentum>, ms: seq<Momentum>, n: nat)
    requires ApplyUpTo(applies, base, ms, n) && (n == |ms| || !applies(base + ms[..n], ms[n]))
    ensures Applied(applies, base, ms) == n
  {
    AppliedStops(applies, base, ms, n);
    if n < |ms| { AppliedStops(applies, base, ms, n + 1); }
  }

  /** A batch without anything new leaves everything as it is. */
  lemma {:induction false} NothingNewIsFine(applies: Applies, chain: seq<Momentum>, batch: seq<Momentum>)
    requires Linked(chain) && forall m :: m in batch ==> IsOurs(chain, m)
    ensures Inserted(applies, chain, batch) == Result(chain, Success)
  {
    KnownExactly(chain, batch, |batch|);
  }

  /** Taken up: the batch continues our frontier, or forks at most thirty below it and
      ends higher. */
  predicate TakenUp(chain: seq<Momentum>, m: Momentum, last: Momentum) {
    && SitsOn(chain, m)
    && (m.id.height == |chain| + 1 || (|chain| + 1 - m.id.height <= 30 && last.id.height > |chain|))
  }

  lemma {:induction false} DecidedExactly(chain: seq<Momentum>, ms: seq<Momentum>)
    requires Linked(chain) && Batch(ms)
    ensures var d, m, h, last := Decide(chain, ms), ms[0], ms[0].id.height, ms[|ms| - 1];
            && d != NothingNew
            && (d == Crash <==> h == 1 || h > |chain| + 1)
            && (d == NoLink <==> 1 < h <= |chain| + 1 && !SitsOn(chain, m))
            && (d == TooFar <==> SitsOn(chain, m) && |chain| + 1 - h > 30)
            && (d == NotLonger <==> SitsOn(chain, m) && 0 < |chain| + 1 - h <= 30 && last.id.height <= |chain|)
            && (d == Extend || d == Replace(h - 1) <==> TakenUp(chain, m, last))
            && (d == Extend ==> h == |chain| + 1) && (d.Replace? ==> d.keep == h - 1)
  {
    var h := ms[0].id.height;
    assert Sits(chain, |chain| - 1) && Below(h) == h - 1;
    if 1 < h <= |chain| + 1 { assert Sits(chain, h - 2); }
  }

  /** Each outcome exactly, for a batch whose s-th momentum is the first new one: a crash
      when we have nothing right below it, three refusals, and otherwise our chain below
      it and the momentums that apply in turn, n of them. */
  lemma {:induction false} InsertedExactly(applies: Applies, chain: seq<Momentum>, batch: seq<Momentum>, s: nat, n: nat)
    requires Linked(chain) && Batch(batch) && FirstNew(chain, batch, s)
    ensures var r, m, h, last := Inserted(applies, chain, batch), batch[s], batch[s].id.height, batch[|batch| - 1];
            && (r.outcome == Crashed <==> h == 1 || h > |chain| + 1)
            && (r.outcome == Refused(NoLink) <==> 1 < h <= |chain| + 1 && !SitsOn(chain, m))
            && (r.outcome == Refused(TooFar) <==> SitsOn(chain, m) && |chain| + 1 - h > 30)
            && (r.outcome == Refused(NotLonger) <==>
                  SitsOn(chain, m) && 0 < |chain| + 1 - h <= 30 && last.id.height <= |chain|)
            && (r.outcome == Success || r.outcome.Failure? <==> TakenUp(chain, m, last))
    ensures TakenUp(chain, batch[s], batch[|batch| - 1]) ==>
              var base, ms := chain[..batch[s].id.height - 1], batch[s..];
              ApplyUpTo(applies, base, ms, n) && (n == |ms| || !applies(base + ms[..n], ms[n])) ==>
                Inserted(applies, chain, batch) == Result(base + ms[..n], if n == |ms| then Success else Failure(s + n))
  {
    hide Known, Applied, Decide, FirstNew;
    FirstIsKnown(chain, batch, s);
    var ms, h := batch[s..], batch[s].id.height;
    BatchRest(batch, s);
    DecidedExactly(chain, ms);
    assert chain[..|chain|] == chain;
    if TakenUp(chain, batch[s], batch[|batch| - 1]) {
      var base := chain[..h - 1];
      if ApplyUpTo(applies, base, ms, n) && (n == |ms| || !applies(base + ms[..n], ms[n])) {
        AppliedExactly(applies, base, ms, n);
      }
    }
  }

  lemma FirstIsKnown(chain: seq<Momentum>, batch: seq<Momentum>, s: nat)
    requires Linked(chain) && FirstNew(chain, batch, s)
    ensures Known(chain, batch) == s < |batch|
  {
    KnownExactly(chain, batch, s);
  }

  /** From the s-th momentum on the batch is taken up and applies in turn. */
  ghost predicate GoesIn(applies: Applies, chain: seq<Momentum>, batch: seq<Momentum>, s: nat)
    requires s < |batch|
  {
    && TakenUp(chain, batch[s], batch[|batch| - 1])
    && ApplyUpTo(applies, chain[..batch[s].id.height - 1], batch[s..], |batch| - s)
  }

  /** Success exactly: all of the batch is ours, or from the first new one on it is taken
      up and applies in turn. */
  lemma {:induction false} SucceedsExactly(applies: Applies, chain: seq<Momentum>, batch: seq<Momentum>)
    requires Linked(chain) && Batch(batch)
    ensures Inserted(applies, chain, batch).outcome == Success <==>
              || (forall m :: m in batch ==> IsOurs(chain, m))
              || exists s: nat :: FirstNew(chain, batch, s) && GoesIn(applies, chain, batch, s)
  {
    hide IsOurs, TakenUp, Inserted;
    if forall m :: m in batch ==> IsOurs(chain, m) {
      NothingNewIsFine(applies, chain, batch);
    } else {
      var s := FindNew(chain, batch);
      OnlyOneNew(chain, batch, s);
      if TakenUp(chain, batch[s], batch[|batch| - 1]) {
        TakenBelow(chain, batch[s], batch[|batch| - 1]);
        var n := HowMany(applies, chain[..batch[s].id.height - 1], batch[s..]);
        InsertedExactly(applies, chain, batch, s, n);
      } else {
        InsertedExactly(applies, chain, batch, s, 0);
      }
    }
  }

  lemma TakenBelow(chain: seq<Momentum>, m: Momentum, last: Momentum)
    requires TakenUp(chain, m, last)
    ensures 0 <= m.id.height - 1 <= |chain|
  {
  }

  lemma OnlyOneNew(chain: seq<Momentum>, batch: seq<Momentum>, s: nat)
    requires FirstNew(chain, batch, s)
    ensures forall t :: FirstNew(chain, batch, t) ==> t == s
  {
  }

  lemma {:induction false} FindNew(chain: seq<Momentum>, batch: seq<Momentum>) returns (s: nat)
    requires exists m :: m in batch && !IsOurs(chain, m)
    ensures FirstNew(chain, batch, s)
  {
    hide IsOurs;
    s := 0;
    while IsOurs(chain, batch[s])
      invariant s < |batch| && forall i :: 0 <= i < s ==> IsOurs(chain, batch[i])
      decreases |batch| - s
    {
      s := s + 1;
    }
  }

  /** How many apply, and that the next one does not. */
  lemma {:induction false} HowMany(applies: Applies, base: seq<Momentum>, ms: seq<Momentum>) returns (n: nat)
    ensures ApplyUpTo(applies, base, ms, n) && (n == |ms| || !applies(base + ms[..n], ms[n]))
  {
    n := 0;
    while n < |ms| && applies(base + ms[..n], ms[n])
      invariant ApplyUpTo(applies, base, ms, n)
    {
      n := n + 1;
    }
  }

  /** The height drops exactly when a side chain is taken up and one of as many of its
      first momentums as are rolled back for it does not apply. */
  lemma {:induction false} LoweredExactly(applies: Applies, chain: seq<Momentum>, batch: seq<Momentum>)
    requires Linked(chain) && Batch(batch)
    ensures var ms := batch[Known(chain, batch)..];
            var keep := Keep(chain, ms);
            && (Decide(chain, ms).Replace? ==> keep <= |chain| <= keep + |ms|)
            && (|Inserted(applies, chain, batch).chain| < |chain| <==>
                  && Decide(chain, ms).Replace?
                  && exists i :: 0 <= i < |chain| - keep && !applies(chain[..keep] + ms[..i], ms[i]))
  {
    var start := Known(chain, batch);
    var ms := batch[start..];
    NothingKnownAfter(chain, batch);
    InsertionLinks(applies, chain, batch);
    if Decide(chain, ms).Replace? {
      BatchRest(batch, start);
      ReplaceForks(chain, ms);
      BatchHeights(ms, |ms| - 1);
      AppliedStops(applies, chain[..Keep(chain, ms)], ms, |chain| - Keep(chain, ms));
    }
  }

  /** The target of a rollback is used without asking whether there is one: the first
      unknown momentum must sit inside our chain or right on top of it. */
  lemma {:induction false} CrashExactly(chain: seq<Momentum>, ms: seq<Momentum>)
    requires Linked(chain) && Batch(ms)
    ensures Decide(chain, ms) == Crash <==> ms[0].id.height == 1 || ms[0].id.height > |chain| + 1
  {
    assert Sits(chain, |chain| - 1);
    assert Below(ms[0].id.height) == ms[0].id.height - 1;
  }

  /** One momentum of ours, and a batch that starts two above it. */
  lemma {:induction false} GapCrashes(applies: Applies, root: Momentum, far: Momentum)
    requires root.id.height == 1 && far.id.height == 3
    ensures Linked([root]) && Batch([far]) && Inserted(applies, [root], [far]) == Result([root], Crashed)
  {
    assert Sits([root], 0);
    assert [far][0..] == [far];
    CrashExactly([root], [far]);
  }

  /** A fork one momentum longer than ours whose first momentum does not apply: our
      second momentum is gone and nothing is in its place. */
  lemma {:induction false} FailureCanLower(root: Momentum, ours: Momentum, first: Momentum, second: Momentum)
    requires root.id.height == 1 && ours.id.height == first.id.height == 2 && second.id.height == 3
    requires ours.previousHash == first.previousHash == root.id.hash && second.previousHash == first.id.hash
    requires ours.id.hash != first.id.hash
    ensures Linked([root, ours]) && Batch([first, second])
    ensures Inserted((c, m) => false, [root, ours], [first, second]) == Result([root], Failure(0))
  {
    var chain, ms := [root, ours], [first, second];
    assert Sits(chain, 0) && Sits(chain, 1) && Follows(ms, 1);
    assert ms[0..] == ms && chain[..1] == [root] && ms[..0] == [];
    assert [root] + [] == [root];
  }

  // ---- The pool of momentums ----

  class MomentumPool {
    var chain: seq<Momentum>

    constructor (genesis: Momentum)
      requires genesis.id.height == 1
      ensures chain == [genesis] && Linked(chain)
    {
      chain := [genesis];
      new;
      assert Sits(chain, 0);
    }

    /** Back to a momentum of ours, or refused; a height we do not have crashes. */
    method RollbackTo(id: HashHeight) returns (ok: bool)
      requires Linked(chain) && ByHeight(chain, id.height).Some?
      modifies this
      ensures ok <==> ByHeight(old(chain), id.height).value.id == id
      ensures chain == if ok then old(chain)[..id.height] else old(chain)
    {
      var momentum := ByHeight(chain, id.height);
      assert Sits(chain, id.height - 1);
      if momentum.value.id.hash != id.hash {
        return false;
      }
      while true
        invariant id.height <= |chain| <= |old(chain)| && chain == old(chain)[..|chain|]
        decreases |chain|
      {
        var frontier := Frontier(chain);
        assert Sits(old(chain), |chain| - 1);
        if frontier.id.height == id.height {
          break;
        }
        chain := chain[..|chain| - 1];
      }
      return true;
    }

    method InsertChain(applies: Applies, batch: seq<Momentum>) returns (outcome: Outcome)
      requires Linked(chain) && Batch(batch)
      modifies this
      ensures Linked(chain)
      ensures Result(chain, outcome) == Inserted(applies, old(chain), batch)
    {
      hide Linked, Batch, Applied;
      InsertionLinks(applies, chain, batch);
      var start := SkipKnown(batch);
      if start == |batch| {
        return Success;
      }
      var ms := batch[start..];
      BatchRest(batch, start);
      NothingKnownAfter(chain, batch);
      var head, tail, ourFrontier := ms[0], ms[|ms| - 1], Frontier(chain);
      if Previous(head) != ourFrontier.id {
        var target := ByHeight(chain, Below(head.id.height));
        if target == None {
          return Crashed;
        }
        if target.value.id != Previous(head) {
          return Refused(NoLink);
        }
        if ourFrontier.id.height - target.value.id.height > MAX_ROLLBACK {
          return Refused(TooFar);
        }
        if tail.id.height <= ourFrontier.id.height {
          return Refused(NotLonger);
        }
        ReplaceForks(chain, ms);
        var ok := RollbackTo(target.value.id);
      }
      outcome := InsertAll(applies, ms, start);
    }

    method SkipKnown(batch: seq<Momentum>) returns (start: nat)
      ensures start == Known(chain, batch)
    {
      start := 0;
      while start < |batch|
        invariant start <= |batch| && Known(chain, batch) == start + Known(chain, batch[start..])
      {
        var our := ByHeight(chain, batch[start].id.height);
        assert batch[start..][1..] == batch[start + 1..];
        if our == None {
          break;
        }
        if our.value.id.hash != batch[start].id.hash {
          break;
        }
        start := start + 1;
      }
    }

    /** The loop that applies the momentums; the first failure stops it. */
    method InsertAll(applies: Applies, ms: seq<Momentum>, start: nat) returns (outcome: Outcome)
      modifies this
      ensures Result(chain, outcome) == Finished(applies, old(chain), ms, start)
    {
      ghost var base := chain;
      assert base + ms[..0] == base && ms[0..] == ms;
      for index := 0 to |ms|
        invariant chain == base + ms[..index]
        invariant Applied(applies, base, ms) == index + Applied(applies, chain, ms[index..])
      {
        assert ms[index..][1..] == ms[index + 1..];
        if !applies(chain, ms[index]) {
          return Failure(start + index);
        }
        chain := chain + [ms[index]];
        assert base + ms[..index] + [ms[index]] == base + ms[..index + 1];
      }
      assert ms[..|ms|] == ms;
      return Success;
    }
  }
}
