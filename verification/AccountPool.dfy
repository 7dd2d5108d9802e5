/** Unconfirmed account blocks: an in-memory manager per account over its confirmed
    database, fork choice between competing blocks, rollback above the confirmed
    height, and the rebuild after a momentum. Blocks have no descendants here. */
module AccountPool {
  import opened Bytes
  import opened Patches
  import opened VersionedDb

  datatype Block = Block(id: HashHeight, previousHash: Bytes, totalPlasma: uint64, basePlasma: uint64)

  datatype Transaction = Transaction(block: Block, changes: Patch)

  /** `AccountBlock.Previous`: the height wraps below zero. */
  function Previous(b: Block): HashHeight {
    HashHeight(b.previousHash, (b.id.height + TWO_64 - 1) % TWO_64)
  }

  /** The stored form of a block. */
  datatype Codec = Codec(encode: Block -> Bytes, decode: Bytes -> Option<Block>)

  ghost predicate Faithful(codec: Codec) {
    forall b :: codec.decode(codec.encode(b)) == Some(b)
  }

  // ---- An account's chain ----

  type Account = seq<Transaction>

  function TipAt(account: Account, i: nat): HashHeight
    requires i <= |account|
  {
    if i == 0 then ZERO_ID else account[i - 1].block.id
  }

  ghost predicate Clean(p: Patch) {
    forall k :: k in Touched(p) ==> !Reserved(k)
  }

  ghost predicate Follows(account: Account, i: nat)
    requires i < |account|
  {
    && account[i].block.id.height == i + 1
    && Previous(account[i].block) == TipAt(account, i)
    && Clean(account[i].changes)
  }

  ghost predicate Linked(account: Account) {
    |account| < TWO_64 && forall i :: 0 <= i < |account| ==> Follows(account, i)
  }

  function StepOf(codec: Codec, t: Transaction): Step {
    Step(t.block.id, t.changes, codec.encode(t.block))
  }

  /** The account's database after these blocks. */
  function DbOf(codec: Codec, account: Account): State {
    if account == [] then map[]
    else Apply(DbOf(codec, account[..|account| - 1]), StepPatch(StepOf(codec, account[|account| - 1])))
  }

  lemma {:induction false} LinkedPrefix(account: Account, n: nat)
    requires Linked(account) && n <= |account|
    ensures Linked(account[..n])
    ensures forall i :: 0 <= i <= n ==> TipAt(account[..n], i) == TipAt(account, i)
  {
    forall i | 0 <= i < n ensures Follows(account[..n], i) {
      assert Follows(account, i);
    }
  }

  lemma {:induction false} LinkedAppend(account: Account, t: Transaction)
    requires Linked(account) && |account| + 1 < TWO_64
    requires Previous(t.block) == TipAt(account, |account|) && Clean(t.changes)
    ensures Linked(account + [t])
    ensures forall i :: 0 <= i <= |account| ==> TipAt(account + [t], i) == TipAt(account, i)
  {
    if account != [] { assert Follows(account, |account| - 1); }
    forall i | 0 <= i <= |account| ensures Follows(account + [t], i) {
      if i < |account| { assert Follows(account, i); }
    }
  }

  lemma TipHeight(account: Account, i: nat)
    requires Linked(account) && i <= |account|
    ensures TipAt(account, i).height == i
  {
    if i > 0 { assert Follows(account, i - 1); }
  }

  lemma {:induction false} EntryKeysDiffer(a: uint64, b: uint64)
    ensures EntryKey(a) == EntryKey(b) ==> a == b
  {
    assert EntryKey(a)[1..] == Uint64ToBytes(a) && EntryKey(b)[1..] == Uint64ToBytes(b);
    Uint64BytesOrder(a, b);
  }

  /** Heights hold the blocks of the chain and nothing else. */
  lemma {:induction false} EntryReads(codec: Codec, account: Account, h: uint64)
    requires Linked(account)
    ensures Get(DbOf(codec, account), EntryKey(h)) ==
        if 1 <= h <= |account| then Some(codec.encode(account[h - 1].block)) else None
  {
    hide StepPatch, Apply, EntryKey;
    if account != [] {
      var n := |account| - 1;
      LinkedPrefix(account, n);
      EntryReads(codec, account[..n], h);
      assert Follows(account, n);
      EntryKeysDiffer(h, account[n].block.id.height);
      EntryKeyReads(DbOf(codec, account[..n]), StepOf(codec, account[n]), h);
    }
  }

  lemma {:induction false} EntryKeyReads(s: State, step: Step, h: uint64)
    requires WellFormedStep(step)
    ensures Get(Apply(s, StepPatch(step)), EntryKey(h)) ==
        if EntryKey(h) == EntryKey(step.id.height) then Some(step.data) else Get(s, EntryKey(h))
  {
    assert EntryKey(h)[0] == 2 && HashKey(step.id.hash)[0] == 1;
    StepReads(s, step, EntryKey(h));
  }

  lemma {:induction false} FrontierReads(codec: Codec, account: Account)
    requires Linked(account)
    ensures FrontierIdentifier(DbOf(codec, account)) == TipAt(account, |account|)
  {
    if account != [] {
      var n := |account| - 1;
      assert Follows(account, n);
      StepReads(DbOf(codec, account[..n]), StepOf(codec, account[n]), FRONTIER_KEY);
      SerializeRoundTrip(account[n].block.id);
    }
  }

  /** `accountStore.ByHeight` and `accountStore.Identifier`. */
  function ByHeight(codec: Codec, db: State, h: uint64): Option<Block> {
    match Get(db, EntryKey(h))
    case None => None
    case Some(data) => codec.decode(data)
  }

  function Identifier(codec: Codec, db: State): HashHeight {
    match ByHeight(codec, db, FrontierIdentifier(db).height)
    case None => ZERO_ID
    case Some(b) => b.id
  }

  lemma {:induction false} StoreReads(codec: Codec, account: Account, h: uint64)
    requires Linked(account) && Faithful(codec)
    ensures ByHeight(codec, DbOf(codec, account), h) == if 1 <= h <= |account| then Some(account[h - 1].block) else None
    ensures Identifier(codec, DbOf(codec, account)) == TipAt(account, |account|)
  {
    hide DbOf, Linked;
    EntryReads(codec, account, h);
    FrontierReads(codec, account);
    TipHeight(account, |account|);
    EntryReads(codec, account, TipAt(account, |account|).height);
  }

  // ---- Fork choice ----

  datatype Verdict = Accepted | WorseRatio | WorseHash

  function Times(a: uint64, b: uint64): uint64 { (a * b) % TWO_64 }

  /** `higherPriority`, with its 64-bit products. */
  function HigherPriority(a: Block, b: Block): Verdict {
    var x, y := Times(a.totalPlasma, b.basePlasma), Times(b.totalPlasma, a.basePlasma);
    if x < y then WorseRatio
    else if x == y && !Less(a.id.hash, b.id.hash) then WorseHash
    else Accepted
  }

  predicate Beats(a: Block, b: Block) { HigherPriority(a, b) == Accepted }

  /** The plasma limit of a block, and a positive base. */
  const MAX_PLASMA: nat := 5000 * 2100

  /** Plasma is positive and bounded, except that embedded contracts pay none. */
  predicate Rated(b: Block, embedded: bool) {
    if embedded then b.basePlasma == b.totalPlasma == 0 else 0 < b.basePlasma <= b.totalPlasma <= MAX_PLASMA
  }

  /** Within the plasma limit nothing wraps: the order is by ratio, then by hash. */
  lemma {:induction false} BeatsExactly(a: Block, b: Block, embedded: bool)
    requires Rated(a, embedded) && Rated(b, embedded)
    ensures Beats(a, b) <==>
            a.totalPlasma * b.basePlasma > b.totalPlasma * a.basePlasma ||
            (a.totalPlasma * b.basePlasma == b.totalPlasma * a.basePlasma && Less(a.id.hash, b.id.hash))
    ensures HigherPriority(a, b) == WorseRatio <==> a.totalPlasma * b.basePlasma < b.totalPlasma * a.basePlasma
  {
    hide Times;
    ProductFits(a.totalPlasma, b.basePlasma);
    ProductFits(b.totalPlasma, a.basePlasma);
  }

  lemma {:induction false} ProductFits(x: uint64, y: uint64)
    requires x <= MAX_PLASMA && y <= MAX_PLASMA
    ensures Times(x, y) == x * y
  {
    Scaled(x, MAX_PLASMA, y);
    assert x * y < TWO_64;
  }

  /** Multiplying by a positive number keeps and reflects the order. */
  lemma Scaled(x: nat, y: nat, k: nat)
    ensures x <= y ==> x * k <= y * k
    ensures k > 0 && x < y ==> x * k < y * k
  {
    if x <= y { assert y * k == x * k + (y - x) * k; }
  }

  lemma Rearranged(x: nat, y: nat, z: nat)
    ensures (x * y) * z == (x * z) * y
  {
    assert (x * y) * z == x * (y * z) == x * (z * y) == (x * z) * y;
  }

  /** A strict total order on blocks with different hashes. */
  lemma {:induction false} BeatsIsStrict(a: Block, b: Block, embedded: bool)
    requires Rated(a, embedded) && Rated(b, embedded) && a.id.hash != b.id.hash
    ensures Beats(a, b) <==> !Beats(b, a)
  {
    BeatsExactly(a, b, embedded);
    BeatsExactly(b, a, embedded);
    LessIsTotal(a.id.hash, b.id.hash);
    if Less(a.id.hash, b.id.hash) { LessIsAsymmetric(a.id.hash, b.id.hash); }
  }

  lemma {:induction false} BeatsIsTransitive(a: Block, b: Block, c: Block, embedded: bool)
    requires Rated(a, embedded) && Rated(b, embedded) && Rated(c, embedded) && Beats(a, b) && Beats(b, c)
    ensures Beats(a, c)
  {
    BeatsExactly(a, b, embedded);
    BeatsExactly(b, c, embedded);
    BeatsExactly(a, c, embedded);
    if !embedded {
      RatiosCompose(a.totalPlasma, a.basePlasma, b.totalPlasma, b.basePlasma, c.totalPlasma, c.basePlasma);
    }
    if Less(a.id.hash, b.id.hash) && Less(b.id.hash, c.id.hash) { LessIsTransitive(a.id.hash, b.id.hash, c.id.hash); }
  }

  /** Cross-multiplied ratios compose. */
  lemma {:induction false} RatiosCompose(at: nat, ab: nat, bt: nat, bb: nat, ct: nat, cb: nat)
    requires ab > 0 && bb > 0 && cb > 0 && at * bb >= bt * ab && bt * cb >= ct * bb
    ensures at * cb >= ct * ab
    ensures at * bb > bt * ab || bt * cb > ct * bb ==> at * cb > ct * ab
  {
    Rearranged(at, bb, cb);
    Rearranged(bt, ab, cb);
    Rearranged(ct, bb, ab);
    Scaled(bt * ab, at * bb, cb);
    Scaled(ct * bb, bt * cb, ab);
    Scaled(at * cb, ct * ab, bb);
    Scaled(ct * ab, at * cb, bb);
  }

  // ---- Insertion on the account's chain ----

  datatype Outcome = Inserted | Known | TooOld | NoPrevious | Refused(verdict: Verdict)

  datatype Result = Result(account: Account, outcome: Outcome)

  /** What `addAccountBlockTransaction` does to the chain. A rival is compared only
      where there is one. */
  function Insertion(account: Account, confirmed: nat, t: Transaction, force: bool): Result
    requires confirmed <= |account|
  {
    var h := t.block.id.height;
    if Previous(t.block) == TipAt(account, |account|) then Result(account + [t], Inserted)
    else if 1 <= h <= |account| && TipAt(account, h) == t.block.id then Result(account, Known)
    else if confirmed >= h then Result(account, TooOld)
    else if h == 1 || h - 1 > |account| || TipAt(account, h - 1) != Previous(t.block) then Result(account, NoPrevious)
    else
      var verdict := HigherPriority(t.block, account[h - 1].block);
      if !force && verdict != Accepted then Result(account, Refused(verdict))
      else Result(account[..h - 1] + [t], Inserted)
  }

  /** The block continues the account. */
  predicate OnTop(account: Account, b: Block) {
    Previous(b) == if account == [] then ZERO_ID else account[|account| - 1].block.id
  }

  predicate IsOurs(account: Account, b: Block) {
    exists k :: 0 <= k < |account| && account[k].block.id == b.id
  }

  /** Its named previous is the account's block right below it. */
  predicate SitsOn(account: Account, b: Block) {
    var h := b.id.height;
    h > 1 && h - 2 < |account| && account[h - 2].block.id == Previous(b)
  }

  /** Each outcome exactly for its blocks. A block goes in on top, or as a rival above
      the confirmed height that sits on one of ours and is forced or has priority. */
  lemma {:induction false} InsertionExactly(account: Account, confirmed: nat, t: Transaction, force: bool)
    requires Linked(account) && confirmed <= |account| && |account| + 1 < TWO_64
    ensures var r, b, h := Insertion(account, confirmed, t, force), t.block, t.block.id.height;
            var rival := !OnTop(account, b) && !IsOurs(account, b) && h > confirmed && SitsOn(account, b);
            && (rival ==> h <= |account|)
            && (r.outcome == Inserted <==> OnTop(account, b) || (rival && (force || Beats(b, account[h - 1].block))))
            && (r.outcome == Known <==> !OnTop(account, b) && IsOurs(account, b))
            && (r.outcome == TooOld <==> !OnTop(account, b) && !IsOurs(account, b) && h <= confirmed)
            && (r.outcome == NoPrevious <==>
                  !OnTop(account, b) && !IsOurs(account, b) && h > confirmed && !SitsOn(account, b))
            && (r.outcome.Refused? <==> rival && !force && !Beats(b, account[h - 1].block))
            && (r.outcome.Refused? ==> r.outcome.verdict == HigherPriority(b, account[h - 1].block))
            && r.account == (if OnTop(account, b) then account + [t]
                             else if r.outcome == Inserted then account[..h - 1] + [t] else account)
  {
    hide HigherPriority, Previous;
    var b, h := t.block, t.block.id.height;
    TipHeight(account, |account|);
    assert OnTop(account, b) <==> Previous(b) == TipAt(account, |account|);
    forall k | 0 <= k < |account| ensures account[k].block.id.height == k + 1 { TipHeight(account, k + 1); }
    assert IsOurs(account, b) <==> 1 <= h <= |account| && TipAt(account, h) == b.id by {
      if 1 <= h <= |account| { assert TipAt(account, h) == account[h - 1].block.id; }
    }
    assert SitsOn(account, b) <==> h > 1 && h - 1 <= |account| && TipAt(account, h - 1) == Previous(b);
  }

  /** Nothing at or below the confirmed height goes, forced or not; the result is a
      chain; and it ends in the new block on its named previous, or is as before. */
  lemma {:induction false} InsertionKeepsConfirmed(account: Account, confirmed: nat, t: Transaction, force: bool)
    requires Linked(account) && confirmed <= |account| && |account| + 1 < TWO_64 && Clean(t.changes)
    ensures var r := Insertion(account, confirmed, t, force);
            && Linked(r.account) && confirmed <= |r.account| && r.account[..confirmed] == account[..confirmed]
            && (r.outcome != Inserted ==> r.account == account)
            && (r.outcome == Inserted ==> exists n ::
                  && confirmed <= n <= |account|
                  && r.account == account[..n] + [t] && TipAt(account, n) == Previous(t.block))
    ensures var r := Insertion(account, confirmed, t, force); |r.account| <= |account| && r.outcome == Inserted ==>
              |r.account| > confirmed && (force || Beats(t.block, account[|r.account| - 1].block))
  {
    var r, h := Insertion(account, confirmed, t, force), t.block.id.height;
    if Previous(t.block) == TipAt(account, |account|) {
      LinkedAppend(account, t);
      assert account[..|account|] == account;
    } else if r.outcome == Inserted {
      LinkedPrefix(account, h - 1);
      LinkedAppend(account[..h - 1], t);
      assert confirmed <= h - 1 <= |account| && TipAt(account, h - 1) == Previous(t.block);
    }
  }

  /** Blocks arriving one after the other. */
  function Arrivals(account: Account, confirmed: nat, ts: seq<Transaction>): (r: Account)
    requires confirmed <= |account|
    ensures confirmed <= |r|
  {
    if ts == [] then account
    else
      var before := Arrivals(account, confirmed, ts[..|ts| - 1]);
      var r := Insertion(before, confirmed, ts[|ts| - 1], false).account;
      r
  }

  /** Blocks competing for the place above a chain; a hash names one of them. */
  ghost predicate Rivals(base: Account, ts: seq<Transaction>, embedded: bool) {
    && (forall t :: t in ts ==>
        Previous(t.block) == TipAt(base, |base|) && Clean(t.changes) && Rated(t.block, embedded))
    && (forall t, u :: t in ts && u in ts && t.block.id.hash == u.block.id.hash ==> t == u)
  }

  ghost predicate Wins(w: Transaction, ts: seq<Transaction>) {
    w in ts && forall t :: t in ts ==> t == w || Beats(w.block, t.block)
  }

  lemma {:induction false} RivalHeight(base: Account, t: Transaction)
    requires Linked(base) && |base| + 1 < TWO_64 && Previous(t.block) == TipAt(base, |base|)
    ensures t.block.id.height == |base| + 1
  {
    TipHeight(base, |base|);
  }

  /** A rival against the block in place. */
  lemma {:induction false} RivalMeets(base: Account, confirmed: nat, w: Transaction, t: Transaction)
    requires Linked(base) && confirmed <= |base| && |base| + 1 < TWO_64
    requires Previous(t.block) == Previous(w.block) == TipAt(base, |base|)
    ensures Insertion(base + [w], confirmed, t, false).account ==
            if t.block.id != w.block.id && |base| > 0 && Beats(t.block, w.block) then base + [t] else base + [w]
  {
    RivalHeight(base, t);
    RivalHeight(base, w);
    assert TipAt(base + [w], |base| + 1) == w.block.id && TipAt(base + [w], |base|) == TipAt(base, |base|);
    assert (base + [w])[..|base|] == base;
    TipHeight(base, |base|);
  }

  lemma {:induction false} WinnerStays(base: Account, confirmed: nat, ts: seq<Transaction>, embedded: bool)
    returns (w: Transaction)
    requires Linked(base) && confirmed <= |base| && 1 <= |base| && |base| + 1 < TWO_64
    requires ts != [] && Rivals(base, ts, embedded)
    ensures Wins(w, ts) && Arrivals(base, confirmed, ts) == base + [w]
  {
    var n := |ts| - 1;
    var t := ts[n];
    assert ts == ts[..n] + [t];
    if n == 0 {
      w := t;
    } else {
      var v := WinnerStays(base, confirmed, ts[..n], embedded);
      RivalMeets(base, confirmed, v, t);
      w := if t.block.id != v.block.id && Beats(t.block, v.block) then t else v;
      forall u | u in ts ensures u == w || Beats(w.block, u.block) {
        WinnerAgainst(base, ts, embedded, v, t, u);
      }
    }
  }

  lemma {:induction false} WinnerAgainst(base: Account, ts: seq<Transaction>, embedded: bool, v: Transaction,
          t: Transaction, u: Transaction)
    requires Rivals(base, ts, embedded) && v in ts && t in ts && u in ts
    requires u == t || u == v || Beats(v.block, u.block)
    ensures var w := if t.block.id != v.block.id && Beats(t.block, v.block) then t else v;
            u == w || Beats(w.block, u.block)
  {
    if t.block.id.hash == v.block.id.hash {
    } else if Beats(t.block, v.block) {
      if Beats(v.block, u.block) { BeatsIsTransitive(t.block, v.block, u.block, embedded); }
    } else {
      BeatsIsStrict(t.block, v.block, embedded);
    }
  }

  /** From height 2 on, every arrival order leaves the same winner. */
  lemma {:induction false} ArrivalOrderIsIrrelevant(base: Account, confirmed: nat, ts: seq<Transaction>,
          us: seq<Transaction>, embedded: bool)
    requires Linked(base) && confirmed <= |base| && 1 <= |base| && |base| + 1 < TWO_64
    requires Rivals(base, ts, embedded) && ts != [] && forall t :: t in ts <==> t in us
    ensures Arrivals(base, confirmed, ts) == Arrivals(base, confirmed, us)
  {
    assert ts[0] in us;
    var v := WinnerStays(base, confirmed, ts, embedded);
    var w := WinnerStays(base, confirmed, us, embedded);
    if v != w { BeatsIsStrict(v.block, w.block, embedded); }
  }

  /** At height 1 the first block to arrive stays: there is no block below it that
      `canRollback` could find. */
  lemma {:induction false} FirstArrivalStays(ts: seq<Transaction>)
    requires ts != [] && forall t :: t in ts ==> Previous(t.block) == ZERO_ID
    ensures Arrivals([], 0, ts) == [ts[0]]
  {
    var n := |ts| - 1;
    if n == 0 {
      assert Arrivals([], 0, ts[..0]) == [];
      assert [] + [ts[0]] == [ts[0]];
    } else {
      FirstArrivalStays(ts[..n]);
      RivalMeets([], 0, ts[0], ts[n]);
      assert [] + [ts[0]] == [ts[0]];
    }
  }

  /** Two rivals: their order is irrelevant exactly when there is a block below them. */
  lemma {:induction false} OrderMattersAtHeightOne(base: Account, confirmed: nat, t: Transaction, u: Transaction,
          embedded: bool)
    requires Linked(base) && confirmed <= |base| && |base| + 1 < TWO_64 && Rivals(base, [t, u], embedded) && t != u
    ensures Arrivals(base, confirmed, [t, u]) == Arrivals(base, confirmed, [u, t]) <==> |base| > 0
  {
    hide Arrivals, Linked, Rated, Clean, Previous;
    if |base| > 0 {
      ArrivalOrderIsIrrelevant(base, confirmed, [t, u], [u, t], embedded);
    } else {
      assert forall x :: x in [t, u] <==> x in [u, t];
      FirstArrivalStays([t, u]);
      FirstArrivalStays([u, t]);
    }
  }

  // ---- The in-memory manager of an account ----

  /** Patches with the same effect on every database. */
  ghost predicate SameEffect(p: Patch, q: Patch) {
    forall s :: Apply(s, p) == Apply(s, q)
  }

  /** Bookkeeping entries written once more change nothing. */
  lemma {:induction false} RepeatedEntries(changes: Patch, step: Step)
    requires SameEffect(changes, StepPatch(step))
    ensures SameEffect(changes + SetFrontier(step.id, step.data), StepPatch(step))
  {
    var f := SetFrontier(step.id, step.data);
    forall s ensures Apply(s, changes + f) == Apply(s, StepPatch(step)) {
      ApplyConcat(s, changes, f);
      ApplyConcat(s, step.changes, f);
      ApplyTwice(Apply(s, step.changes), f);
    }
  }

  datatype Mem = Mem(frontier: HashHeight, previous: map<HashHeight, HashHeight>, versions: map<HashHeight, State>,
      patches: map<HashHeight, Patch>)

  /** The entries of the maps for one identifier. */
  ghost predicate Recorded(mem: Mem, codec: Codec, account: Account, confirmed: nat, id: HashHeight) {
    var on := confirmed <= id.height <= |account| && TipAt(account, id.height) == id;
    var pooled := on && id.height > confirmed;
    && (id in mem.versions <==> on)
    && (on ==> mem.versions[id] == DbOf(codec, account[..id.height]))
    && (id in mem.previous <==> pooled) && (id in mem.patches <==> pooled)
    && (pooled ==>
        && mem.previous[id] == TipAt(account, id.height - 1)
        && SameEffect(mem.patches[id], StepPatch(StepOf(codec, account[id.height - 1]))))
  }

  /** The maps hold the states from the confirmed one up, and nothing else. */
  ghost predicate Holds(mem: Mem, codec: Codec, account: Account, confirmed: nat) {
    && Linked(account) && confirmed <= |account| && mem.frontier == TipAt(account, |account|)
    && forall id :: Recorded(mem, codec, account, confirmed, id)
  }

  function AddMem(mem: Mem, b: Block, patch: Patch): Mem
    requires mem.frontier in mem.versions
  {
    Mem(b.id, mem.previous[b.id := Previous(b)], mem.versions[b.id := Apply(mem.versions[mem.frontier], patch)],
        mem.patches[b.id := patch])
  }

  function PopMem(mem: Mem): Mem
    requires mem.frontier in mem.previous
  {
    Mem(mem.previous[mem.frontier], mem.previous - {mem.frontier}, mem.versions - {mem.frontier},
        mem.patches - {mem.frontier})
  }

  lemma {:induction false} FrontierHeld(mem: Mem, codec: Codec, account: Account, confirmed: nat)
    requires Holds(mem, codec, account, confirmed)
    ensures mem.frontier in mem.versions && mem.versions[mem.frontier] == DbOf(codec, account)
    ensures mem.frontier in mem.previous <==> |account| > confirmed
  {
    TipHeight(account, |account|);
    assert Recorded(mem, codec, account, confirmed, mem.frontier);
    assert account[..|account|] == account;
  }

  lemma {:induction false} AddHolds(mem: Mem, codec: Codec, account: Account, confirmed: nat, t: Transaction,
          patch: Patch)
    requires Holds(mem, codec, account, confirmed) && |account| + 1 < TWO_64
    requires Previous(t.block) == mem.frontier && Clean(t.changes) && SameEffect(patch, StepPatch(StepOf(codec, t)))
    ensures mem.frontier in mem.versions && Holds(AddMem(mem, t.block, patch), codec, account + [t], confirmed)
  {
    hide SameEffect, StepPatch, Linked, Clean, DbOf, Recorded;
    FrontierHeld(mem, codec, account, confirmed);
    LinkedAppend(account, t);
    RivalHeight(account, t);
    assert TipAt(account + [t], |account| + 1) == t.block.id;
    forall id ensures Recorded(AddMem(mem, t.block, patch), codec, account + [t], confirmed, id) {
      if id == t.block.id {
        AddedEntry(mem, codec, account, confirmed, t, patch);
      } else {
        OtherEntry(mem, codec, account, confirmed, t, patch, id);
      }
    }
  }

  lemma {:induction false} AddedEntry(mem: Mem, codec: Codec, account: Account, confirmed: nat, t: Transaction,
          patch: Patch)
    requires confirmed <= |account| && t.block.id.height == |account| + 1
    requires TipAt(account, |account|) == Previous(t.block)
    requires mem.frontier in mem.versions && mem.versions[mem.frontier] == DbOf(codec, account)
    requires SameEffect(patch, StepPatch(StepOf(codec, t)))
    ensures Recorded(AddMem(mem, t.block, patch), codec, account + [t], confirmed, t.block.id)
  {
    hide SameEffect, StepPatch;
    var longer := account + [t];
    SameEffectHere(DbOf(codec, account), patch, StepPatch(StepOf(codec, t)));
    assert longer[..|account|] == account && longer[..|account| + 1] == longer;
  }

  lemma {:induction false} OtherEntry(mem: Mem, codec: Codec, account: Account, confirmed: nat, t: Transaction,
          patch: Patch, id: HashHeight)
    requires Recorded(mem, codec, account, confirmed, id) && mem.frontier in mem.versions && confirmed <= |account|
    requires id != t.block.id && t.block.id.height == |account| + 1
    ensures Recorded(AddMem(mem, t.block, patch), codec, account + [t], confirmed, id)
  {
    hide SameEffect, StepPatch, DbOf;
    var longer := account + [t];
    if id.height <= |account| {
      assert longer[..id.height] == account[..id.height] && TipAt(longer, id.height) == TipAt(account, id.height);
      if id.height > 0 { assert TipAt(longer, id.height - 1) == TipAt(account, id.height - 1); }
    }
  }

  lemma SameEffectHere(s: State, p: Patch, q: Patch)
    requires SameEffect(p, q)
    ensures Apply(s, p) == Apply(s, q)
  {
  }

  lemma {:induction false} PopHolds(mem: Mem, codec: Codec, account: Account, confirmed: nat)
    requires Holds(mem, codec, account, confirmed) && |account| > confirmed
    ensures mem.frontier in mem.previous && Holds(PopMem(mem), codec, account[..|account| - 1], confirmed)
  {
    hide SameEffect, StepPatch, Linked, DbOf;
    FrontierHeld(mem, codec, account, confirmed);
    var n := |account| - 1;
    LinkedPrefix(account, n);
    TipHeight(account, |account|);
    var shorter, after := account[..n], PopMem(mem);
    assert Recorded(mem, codec, account, confirmed, mem.frontier);
    forall id ensures Recorded(after, codec, shorter, confirmed, id) {
      assert Recorded(mem, codec, account, confirmed, id);
      if id.height <= n { assert shorter[..id.height] == account[..id.height]; }
    }
  }

  lemma {:induction false} StartHolds(codec: Codec, account: Account)
    requires Linked(account)
    ensures var db := DbOf(codec, account); var id := FrontierIdentifier(db);
            Holds(Mem(id, map[], map[id := db], map[]), codec, account, |account|)
  {
    var db := DbOf(codec, account);
    FrontierReads(codec, account);
    var tip := TipAt(account, |account|);
    TipHeight(account, |account|);
    var mem := Mem(tip, map[], map[tip := db], map[]);
    forall id ensures Recorded(mem, codec, account, |account|, id) {
      if id.height == |account| { assert account[..id.height] == account; }
    }
  }

  class MemdbManager {
    const codec: Codec
    const stableIdentifier: HashHeight
    var frontierIdentifier: HashHeight
    var previous: map<HashHeight, HashHeight>
    var versions: map<HashHeight, State>
    var patches: map<HashHeight, Patch>
    ghost const confirmed: nat
    ghost var account: Account

    ghost function Contents(): Mem
      reads this
    {
      Mem(frontierIdentifier, previous, versions, patches)
    }

    ghost predicate Valid()
      reads this
    {
      Holds(Contents(), codec, account, confirmed) && stableIdentifier == TipAt(account, confirmed)
    }

    constructor (codec: Codec, rawDb: State, ghost stable: Account)
      requires Linked(stable) && rawDb == DbOf(codec, stable)
      ensures Valid() && this.codec == codec && confirmed == |stable| && account == stable
    {
      var id := FrontierIdentifier(rawDb);
      this.codec, stableIdentifier, frontierIdentifier := codec, id, id;
      previous, versions, patches := map[], map[id := rawDb], map[];
      confirmed, account := |stable|, stable;
      new;
      StartHolds(codec, stable);
      FrontierReads(codec, stable);
    }

    method Frontier() returns (db: State)
      requires Valid()
      ensures db == DbOf(codec, account)
    {
      FrontierHeld(Contents(), codec, account, confirmed);
      db := versions[frontierIdentifier];
    }

    /** A state for every identifier from the confirmed one up, none for any other. */
    method Get(id: HashHeight) returns (db: Option<State>)
      requires Valid()
      ensures db.Some? <==> confirmed <= id.height <= |account| && TipAt(account, id.height) == id
      ensures db.Some? ==> db.value == DbOf(codec, account[..id.height])
    {
      assert Recorded(Contents(), codec, account, confirmed, id);
      db := if id in versions then Some(versions[id]) else None;
    }

    method GetPatch(id: HashHeight) returns (patch: Option<Patch>)
      requires Valid()
      ensures patch.Some? <==> confirmed < id.height <= |account| && TipAt(account, id.height) == id
      ensures patch.Some? ==> SameEffect(patch.value, StepPatch(StepOf(codec, account[id.height - 1])))
    {
      assert Recorded(Contents(), codec, account, confirmed, id);
      patch := if id in patches then Some(patches[id]) else None;
    }

    /** The changes may already hold the block's bookkeeping entries; t is the block
        with its changes alone. */
    method Add(block: Block, changes: Patch, ghost t: Transaction) returns (ok: bool)
      requires Valid() && |account| + 1 < TWO_64 && t.block == block && Clean(t.changes)
      requires SameEffect(changes + SetFrontier(block.id, codec.encode(block)), StepPatch(StepOf(codec, t)))
      modifies this
      ensures Valid()
      ensures ok <==> Previous(block) == TipAt(old(account), |old(account)|)
      ensures account == if ok then old(account) + [t] else old(account)
    {
      hide Holds, SameEffect, StepPatch, SetFrontier;
      ghost var before := Contents();
      HoldsFrontier(before, codec, account, confirmed);
      if Previous(block) != frontierIdentifier {
        return false;
      }
      var patch := changes + SetFrontier(block.id, codec.encode(block));
      AddHolds(before, codec, account, confirmed, t, patch);
      var db := Apply(versions[frontierIdentifier], patch);
      previous, versions, patches := previous[block.id := frontierIdentifier], versions[block.id := db],
          patches[block.id := patch];
      frontierIdentifier, account := block.id, account + [t];
      assert Contents() == AddMem(before, block, patch);
      ok := true;
    }

    /** Refused on the confirmed database, otherwise back to the previous block. */
    method Pop() returns (ok: bool)
      requires Valid()
      modifies this
      ensures Valid()
      ensures ok <==> |old(account)| > confirmed
      ensures account == if ok then old(account)[..|old(account)| - 1] else old(account)
    {
      hide Holds;
      ghost var before := Contents();
      HoldsFrontier(before, codec, account, confirmed);
      if stableIdentifier == frontierIdentifier {
        return false;
      }
      PopHolds(before, codec, account, confirmed);
      var prev := previous[frontierIdentifier];
      previous, versions, patches := previous - {frontierIdentifier}, versions - {frontierIdentifier},
          patches - {frontierIdentifier};
      frontierIdentifier, account := prev, account[..|account| - 1];
      assert Contents() == PopMem(before);
      ok := true;
    }
  }

  lemma {:induction false} HoldsFrontier(mem: Mem, codec: Codec, account: Account, confirmed: nat)
    requires Holds(mem, codec, account, confirmed)
    ensures Linked(account) && confirmed <= |account| && mem.frontier == TipAt(account, |account|)
    ensures TipAt(account, confirmed) == mem.frontier <==> |account| == confirmed
  {
    TipHeight(account, |account|);
    TipHeight(account, confirmed);
  }

  // ---- The pool ----

  /** A manager over an account's confirmed blocks. */
  ghost predicate Manages(m: MemdbManager, codec: Codec, stable: Account)
    reads m
  {
    m.Valid() && m.codec == codec && m.confirmed == |stable| && m.confirmed <= |m.account| &&
        m.account[..m.confirmed] == stable
  }

  method OpenManager(codec: Codec, db: State, ghost stable: Account) returns (m: MemdbManager)
    requires Linked(stable) && db == DbOf(codec, stable)
    ensures fresh(m) && Manages(m, codec, stable) && m.account == stable
  {
    m := new MemdbManager(codec, db, stable);
  }

  /** `canRollback`: above the confirmed height, on a block the account has. */
  method CanRollback(codec: Codec, stableDb: State, frontierDb: State, block: Block, ghost account: Account,
          ghost confirmed: nat)
    returns (refusal: Option<Outcome>)
    requires Faithful(codec) && Linked(account) && confirmed <= |account|
    requires frontierDb == DbOf(codec, account) && stableDb == DbOf(codec, account[..confirmed])
    ensures var h := block.id.height;
            refusal == if confirmed >= h then Some(TooOld)
                       else if h == 1 || h - 1 > |account| then Some(NoPrevious)
                       else if TipAt(account, h - 1) != Previous(block) then Some(NoPrevious)
                       else None
  {
    hide Faithful, DbOf, ByHeight, Identifier, Linked;
    LinkedPrefix(account, confirmed);
    StoreReads(codec, account[..confirmed], 0);
    TipHeight(account, confirmed);
    if Identifier(codec, stableDb).height >= block.id.height {
      return Some(TooOld);
    }
    StoreReads(codec, account, block.id.height - 1);
    var truePrevious := ByHeight(codec, frontierDb, block.id.height - 1);
    if truePrevious == None {
      return Some(NoPrevious);
    }
    if truePrevious.value.id != Previous(block) {
      return Some(NoPrevious);
    }
    return None;
  }

  /** The rollback loop ends exactly at the named previous block. */
  method RollBack(m: MemdbManager, previous: HashHeight, ghost n: nat) returns (ok: bool)
    requires m.Valid() && m.confirmed <= n <= |m.account| && TipAt(m.account, n) == previous
    modifies m
    ensures ok && m.Valid() && m.account == old(m.account)[..n]
  {
    hide Holds, DbOf;
    ghost var account := m.account;
    HoldsFrontier(m.Contents(), m.codec, account, m.confirmed);
    TipHeight(account, n);
    while true
      invariant m.Valid() && n <= |m.account| <= |account| && m.account == account[..|m.account|]
      decreases |m.account|
    {
      HoldsFrontier(m.Contents(), m.codec, m.account, m.confirmed);
      var db := m.Frontier();
      FrontierReads(m.codec, m.account);
      TipHeight(m.account, |m.account|);
      if FrontierIdentifier(db) == previous {
        break;
      }
      var popped := m.Pop();
      if !popped {
        return false;
      }
    }
    return true;
  }

  /** `addAccountBlockTransaction` on the account's manager. */
  method InsertInto(m: MemdbManager, stableDb: State, t: Transaction, force: bool) returns (outcome: Outcome)
    requires m.Valid() && Faithful(m.codec) && Clean(t.changes) && |m.account| + 1 < TWO_64
    requires m.confirmed <= |m.account| && stableDb == DbOf(m.codec, m.account[..m.confirmed])
    modifies m
    ensures m.Valid()
    ensures Result(m.account, outcome) == Insertion(old(m.account), m.confirmed, t, force)
  {
    hide Holds, DbOf, Faithful, ByHeight, Identifier, FrontierIdentifier, Linked, Clean, HigherPriority;
    var block, codec := t.block, m.codec;
    var h := block.id.height;
    ghost var account := m.account;
    HoldsFrontier(m.Contents(), codec, account, m.confirmed);
    var frontier := m.Frontier();
    StoreReads(codec, account, h);
    if Previous(block) == Identifier(codec, frontier) {
      Extend(m, t);
      return Inserted;
    }
    var trueBlock := ByHeight(codec, frontier, h);
    if trueBlock != None && trueBlock.value.id == block.id {
      return Known;
    }
    var refusal := CanRollback(codec, stableDb, frontier, block, account, m.confirmed);
    if refusal != None {
      return refusal.value;
    }
    var verdict := HigherPriority(block, trueBlock.value);
    if verdict != Accepted && !force {
      return Refused(verdict);
    }
    var ok := RollBack(m, Previous(block), h - 1);
    Extend(m, t);
    return Inserted;
  }

  /** A block on top of the frontier. */
  method Extend(m: MemdbManager, t: Transaction)
    requires m.Valid() && Clean(t.changes) && |m.account| + 1 < TWO_64
    requires Previous(t.block) == TipAt(m.account, |m.account|)
    modifies m
    ensures m.Valid() && m.account == old(m.account) + [t]
  {
    var ok := m.Add(t.block, t.changes, t);
  }

  method InsertManaged(m: MemdbManager, codec: Codec, stableDb: State, ghost stable: Account, t: Transaction,
          force: bool) returns (outcome: Outcome)
    requires Manages(m, codec, stable) && Faithful(codec) && Clean(t.changes) && |m.account| + 1 < TWO_64
    requires stableDb == DbOf(codec, stable)
    modifies m
    ensures Manages(m, codec, stable)
    ensures |stable| <= |old(m.account)| && Result(m.account, outcome) == Insertion(old(m.account), |stable|, t, force)
  {
    hide Linked, Faithful, DbOf, Clean, Holds, Insertion;
    HoldsFrontier(m.Contents(), m.codec, m.account, m.confirmed);
    InsertionKeepsConfirmed(m.account, m.confirmed, t, force);
    outcome := InsertInto(m, stableDb, t, force);
  }

  /** The blocks above the confirmed height, read back from the frontier database. */
  method Uncommitted(codec: Codec, stableDb: State, frontierDb: State, ghost account: Account, ghost n: nat)
    returns (blocks: seq<Block>)
    requires Faithful(codec) && Linked(account) && n <= |account|
    requires frontierDb == DbOf(codec, account) && stableDb == DbOf(codec, account[..n])
    ensures |blocks| == |account| - n && forall k :: 0 <= k < |blocks| ==> blocks[k] == account[n + k].block
  {
    hide Faithful, DbOf, ByHeight, Identifier, Linked;
    LinkedPrefix(account, n);
    StoreReads(codec, account[..n], 0);
    StoreReads(codec, account, 0);
    TipHeight(account, n);
    TipHeight(account, |account|);
    blocks := [];
    var i, last := Identifier(codec, stableDb).height + 1, Identifier(codec, frontierDb).height;
    while i <= last
      invariant n + 1 <= i <= |account| + 1 && |blocks| == i - n - 1
      invariant forall k :: 0 <= k < |blocks| ==> blocks[k] == account[n + k].block
    {
      StoreReads(codec, account, i);
      var block := ByHeight(codec, frontierDb, i);
      blocks := blocks + [block.value];
      i := i + 1;
    }
  }

  /** `rebuild` for one account: the pooled blocks put on the new confirmed database. */
  method RebuildAccount(former: MemdbManager, codec: Codec, stableDb: State, ghost past: Account, ghost stable: Account)
    returns (m: MemdbManager?)
    requires Manages(former, codec, past) && Faithful(codec) && Linked(stable)
    requires |past| <= |stable| <= |former.account| && stable == former.account[..|stable|]
    requires stableDb == DbOf(codec, stable)
    ensures m == null <==> |stable| == |former.account|
    ensures m != null ==> fresh(m) && Manages(m, codec, stable) && m.account == former.account
  {
    hide Holds, DbOf, Faithful, Linked;
    ghost var account, n := former.account, |stable|;
    HoldsFrontier(former.Contents(), former.codec, former.account, former.confirmed);
    var frontierDb := former.Frontier();
    var blocks := Uncommitted(codec, stableDb, frontierDb, account, n);
    if |blocks| == 0 {
      return null;
    }
    m := new MemdbManager(codec, stableDb, stable);
    for k := 0 to |blocks|
      invariant fresh(m) && m.Valid() && m.codec == codec && m.confirmed == n && m.account == account[..n + k]
    {
      Reapply(former, m, blocks[k]);
    }
  }

  /** The next block of the former manager, with its patch, on the new one. */
  method Reapply(former: MemdbManager, m: MemdbManager, block: Block)
    requires former.Valid() && m.Valid() && m != former && m.codec == former.codec
    requires former.confirmed <= |m.account| < |former.account|
    requires m.account == former.account[..|m.account|] && block == former.account[|m.account|].block
    modifies m
    ensures m.Valid() && m.account == former.account[..|old(m.account)| + 1]
  {
    hide Holds, SameEffect, StepPatch, SetFrontier, Clean;
    ghost var account, i := former.account, |m.account|;
    HoldsFrontier(former.Contents(), former.codec, account, former.confirmed);
    assert Follows(account, i);
    var patch := former.GetPatch(block.id);
    RepeatedEntries(patch.value, StepOf(m.codec, account[i]));
    var ok := m.Add(block, patch.value, account[i]);
    assert account[..i] + [account[i]] == account[..i + 1];
  }

  /** Newly confirmed blocks are the next blocks of the account. */
  ghost predicate Confirms(account: Account, past: Account, stable: Account) {
    |past| <= |stable| <= |account| && stable == account[..|stable|]
  }

  ghost predicate Renewed(m: MemdbManager, former: MemdbManager, codec: Codec, stable: Account)
    reads m, former
  {
    Manages(m, codec, stable) && m.account == former.account
  }

  /** All accounts with a manager, in any order. */
  method RebuildAll(managers: map<Bytes, MemdbManager>, codec: Codec, stable: Bytes -> State,
          ghost past: Bytes -> Account, ghost confirmed: Bytes -> Account)
    returns (rebuilt: map<Bytes, MemdbManager>)
    requires Faithful(codec)
    requires forall a :: a in managers ==> Linked(confirmed(a)) && stable(a) == DbOf(codec, confirmed(a))
    requires forall a :: a in managers ==>
        Manages(managers[a], codec, past(a)) && Confirms(managers[a].account, past(a), confirmed(a))
    ensures forall a :: a in rebuilt <==> a in managers && |confirmed(a)| < |managers[a].account|
    ensures forall a :: a in rebuilt ==> fresh(rebuilt[a]) && Renewed(rebuilt[a], managers[a], codec, confirmed(a))
    ensures forall a, b :: a in rebuilt && b in rebuilt && a != b ==> rebuilt[a] != rebuilt[b]
  {
    hide Linked, Faithful, DbOf, Manages;
    var todo := managers.Keys;
    rebuilt := map[];
    while todo != {}
      invariant todo <= managers.Keys
      invariant forall a :: a in rebuilt <==> a in managers && a !in todo && |confirmed(a)| < |managers[a].account|
      invariant forall a :: a in rebuilt ==> fresh(rebuilt[a]) && Renewed(rebuilt[a], managers[a], codec, confirmed(a))
      invariant forall a, b :: a in rebuilt && b in rebuilt && a != b ==> rebuilt[a] != rebuilt[b]
      decreases todo
    {
      var a :| a in todo;
      var m := RebuildAccount(managers[a], codec, stable(a), past(a), confirmed(a));
      if m != null {
        rebuilt := rebuilt[a := m];
      }
      todo := todo - {a};
    }
  }

  class Pool {
    const codec: Codec
    var managers: map<Bytes, MemdbManager>
    var stable: Bytes -> State
    ghost var confirmed: Bytes -> Account

    ghost predicate Valid()
      reads this, managers.Values
    {
      && Faithful(codec)
      && (forall a :: Linked(confirmed(a)) && stable(a) == DbOf(codec, confirmed(a)))
      && (forall a :: a in managers ==> Manages(managers[a], codec, confirmed(a)))
      && (forall a, b :: a in managers && b in managers && a != b ==> managers[a] != managers[b])
    }

    /** The account's chain: confirmed blocks and pooled ones. */
    ghost function AccountOf(a: Bytes): Account
      reads this, managers.Values
    {
      if a in managers then managers[a].account else confirmed(a)
    }

    constructor (codec: Codec, stable: Bytes -> State, ghost confirmed: Bytes -> Account)
      requires Faithful(codec) && forall a :: Linked(confirmed(a)) && stable(a) == DbOf(codec, confirmed(a))
      ensures Valid() && managers == map[] && this.confirmed == confirmed
    {
      this.codec, managers, this.stable, this.confirmed := codec, map[], stable, confirmed;
    }

    method GetAccountManager(a: Bytes) returns (m: MemdbManager)
      requires Valid()
      modifies this`managers
      ensures Valid() && a in managers && m == managers[a]
      ensures managers == old(managers)[a := m] && (a in old(managers) ==> m == old(managers)[a])
      ensures a !in old(managers) ==> fresh(m)
      ensures (forall b :: AccountOf(b) == old(AccountOf(b))) && fresh(managers.Values - old(managers.Values))
    {
      hide Linked, Manages, Faithful, DbOf;
      if a in managers {
        m := managers[a];
      } else {
        m := OpenAccount(a);
      }
    }

    method OpenAccount(a: Bytes) returns (m: MemdbManager)
      requires Valid() && a !in managers
      modifies this`managers
      ensures Valid() && fresh(m) && managers == old(managers)[a := m]
      ensures forall b :: AccountOf(b) == old(AccountOf(b))
    {
      hide Linked, Manages, Faithful, DbOf;
      m := OpenManager(codec, stable(a), confirmed(a));
      managers := managers[a := m];
    }

    /** An account's frontier database holds its confirmed and pooled blocks. */
    method GetFrontierAccountStore(a: Bytes) returns (db: State)
      requires Valid()
      modifies this`managers
      ensures Valid() && db == DbOf(codec, AccountOf(a))
      ensures (forall b :: AccountOf(b) == old(AccountOf(b))) && fresh(managers.Values - old(managers.Values))
    {
      hide Linked, Faithful, DbOf, Holds;
      var m := GetAccountManager(a);
      db := m.Frontier();
    }

    /** The account's chain changes as `Insertion` says, no other account's does. */
    method AddAccountBlockTransaction(a: Bytes, t: Transaction, force: bool) returns (outcome: Outcome)
      requires Valid() && Clean(t.changes) && |AccountOf(a)| + 1 < TWO_64
      modifies this`managers, managers.Values
      ensures Valid()
      ensures |confirmed(a)| <= |old(AccountOf(a))|
      ensures Result(AccountOf(a), outcome) == Insertion(old(AccountOf(a)), |confirmed(a)|, t, force)
      ensures forall b :: b != a ==> AccountOf(b) == old(AccountOf(b))
      ensures fresh(managers.Values - old(managers.Values))
    {
      hide Linked, Faithful, DbOf, Clean, Manages, Insertion;
      var m := GetAccountManager(a);
      outcome := InsertManaged(m, codec, stable(a), confirmed(a), t, force);
    }

    /** A momentum confirmed a prefix of each account's pooled blocks: every account
        keeps its blocks in order, hence its frontier and what its database reads,
        and only accounts with blocks left keep a manager. */
    method Rebuild(stable: Bytes -> State, ghost confirmed: Bytes -> Account)
      requires Valid()
      requires forall a :: Linked(confirmed(a)) && stable(a) == DbOf(codec, confirmed(a))
      requires forall a :: a in managers ==> Confirms(managers[a].account, this.confirmed(a), confirmed(a))
      modifies this
      ensures Valid() && this.confirmed == confirmed
      ensures forall a :: a in old(managers) ==> AccountOf(a) == old(AccountOf(a))
      ensures forall a :: a in managers <==> a in old(managers) && |confirmed(a)| < |old(AccountOf(a))|
      ensures fresh(managers.Values)
    {
      hide Linked, Faithful, DbOf, Manages;
      managers := RebuildAll(managers, codec, stable, this.confirmed, confirmed);
      this.stable, this.confirmed := stable, confirmed;
    }
  }

  /** Blocks that arrive at the pool one after the other do to their account what the
      arrivals do to its chain, and nothing to any other. */
  method Arrive(pool: Pool, a: Bytes, ts: seq<Transaction>)
    requires pool.Valid() && |pool.AccountOf(a)| + |ts| < TWO_64 && forall t :: t in ts ==> Clean(t.changes)
    modifies pool`managers, pool.managers.Values
    ensures pool.Valid() && |pool.confirmed(a)| <= |old(pool.AccountOf(a))|
    ensures pool.AccountOf(a) == Arrivals(old(pool.AccountOf(a)), |pool.confirmed(a)|, ts)
    ensures forall b :: b != a ==> pool.AccountOf(b) == old(pool.AccountOf(b))
    ensures fresh(pool.managers.Values - old(pool.managers.Values))
  {
    hide Clean, Manages, Insertion, Linked, Faithful, DbOf;
    ghost var base, c := pool.AccountOf(a), |pool.confirmed(a)|;
    ConfirmedIsBelow(pool, a);
    for k := 0 to |ts|
      invariant pool.Valid() && pool.AccountOf(a) == Arrivals(base, c, ts[..k]) && |pool.AccountOf(a)| <= |base| + k
      invariant forall b :: b != a ==> pool.AccountOf(b) == old(pool.AccountOf(b))
      invariant fresh(pool.managers.Values - old(pool.managers.Values))
    {
      ghost var before := pool.AccountOf(a);
      assert ts[..k + 1][..k] == ts[..k];
      InsertionGrows(before, c, ts[k]);
      var outcome := pool.AddAccountBlockTransaction(a, ts[k], false);
    }
    assert ts[..|ts|] == ts;
  }

  lemma ConfirmedIsBelow(pool: Pool, a: Bytes)
    requires pool.Valid()
    ensures |pool.confirmed(a)| <= |pool.AccountOf(a)|
  {
  }

  lemma InsertionGrows(account: Account, confirmed: nat, t: Transaction)
    requires confirmed <= |account|
    ensures |Insertion(account, confirmed, t, false).account| <= |account| + 1
  {
  }
}
