/** Contract receives: a method runs on a snapshot of the account's database that is
    applied on success and dropped on failure, failures refund the sender, and the
    generated blocks are numbered onto the account's frontier. */
module EmbeddedVm {
  import opened Bytes
  import opened Patches
  import opened VersionedDb

  // ---- Databases with their own changes ----

  /** A memory layer over what is below it; both hold tombstones. */
  datatype Layered = Layered(base: Raw, top: Raw)

  function View(s: Layered): State { Decode(s.base + s.top) }

  function Write(s: Layered, p: Patch): Layered { s.(top := RawApply(s.top, p)) }

  function Snapshot(s: Layered): Layered { Layered(s.base + s.top, map[]) }

  /** The layer's entry for a key. */
  function EntryAt(top: Raw, k: Bytes): Entry
    requires k in top
  {
    if top[k] == [] then Delete(k) else Put(k, top[k][1..])
  }

  /** A layer written through tombstone encoding. */
  ghost predicate Encoded(top: Raw) {
    forall k :: k in top && top[k] != [] ==> top[k][0] == 0
  }

  lemma {:induction false} WritesEncode(top: Raw, p: Patch)
    requires Encoded(top)
    ensures Encoded(RawApply(top, p))
  {
    if p != [] { WritesEncode(top, p[..|p| - 1]); }
  }

  predicate IsLeast(k: Bytes, keys: set<Bytes>) {
    k in keys && forall j :: j in keys ==> j == k || Less(k, j)
  }

  lemma {:induction false} LeastExists(keys: set<Bytes>)
    requires keys != {}
    ensures exists k :: IsLeast(k, keys)
  {
    var k :| k in keys;
    var rest := keys - {k};
    if rest == {} {
      assert forall j :: j in keys ==> j == k || j in rest;
      assert IsLeast(k, keys);
    } else {
      LeastExists(rest);
      var least :| IsLeast(least, rest);
      LessIsTotal(k, least);
      if Less(least, k) {
        assert IsLeast(least, keys);
      } else {
        forall j | j in keys ensures j == k || Less(k, j) {
          if j != k && j != least { LessIsTransitive(k, least, j); }
        }
        assert IsLeast(k, keys);
      }
    }
  }

  function Least(keys: set<Bytes>): (k: Bytes)
    requires keys != {}
    ensures IsLeast(k, keys)
  {
    LeastExists(keys);
    LeastIsUnique(keys);
    var k :| k in keys && IsLeast(k, keys);
    k
  }

  lemma LeastIsUnique(keys: set<Bytes>)
    ensures forall a, b :: IsLeast(a, keys) && IsLeast(b, keys) ==> a == b
  {
    forall a, b | IsLeast(a, keys) && IsLeast(b, keys) ensures a == b {
      if a != b { LessIsAsymmetric(a, b); }
    }
  }

  /** `changesInternal` and `enableDeleteDB.Changes`: each key once, in key order. */
  function Changes(top: Raw): (p: Patch)
    decreases |top.Keys|
  {
    if top == map[] then []
    else
      assert top.Keys != {};
      var k := Least(top.Keys);
      assert (top - {k}).Keys < top.Keys;
      [EntryAt(top, k)] + Changes(top - {k})
  }

  lemma {:induction false} RawApplyFirst(raw: Raw, e: Entry, p: Patch)
    ensures RawApply(raw, [e] + p) == RawApply(RawEntry(raw, e), p)
  {
    if p == [] {
      assert [e] + p == [e] && [e][..0] == [];
    } else {
      var n := |p| - 1;
      assert ([e] + p)[..n + 1] == [e] + p[..n];
      RawApplyFirst(raw, e, p[..n]);
    }
  }

  /** Applying a layer's changes lays it over the database. */
  lemma {:induction false} ChangesApply(raw: Raw, top: Raw)
    requires Encoded(top)
    ensures RawApply(raw, Changes(top)) == raw + top
    decreases |top.Keys|
  {
    hide RawEntry, EntryAt, Encoded;
    if top == map[] {
      assert raw + top == raw;
    } else {
      assert top.Keys != {};
      var k := Least(top.Keys);
      var rest := top - {k};
      assert rest.Keys < top.Keys;
      LayFirst(raw, top, k);
      RawApplyFirst(raw, EntryAt(top, k), Changes(rest));
      ChangesApply(RawEntry(raw, EntryAt(top, k)), rest);
    }
  }

  /** Each key of the layer once, in key order. */
  lemma {:induction false} ChangesInOrder(top: Raw)
    ensures forall k :: k in Touched(Changes(top)) <==> k in top
    ensures forall i, j :: 0 <= i < j < |Changes(top)| ==> Less(Changes(top)[i].key, Changes(top)[j].key)
    decreases |top.Keys|
  {
    if top != map[] {
      assert top.Keys != {};
      var k := Least(top.Keys);
      var rest := top - {k};
      assert rest.Keys < top.Keys;
      ChangesInOrder(rest);
      FirstChange(EntryAt(top, k), Changes(rest), rest.Keys);
    }
  }

  lemma FirstChange(e: Entry, p: Patch, keys: set<Bytes>)
    requires forall k :: k in Touched(p) <==> k in keys
    requires forall i, j :: 0 <= i < j < |p| ==> Less(p[i].key, p[j].key)
    requires forall k :: k in keys ==> Less(e.key, k)
    ensures forall k :: k in Touched([e] + p) <==> k == e.key || k in keys
    ensures forall i, j :: 0 <= i < j < |[e] + p| ==> Less(([e] + p)[i].key, ([e] + p)[j].key)
  {
    TouchedFirst(e, p);
    forall j | 0 <= j < |p| ensures Less(e.key, p[j].key) { assert p[j].key in Touched(p); }
  }

  lemma TouchedFirst(e: Entry, p: Patch)
    ensures Touched([e] + p) == {e.key} + Touched(p)
  {
    var all := [e] + p;
    assert all[0] == e && forall i :: 0 <= i < |p| ==> all[i + 1] == p[i];
  }

  lemma {:induction false} LayFirst(raw: Raw, top: Raw, k: Bytes)
    requires Encoded(top) && k in top
    ensures Encoded(top - {k}) && RawEntry(raw, EntryAt(top, k)) + (top - {k}) == raw + top
  {
    assert top[k] != [] ==> top[k] == [0] + top[k][1..];
    assert RawEntry(raw, EntryAt(top, k)) == raw[k := top[k]];
    assert raw[k := top[k]] + (top - {k}) == raw + top;
  }

  /** Writes onto a layer, seen from an empty one. */
  lemma {:induction false} WritesFromEmpty(raw: Raw, p: Patch)
    ensures RawApply(raw, p) == raw + RawApply(map[], p)
  {
    if p == [] {
      assert raw + map[] == raw;
    } else {
      WritesFromEmpty(raw, p[..|p| - 1]);
    }
  }

  // ---- A layer merged into the one below ----

  /** t is a layer over s; merged, its writes are writes to s. */
  ghost predicate Over(t: Layered, s: Layered) { t.base == s.base + s.top && Encoded(t.top) }

  function Merged(s: Layered, t: Layered): Layered { Layered(s.base, s.top + t.top) }

  lemma MergedView(s: Layered, t: Layered)
    requires Over(t, s)
    ensures View(Merged(s, t)) == View(t)
  {
    LayersAssociate(s.base, s.top, t.top);
  }

  lemma MergedWrite(s: Layered, t: Layered, p: Patch)
    requires Over(t, s)
    ensures Over(Write(t, p), s) && Merged(s, Write(t, p)) == Write(Merged(s, t), p)
  {
    hide RawApply, Encoded;
    WritesEncode(t.top, p);
    WritesFromEmpty(t.top, p);
    WritesFromEmpty(s.top + t.top, p);
    LayersAssociate(s.top, t.top, RawApply(map[], p));
  }

  lemma LayersAssociate(a: Raw, b: Raw, c: Raw)
    ensures a + (b + c) == a + b + c
  {
  }

  lemma SnapshotIsOver(s: Layered)
    ensures Over(Snapshot(s), s) && Merged(s, Snapshot(s)) == s
  {
    assert s.top + map[] == s.top;
  }

  // ---- Balances ----

  function ByteLength(n: nat): nat { if n == 0 then 0 else 1 + ByteLength(n / 256) }

  lemma {:induction false} LengthFits(n: nat, width: nat)
    requires width >= ByteLength(n)
    ensures n < Pow256(width)
    decreases width
  {
    if width > 0 { LengthFits(n / 256, width - 1); }
  }

  /** `BigIntToBytes`: big-endian, padded to 32 bytes. */
  function BigIntToBytes(n: nat): Bytes {
    BigEndian(n, if ByteLength(n) < 32 then 32 else ByteLength(n))
  }

  lemma BigIntRoundTrip(n: nat)
    ensures BigEndianValue(BigIntToBytes(n)) == n
  {
    var width := if ByteLength(n) < 32 then 32 else ByteLength(n);
    LengthFits(n, width);
    BigEndianRoundTrip(n, width);
  }

  function BalanceKey(token: Bytes): Bytes { [3] + token }

  const SEQUENCER_KEY: Bytes := [7]
  const ZERO_TOKEN: Bytes := Zeros(10)

  function Balance(view: State, token: Bytes): nat {
    match Get(view, BalanceKey(token))
    case None => 0
    case Some(data) => BigEndianValue(data)
  }

  function SetBalance(s: Layered, token: Bytes, amount: nat): Layered {
    Write(s, [Put(BalanceKey(token), BigIntToBytes(amount))])
  }

  function AddBalance(s: Layered, token: Bytes, amount: nat): Layered {
    SetBalance(s, token, Balance(View(s), token) + amount)
  }

  lemma {:induction false} WriteReads(s: Layered, k: Bytes, v: Bytes, j: Bytes)
    ensures Get(View(Write(s, [Put(k, v)])), j) == if j == k then Some(v) else Get(View(s), j)
  {
    assert RawApply(s.top, [Put(k, v)]) == s.top[k := Exists(v)] by { assert [Put(k, v)][..0] == []; }
  }

  lemma {:induction false} SetBalanceReads(s: Layered, token: Bytes, amount: nat, other: Bytes)
    ensures Balance(View(SetBalance(s, token, amount)), other) ==
        if other == token then amount else Balance(View(s), other)
  {
    WriteReads(s, BalanceKey(token), BigIntToBytes(amount), BalanceKey(other));
    BigIntRoundTrip(amount);
    assert BalanceKey(other)[1..] == other && BalanceKey(token)[1..] == token;
  }

  function SequencerIndex(view: State): uint64 {
    match Get(view, SEQUENCER_KEY)
    case None => 0
    case Some(data) => BigEndianValue(data) % TWO_64
  }

  function SequencerPopFront(s: Layered): Layered {
    Write(s, [Put(SEQUENCER_KEY, Uint64ToBytes((SequencerIndex(View(s)) + 1) % TWO_64))])
  }

  // ---- Sends and contract code ----

  datatype Send = Send(to: Bytes, token: Bytes, amount: nat, data: Bytes)

  /** The block a contract receives. */
  datatype SendBlock = SendBlock(sender: Bytes, contract: Bytes, token: Bytes, amount: nat)

  /** What contract code does: writes and sends, or writes and an error. */
  datatype Execution = Fails(writes: Patch) | Returns(writes: Patch, sends: seq<Send>)

  /** The method behind the call data: unknown to the contract, no such contract, or its code. */
  datatype Lookup = NoMethod | NoContract | Found(run: State -> Execution)

  /** Which addresses are contracts, which sends to them are valid, and block hashes. */
  datatype Rules = Rules(embedded: Bytes -> bool, accepts: Send -> bool, hash: (Send, Bytes, uint64) -> Bytes)

  datatype Applied = Done(db: Layered) | Refused | Broken

  /** `applySend`: taking more than there is of the zero token is not prevented but panics. */
  function ApplySend(rules: Rules, s: Layered, d: Send): Applied {
    var balance := Balance(View(s), d.token);
    if rules.embedded(d.to) && !rules.accepts(d) then Refused
    else if d.token != ZERO_TOKEN && balance < d.amount then Refused
    else if balance < d.amount then Broken
    else Done(SetBalance(s, d.token, balance - d.amount))
  }

  function ApplySends(rules: Rules, s: Layered, ds: seq<Send>): Applied {
    if ds == [] then Done(s)
    else
      var before := ApplySends(rules, s, ds[..|ds| - 1]);
      if before.Done? then ApplySend(rules, before.db, ds[|ds| - 1]) else before
  }

  datatype Ran = Ran(applied: Applied, sends: seq<Send>)

  /** Funds in, contract code, its sends. */
  function Execute(rules: Rules, run: State -> Execution, s: Layered, send: SendBlock): Ran {
    var funded := AddBalance(s, send.token, send.amount);
    match run(View(funded))
    case Fails(_) => Ran(Refused, [])
    case Returns(writes, sends) => Ran(ApplySends(rules, Write(funded, writes), sends), sends)
  }

  function Lifted(s: Layered, r: Applied): Applied {
    if r.Done? then Done(Merged(s, r.db)) else r
  }

  lemma {:induction false} SendMerges(rules: Rules, s: Layered, t: Layered, d: Send)
    requires Over(t, s)
    ensures var r := ApplySend(rules, t, d);
            ApplySend(rules, Merged(s, t), d) == Lifted(s, r) && (r.Done? ==> Over(r.db, s))
  {
    hide Balance, View, Merged, Write;
    MergedView(s, t);
    var balance := Balance(View(t), d.token);
    if balance >= d.amount { MergedWrite(s, t, [Put(BalanceKey(d.token), BigIntToBytes(balance - d.amount))]); }
  }

  lemma {:induction false} SendsMerge(rules: Rules, s: Layered, t: Layered, ds: seq<Send>)
    requires Over(t, s)
    ensures var r := ApplySends(rules, t, ds);
            ApplySends(rules, Merged(s, t), ds) == Lifted(s, r) && (r.Done? ==> Over(r.db, s))
  {
    hide ApplySend, Over, Merged;
    if ds != [] {
      var n := |ds| - 1;
      SendsMerge(rules, s, t, ds[..n]);
      var before := ApplySends(rules, t, ds[..n]);
      if before.Done? { SendMerges(rules, s, before.db, ds[n]); }
    }
  }

  /** Running on a snapshot and merging is running without one. */
  lemma {:induction false} ExecutionMerges(rules: Rules, run: State -> Execution, s: Layered, send: SendBlock)
    ensures var saved, direct := Execute(rules, run, Snapshot(s), send), Execute(rules, run, s, send);
            direct == Ran(Lifted(s, saved.applied), saved.sends) && (saved.applied.Done? ==> Over(saved.applied.db, s))
  {
    hide ApplySends, Over, Merged, Write, View, Balance, Snapshot;
    var t := Snapshot(s);
    SnapshotIsOver(s);
    MergedView(s, t);
    MergedWrite(s, t, [Put(BalanceKey(send.token), BigIntToBytes(Balance(View(t), send.token) + send.amount))]);
    var funded := AddBalance(t, send.token, send.amount);
    MergedView(s, funded);
    match run(View(funded))
    case Fails(_) =>
    case Returns(writes, sends) =>
      MergedWrite(s, funded, writes);
      SendsMerge(rules, s, Write(funded, writes), sends);
  }

  // ---- Refunds ----

  function RefundOf(send: SendBlock): Send { Send(send.sender, send.token, send.amount, []) }

  function RefundsOf(send: SendBlock): seq<Send> { if send.amount > 0 then [RefundOf(send)] else [] }

  function Refunded(rules: Rules, s: Layered, send: SendBlock): Applied {
    var funded := AddBalance(s, send.token, send.amount);
    if send.amount > 0 then ApplySend(rules, funded, RefundOf(send)) else Done(funded)
  }

  predicate Refundable(rules: Rules, send: SendBlock) {
    send.amount == 0 || !rules.embedded(send.sender) || rules.accepts(RefundOf(send))
  }

  /** A refund succeeds unless the sender is a contract that takes no plain transfer,
      and leaves every balance and every other key as it was. */
  lemma {:induction false} RefundRestores(rules: Rules, s: Layered, send: SendBlock, token: Bytes, k: Bytes)
    ensures Refunded(rules, s, send) == Refused <==> !Refundable(rules, send)
    ensures Refundable(rules, send) ==>
              var r := Refunded(rules, s, send);
              && r.Done? && Balance(View(r.db), token) == Balance(View(s), token)
              && (k != BalanceKey(send.token) ==> Get(View(r.db), k) == Get(View(s), k))
  {
    hide Balance, View, Write;
    var before := Balance(View(s), send.token);
    var funded := SetBalance(s, send.token, before + send.amount);
    SetBalanceReads(s, send.token, before + send.amount, send.token);
    SetBalanceReads(s, send.token, before + send.amount, token);
    SetBalanceReads(funded, send.token, before, token);
    WriteReads(s, BalanceKey(send.token), BigIntToBytes(before + send.amount), k);
    WriteReads(funded, BalanceKey(send.token), BigIntToBytes(before), k);
  }

  // ---- The generated blocks ----

  const SUCCESS := 1
  const FAIL := 2

  datatype Numbered = Numbered(send: Send, previousHash: Bytes, height: uint64, hash: Bytes)

  datatype Receive = Receive(previousHash: Bytes, height: uint64, status: nat, descendants: seq<Numbered>,
      changes: Patch)

  function Up(h: uint64): uint64 { (h + 1) % TWO_64 }

  /** The identifier below the next block. */
  function Head(frontier: HashHeight, done: seq<Numbered>): HashHeight {
    if done == [] then frontier else HashHeight(done[|done| - 1].hash, done[|done| - 1].height)
  }

  function Number(rules: Rules, frontier: HashHeight, ds: seq<Send>): (r: seq<Numbered>)
    ensures |r| == |ds|
  {
    if ds == [] then []
    else
      var done, d := Number(rules, frontier, ds[..|ds| - 1]), ds[|ds| - 1];
      var head := Head(frontier, done);
      done + [Numbered(d, head.hash, Up(head.height), rules.hash(d, head.hash, Up(head.height)))]
  }

  function Finalized(rules: Rules, db: Layered, ds: seq<Send>, status: nat): Receive {
    var frontier := FrontierIdentifier(View(db));
    var done := Number(rules, frontier, ds);
    var head := Head(frontier, done);
    Receive(head.hash, Up(head.height), status, done, Changes(db.top))
  }

  /** The i-th block carries the i-th send, sits on the block before it, and is hashed so. */
  ghost predicate Sits(rules: Rules, frontier: HashHeight, r: seq<Numbered>, ds: seq<Send>, i: nat)
    requires i < |r| == |ds|
  {
    var head := Head(frontier, r[..i]);
    && r[i].send == ds[i] && r[i].previousHash == head.hash && r[i].height == head.height + 1
    && r[i].hash == rules.hash(ds[i], r[i].previousHash, r[i].height)
  }

  lemma UpPlain(h: uint64)
    requires h + 1 < TWO_64
    ensures Up(h) == h + 1
  {
  }

  /** The blocks in order, each sitting on the one before, from the frontier up. */
  lemma {:induction false} NumberLinks(rules: Rules, frontier: HashHeight, ds: seq<Send>)
    requires frontier.height + |ds| < TWO_64
    ensures var r := Number(rules, frontier, ds);
            && Head(frontier, r).height == frontier.height + |ds|
            && forall i :: 0 <= i < |ds| ==> Sits(rules, frontier, r, ds, i)
  {
    hide Up;
    if ds != [] {
      var n := |ds| - 1;
      NumberLinks(rules, frontier, ds[..n]);
      var r, before := Number(rules, frontier, ds), Number(rules, frontier, ds[..n]);
      assert r[..n] == before;
      UpPlain(Head(frontier, before).height);
      forall i | 0 <= i < |ds| ensures Sits(rules, frontier, r, ds, i) {
        if i < n { assert Sits(rules, frontier, before, ds[..n], i) && r[..i] == before[..i]; }
      }
    }
  }

  /** The receive is numbered on top of its sends. */
  lemma {:induction false} FinalizedLinks(rules: Rules, db: Layered, ds: seq<Send>, status: nat)
    requires FrontierIdentifier(View(db)).height + |ds| + 1 < TWO_64
    ensures var frontier, r := FrontierIdentifier(View(db)), Finalized(rules, db, ds, status);
            && r.status == status && r.height == frontier.height + |ds| + 1 &&
                r.previousHash == Head(frontier, r.descendants).hash
            && |r.descendants| == |ds| && forall i :: 0 <= i < |ds| ==> Sits(rules, frontier, r.descendants, ds, i)
    ensures Encoded(db.top) ==> RawApply(db.base, Finalized(rules, db, ds, status).changes) == db.base + db.top
  {
    hide FrontierIdentifier, View, Changes, Sits, RawApply;
    NumberLinks(rules, FrontierIdentifier(View(db)), ds);
    if Encoded(db.top) { ChangesApply(db.base, db.top); }
  }

  // ---- Receiving ----

  datatype Outcome = Crash | Rejected | Accepted(receive: Receive)

  datatype Result = Result(outcome: Outcome, db: Option<Layered>)

  /** What a receive amounts to: the sequencer advances, then the run without any
      snapshot, or the refund on what was there before it. */
  function Received(rules: Rules, s: Layered, send: Option<SendBlock>, lookup: Lookup): Result {
    var popped := SequencerPopFront(s);
    if send == None then Result(Rejected, Some(popped))
    else if !lookup.Found? then Result(Crash, None)
    else
      var ran := Execute(rules, lookup.run, popped, send.value);
      match ran.applied
      case Done(db) => Result(Accepted(Finalized(rules, db, ran.sends, SUCCESS)), Some(db))
      case Broken => Result(Crash, None)
      case Refused =>
        match Refunded(rules, popped, send.value)
        case Done(db) => Result(Accepted(Finalized(rules, db, RefundsOf(send.value), FAIL)), Some(db))
        case _ => Result(Rejected, None)
  }

  /** The account store in use and the one put aside by Save. */
  class VmContext {
    var account: Option<Layered>
    var snapshot: Option<Layered>

    constructor (account: Layered)
      ensures this.account == Some(account) && snapshot == None
    {
      this.account, snapshot := Some(account), None;
    }

    method Save()
      requires account.Some?
      modifies this
      ensures account == Some(Snapshot(old(account).value)) && snapshot == old(account)
    {
      var s := Snapshot(account.value);
      snapshot := account;
      account := Some(s);
    }

    method Reset()
      modifies this
      ensures account == old(snapshot) && snapshot == None
    {
      account := snapshot;
      snapshot := None;
    }

    /** Apply the snapshot's changes to the store put aside: as if written there. */
    method Done()
      requires account.Some? && snapshot.Some? && Over(account.value, snapshot.value)
      modifies this`account
      ensures account == Some(Merged(snapshot.value, old(account).value))
    {
      var changes := Changes(account.value.top);
      ChangesApply(snapshot.value.top, account.value.top);
      account := Some(Write(snapshot.value, changes));
    }

    method GenerateEmbeddedReceive(rules: Rules, send: Option<SendBlock>, lookup: Lookup) returns (outcome: Outcome)
      requires account.Some? && snapshot == None
      modifies this
      ensures var r := Received(rules, old(account).value, send, lookup);
              outcome == r.outcome && (r.db.Some? ==> account == r.db)
    {
      hide ApplySends, ApplySend, Over, Write, View, Balance, Snapshot, AddBalance, Finalized, SequencerPopFront;
      ghost var popped := SequencerPopFront(account.value);
      account := Some(SequencerPopFront(account.value));
      if send == None {
        return Rejected;
      }
      if lookup.NoMethod? {
        outcome := RollbackEmbedded(rules, send.value);
        return;
      }
      Save();
      account := Some(AddBalance(account.value, send.value.token, send.value.amount));
      if lookup.NoContract? {
        return Crash;
      }
      ExecutionMerges(rules, lookup.run, popped, send.value);
      var executed := lookup.run(View(account.value));
      match executed {
        case Fails(writes) =>
          account := Some(Write(account.value, writes));
          outcome := RollbackEmbedded(rules, send.value);
        case Returns(writes, sends) =>
          account := Some(Write(account.value, writes));
          var applied := ApplyAll(rules, sends);
          if applied == Broken {
            return Crash;
          }
          if applied == Refused {
            outcome := RollbackEmbedded(rules, send.value);
            return;
          }
          Done();
          outcome := FinalizeEmbedded(rules, sends, SUCCESS);
      }
    }

    /** The loop over the descendants; the first failure stops it. */
    method ApplyAll(rules: Rules, sends: seq<Send>) returns (applied: Applied)
      requires account.Some?
      modifies this`account
      ensures applied == ApplySends(rules, old(account).value, sends) && account.Some?
      ensures applied.Done? ==> account == Some(applied.db)
    {
      hide ApplySend;
      ghost var s := account.value;
      for i := 0 to |sends|
        invariant account.Some? && ApplySends(rules, s, sends[..i]) == Applied.Done(account.value)
      {
        assert sends[..i + 1][..i] == sends[..i];
        var one := ApplySend(rules, account.value, sends[i]);
        if !one.Done? {
          FirstFailureStays(rules, s, sends, i + 1);
          return one;
        }
        account := Some(one.db);
      }
      assert sends[..|sends|] == sends;
      applied := Applied.Done(account.value);
    }

    method RollbackEmbedded(rules: Rules, send: SendBlock) returns (outcome: Outcome)
      modifies this
      ensures old(snapshot) == None ==> outcome == Crash
      ensures old(snapshot).Some? ==>
                match Refunded(rules, old(snapshot).value, send)
                case Done(db) => outcome == Accepted(Finalized(rules, db, RefundsOf(send), FAIL)) && account == Some(db)
                case _ => outcome == Rejected
    {
      hide Finalized;
      Reset();
      if account == None {
        return Crash;
      }
      RefundRestores(rules, account.value, send, send.token, BalanceKey(send.token));
      account := Some(AddBalance(account.value, send.token, send.amount));
      if send.amount > 0 {
        var applied := ApplySend(rules, account.value, RefundOf(send));
        if !applied.Done? {
          return Rejected;
        }
        account := Some(applied.db);
      }
      outcome := FinalizeEmbedded(rules, RefundsOf(send), FAIL);
    }

    method FinalizeEmbedded(rules: Rules, ds: seq<Send>, status: nat) returns (outcome: Outcome)
      requires account.Some?
      ensures outcome == Accepted(Finalized(rules, account.value, ds, status))
    {
      var frontier := FrontierIdentifier(View(account.value));
      var prevHash, height := frontier.hash, Up(frontier.height);
      var done: seq<Numbered> := [];
      for i := 0 to |ds|
        invariant done == Number(rules, frontier, ds[..i]) && prevHash == Head(frontier, done).hash
        invariant height == Up(Head(frontier, done).height)
      {
        assert ds[..i + 1][..i] == ds[..i];
        var b := Numbered(ds[i], prevHash, height, rules.hash(ds[i], prevHash, height));
        done := done + [b];
        prevHash, height := b.hash, Up(height);
      }
      assert ds[..|ds|] == ds;
      outcome := Accepted(Receive(prevHash, height, status, done, Changes(account.value.top)));
    }
  }

  lemma {:induction false} FirstFailureStays(rules: Rules, s: Layered, ds: seq<Send>, n: nat)
    requires n <= |ds| && !ApplySends(rules, s, ds[..n]).Done?
    ensures ApplySends(rules, s, ds) == ApplySends(rules, s, ds[..n])
  {
    hide ApplySend;
    if n == |ds| {
      assert ds[..n] == ds;
    } else {
      var k := |ds| - 1;
      assert ds[..k][..n] == ds[..n];
      FirstFailureStays(rules, s, ds[..k], n);
    }
  }

  // ---- All or nothing ----

  lemma {:induction false} PoppedReads(s: Layered, token: Bytes, k: Bytes)
    ensures var p := View(SequencerPopFront(s));
            && SequencerIndex(p) == (SequencerIndex(View(s)) + 1) % TWO_64 &&
                Balance(p, token) == Balance(View(s), token)
            && (k != SEQUENCER_KEY ==> Get(p, k) == Get(View(s), k)) &&
                FrontierIdentifier(p) == FrontierIdentifier(View(s))
  {
    hide View, Write, Uint64ToBytes;
    var v := Uint64ToBytes((SequencerIndex(View(s)) + 1) % TWO_64);
    WriteReads(s, SEQUENCER_KEY, v, SEQUENCER_KEY);
    WriteReads(s, SEQUENCER_KEY, v, BalanceKey(token));
    WriteReads(s, SEQUENCER_KEY, v, k);
    WriteReads(s, SEQUENCER_KEY, v, FRONTIER_KEY);
    assert BalanceKey(token)[0] == 3 && SEQUENCER_KEY[0] == 7;
    Uint64RoundTrip((SequencerIndex(View(s)) + 1) % TWO_64);
  }

  function Total(ds: seq<Send>, token: Bytes): nat {
    if ds == [] then 0
    else Total(ds[..|ds| - 1], token) + if ds[|ds| - 1].token == token then ds[|ds| - 1].amount else 0
  }

  ghost predicate IsBalanceKey(k: Bytes) { k != [] && k[0] == 3 }

  /** The sends take exactly their amounts, token by token. */
  lemma {:induction false} SendsDebit(rules: Rules, s: Layered, ds: seq<Send>, token: Bytes, k: Bytes)
    requires ApplySends(rules, s, ds).Done?
    ensures var t := ApplySends(rules, s, ds).db;
            Balance(View(t), token) + Total(ds, token) == Balance(View(s), token) &&
                (!IsBalanceKey(k) ==> Get(View(t), k) == Get(View(s), k))
  {
    hide View, Write, Balance;
    if ds != [] {
      var n := |ds| - 1;
      SendsDebit(rules, s, ds[..n], token, k);
      var t, d := ApplySends(rules, s, ds[..n]).db, ds[n];
      var left := Balance(View(t), d.token) - d.amount;
      SetBalanceReads(t, d.token, left, token);
      WriteReads(t, BalanceKey(d.token), BigIntToBytes(left), k);
    }
  }

  // ---- What a receive does, on the account's own view ----

  lemma WriteApplies(s: Layered, p: Patch)
    ensures View(Write(s, p)) == Apply(View(s), p)
  {
    hide RawApply;
    WritesFromEmpty(s.top, p);
    WritesFromEmpty(s.base + s.top, p);
    LayersAssociate(s.base, s.top, RawApply(map[], p));
    RawApplyDecodes(s.base + s.top, p);
  }

  /** What the code finds: the sequencer one further and the amount received. */
  function Arrived(view: State, send: SendBlock): State {
    Apply(view, [Put(SEQUENCER_KEY, Uint64ToBytes((SequencerIndex(view) + 1) % TWO_64)),
                 Put(BalanceKey(send.token), BigIntToBytes(Balance(view, send.token) + send.amount))])
  }

  lemma {:induction false} ArrivedIsFunded(s: Layered, send: SendBlock)
    ensures View(AddBalance(SequencerPopFront(s), send.token, send.amount)) == Arrived(View(s), send)
  {
    hide View, Write, Apply, Balance;
    var a := [Put(SEQUENCER_KEY, Uint64ToBytes((SequencerIndex(View(s)) + 1) % TWO_64))];
    var b := [Put(BalanceKey(send.token), BigIntToBytes(Balance(View(s), send.token) + send.amount))];
    PoppedReads(s, send.token, []);
    WriteApplies(s, a);
    WriteApplies(SequencerPopFront(s), b);
    ApplyConcat(View(s), a, b);
    assert a + b == [a[0], b[0]];
  }

  lemma {:induction false} ArrivedReads(view: State, send: SendBlock, token: Bytes, k: Bytes)
    ensures Balance(Arrived(view, send), token) == Balance(view, token) + if token == send.token then send.amount else 0
    ensures SequencerIndex(Arrived(view, send)) == (SequencerIndex(view) + 1) % TWO_64
    ensures k != SEQUENCER_KEY && k != BalanceKey(send.token) ==> Get(Arrived(view, send), k) == Get(view, k)
  {
    hide Apply, BigIntToBytes, Uint64ToBytes;
    var index, amount := (SequencerIndex(view) + 1) % TWO_64, Balance(view, send.token) + send.amount;
    var a, b := Uint64ToBytes(index), BigIntToBytes(amount);
    TwoPuts(view, SEQUENCER_KEY, a, BalanceKey(send.token), b, BalanceKey(token));
    TwoPuts(view, SEQUENCER_KEY, a, BalanceKey(send.token), b, SEQUENCER_KEY);
    TwoPuts(view, SEQUENCER_KEY, a, BalanceKey(send.token), b, k);
    assert BalanceKey(token)[0] == 3 && BalanceKey(send.token)[0] == 3 && SEQUENCER_KEY[0] == 7;
    assert BalanceKey(token)[1..] == token && BalanceKey(send.token)[1..] == send.token;
    BigIntRoundTrip(amount);
    Uint64RoundTrip(index);
  }

  lemma TwoPuts(view: State, k: Bytes, v: Bytes, l: Bytes, w: Bytes, j: Bytes)
    ensures Get(Apply(view, [Put(k, v), Put(l, w)]), j) ==
            if j == l then Some(w) else if j == k then Some(v) else Get(view, j)
  {
    var one, two := [Put(k, v)], [Put(k, v), Put(l, w)];
    assert one[..0] == [] && two[..1] == one;
    assert Apply(view, one) == ApplyEntry(view, Put(k, v));
    assert Apply(view, two) == ApplyEntry(Apply(view, one), Put(l, w));
  }

  /** A send passes its recipient's check. */
  predicate Passes(rules: Rules, d: Send) { rules.embedded(d.to) ==> rules.accepts(d) }

  /** The i-th send passes, and what is sent of its token up to it is there. */
  predicate Affordable(rules: Rules, view: State, ds: seq<Send>, i: nat)
    requires i < |ds|
  {
    Passes(rules, ds[i]) && Total(ds[..i + 1], ds[i].token) <= Balance(view, ds[i].token)
  }

  ghost predicate AllAffordable(rules: Rules, view: State, ds: seq<Send>, n: nat)
    requires n <= |ds|
  {
    forall i :: 0 <= i < n ==> Affordable(rules, view, ds, i)
  }

  /** The i-th send is the first that is not. */
  ghost predicate StopsAt(rules: Rules, view: State, ds: seq<Send>, i: nat) {
    i < |ds| && AllAffordable(rules, view, ds, i) && !Affordable(rules, view, ds, i)
  }

  /** Such a send crashes when it passes and is of the zero token; otherwise it is refused. */
  predicate Crashes(rules: Rules, d: Send) { Passes(rules, d) && d.token == ZERO_TOKEN }

  lemma {:induction false} AffordableBefore(rules: Rules, view: State, ds: seq<Send>, n: nat, i: nat)
    requires i < n <= |ds|
    ensures Affordable(rules, view, ds[..n], i) <==> Affordable(rules, view, ds, i)
  {
    assert ds[..n][..i + 1] == ds[..i + 1];
  }

  /** Each end of the sends exactly: all go through, or the first that does not crashes
      or is refused. */
  lemma {:induction false} BreaksExactly(rules: Rules, s: Layered, ds: seq<Send>)
    ensures ApplySends(rules, s, ds).Done? <==> AllAffordable(rules, View(s), ds, |ds|)
    ensures ApplySends(rules, s, ds) == Broken <==>
            exists i: nat :: StopsAt(rules, View(s), ds, i) && Crashes(rules, ds[i])
    ensures ApplySends(rules, s, ds) == Refused <==>
            exists i: nat :: StopsAt(rules, View(s), ds, i) && !Crashes(rules, ds[i])
  {
    hide View, Balance, Affordable, Crashes;
    if ds != [] {
      var n, view := |ds| - 1, View(s);
      var less := ds[..n];
      BreaksExactly(rules, s, less);
      forall i | 0 <= i < n ensures Affordable(rules, view, less, i) <==> Affordable(rules, view, ds, i) {
        AffordableBefore(rules, view, ds, n, i);
      }
      assert AllAffordable(rules, view, less, n) <==> AllAffordable(rules, view, ds, n);
      forall i | 0 <= i < n ensures StopsAt(rules, view, less, i) <==> StopsAt(rules, view, ds, i) {}
      if ApplySends(rules, s, less).Done? { LastSend(rules, s, ds); }
      assert StopsAt(rules, view, ds, n) <==> AllAffordable(rules, view, ds, n) && !Affordable(rules, view, ds, n);
    }
  }

  lemma {:induction false} LastSend(rules: Rules, s: Layered, ds: seq<Send>)
    requires ds != [] && ApplySends(rules, s, ds[..|ds| - 1]).Done?
    ensures var n, r := |ds| - 1, ApplySends(rules, s, ds);
            && (r.Done? <==> Affordable(rules, View(s), ds, n))
            && (r == Broken <==> !Affordable(rules, View(s), ds, n) && Crashes(rules, ds[n]))
  {
    hide View, Balance;
    var n := |ds| - 1;
    SendsDebit(rules, s, ds[..n], ds[n].token, []);
    assert ds[..n + 1] == ds;
  }

  /** The code returns on what it finds, and its sends go through. */
  ghost predicate Succeeds(rules: Rules, view: State, send: SendBlock, run: State -> Execution) {
    var v := Arrived(view, send);
    run(v).Returns? && AllAffordable(rules, Apply(v, run(v).writes), run(v).sends, |run(v).sends|)
  }

  /** It returns, and one of its sends crashes. */
  ghost predicate Overdraws(rules: Rules, view: State, send: SendBlock, run: State -> Execution) {
    var v := Arrived(view, send);
    && run(v).Returns?
    && exists i: nat :: StopsAt(rules, Apply(v, run(v).writes), run(v).sends, i) && Crashes(rules, run(v).sends[i])
  }

  lemma {:induction false} ExecutedExactly(rules: Rules, s: Layered, send: SendBlock, run: State -> Execution)
    ensures var ran := Execute(rules, run, SequencerPopFront(s), send);
            && (ran.applied.Done? <==> Succeeds(rules, View(s), send, run))
            && (ran.applied == Broken <==> Overdraws(rules, View(s), send, run))
            && (ran.applied.Done? ==> ran.sends == run(Arrived(View(s), send)).sends)
  {
    hide View, Write, SequencerPopFront, AddBalance, ApplySends, AllAffordable, StopsAt, Crashes, Arrived, Apply;
    var funded := AddBalance(SequencerPopFront(s), send.token, send.amount);
    ArrivedIsFunded(s, send);
    match run(View(funded))
    case Fails(_) =>
    case Returns(writes, sends) =>
      WriteApplies(funded, writes);
      BreaksExactly(rules, Write(funded, writes), sends);
  }

  /** Each outcome exactly: success, a failure that is refunded, one that cannot be, and
      a crash, when there is no such method or a send of the code crashes. */
  lemma {:induction false} GeneratedExactly(rules: Rules, s: Layered, send: SendBlock, lookup: Lookup)
    ensures var o, found := Received(rules, s, Some(send), lookup).outcome, lookup.Found?;
            var done, broken := found && Succeeds(rules, View(s), send, lookup.run),
                                found && Overdraws(rules, View(s), send, lookup.run);
            && (o.Accepted? && o.receive.status == SUCCESS <==> done)
            && (o.Accepted? && o.receive.status == FAIL <==> found && !done && !broken && Refundable(rules, send))
            && (o == Rejected <==> found && !done && !broken && !Refundable(rules, send))
            && (o == Crash <==> !found || broken)
    ensures Received(rules, s, None, lookup).outcome == Rejected
  {
    hide View, Write, Balance, SequencerPopFront, Execute, Refunded, Succeeds, Overdraws, Number, Changes;
    RefundRestores(rules, SequencerPopFront(s), send, [], []);
    if lookup.Found? { ExecutedExactly(rules, s, send, lookup.run); }
  }

  /** What the account holds after a success: what the code wrote on what it found, less
      what it sent. Where it does not write a balance, the balance is as before, plus
      what was received, less what was sent; the sequencer is one further. */
  lemma {:induction false} SuccessReads(rules: Rules, s: Layered, send: SendBlock, run: State -> Execution,
          token: Bytes, k: Bytes)
    requires Succeeds(rules, View(s), send, run)
    ensures var r, e := Received(rules, s, Some(send), Found(run)), run(Arrived(View(s), send));
            && r.db.Some?
            && var after := View(r.db.value);
            && (!IsBalanceKey(k) ==> Get(after, k) == Get(Apply(Arrived(View(s), send), e.writes), k))
            && Balance(after, token) + Total(e.sends, token) == Balance(Apply(Arrived(View(s), send), e.writes), token)
            && (BalanceKey(token) !in Touched(e.writes) ==>
                  Balance(after, token) + Total(e.sends, token) ==
                  Balance(View(s), token) + if token == send.token then send.amount else 0)
            && (SEQUENCER_KEY !in Touched(e.writes) ==>
                  SequencerIndex(after) == (SequencerIndex(View(s)) + 1) % TWO_64)
            && (!IsBalanceKey(k) && k != SEQUENCER_KEY && k !in Touched(e.writes) ==> Get(after, k) == Get(View(s), k))
  {
    hide View, Write, Balance, SequencerPopFront, Finalized, SetBalance, Succeeds, Arrived, Apply, ApplySends,
         AddBalance;
    var funded := AddBalance(SequencerPopFront(s), send.token, send.amount);
    ExecutedExactly(rules, s, send, run);
    ArrivedIsFunded(s, send);
    var v := Arrived(View(s), send);
    var e := run(v);
    var written := Write(funded, e.writes);
    WriteApplies(funded, e.writes);
    SendsDebit(rules, written, e.sends, token, k);
    SendsDebit(rules, written, e.sends, token, SEQUENCER_KEY);
    ArrivedReads(View(s), send, token, k);
    if BalanceKey(token) !in Touched(e.writes) { ApplyUntouched(v, e.writes, BalanceKey(token)); }
    if SEQUENCER_KEY !in Touched(e.writes) { ApplyUntouched(v, e.writes, SEQUENCER_KEY); }
    if k !in Touched(e.writes) { ApplyUntouched(v, e.writes, k); }
    assert BalanceKey(send.token)[0] == 3;
    SameBalance(Apply(v, e.writes), v, token);
    SameSequencer(View(ApplySends(rules, written, e.sends).db), Apply(v, e.writes));
    SameSequencer(Apply(v, e.writes), v);
  }

  lemma SameBalance(a: State, b: State, token: Bytes)
    ensures Get(a, BalanceKey(token)) == Get(b, BalanceKey(token)) ==> Balance(a, token) == Balance(b, token)
  {
  }

  lemma SameSequencer(a: State, b: State)
    ensures Get(a, SEQUENCER_KEY) == Get(b, SEQUENCER_KEY) ==> SequencerIndex(a) == SequencerIndex(b)
  {
  }

  lemma {:induction false} SendsStayEncoded(rules: Rules, s: Layered, ds: seq<Send>)
    requires ApplySends(rules, s, ds).Done?
    ensures var t := ApplySends(rules, s, ds).db; t.base == s.base && (Encoded(s.top) ==> Encoded(t.top))
  {
    hide View, Balance, RawApply, Encoded;
    if ds != [] {
      var n := |ds| - 1;
      SendsStayEncoded(rules, s, ds[..n]);
      var t, d := ApplySends(rules, s, ds[..n]).db, ds[n];
      if Encoded(t.top) {
        WritesEncode(t.top, [Put(BalanceKey(d.token), BigIntToBytes(Balance(View(t), d.token) - d.amount))]);
      }
    }
  }

  /** The block's changes are what was done to the account: applied to what was below
      they give what is there after. */
  lemma {:induction false} ChangesAreDone(rules: Rules, s: Layered, send: SendBlock, run: State -> Execution)
    requires Encoded(s.top)
    ensures var r := Received(rules, s, Some(send), Found(run));
            r.outcome.Accepted? ==>
              && r.db.Some? && r.db.value.base == s.base
              && RawApply(s.base, r.outcome.receive.changes) == r.db.value.base + r.db.value.top
  {
    hide View, Balance, RawApply, Encoded, ApplySends, Number, Changes;
    var popped := SequencerPopFront(s);
    WritesEncode(s.top, [Put(SEQUENCER_KEY, Uint64ToBytes((SequencerIndex(View(s)) + 1) % TWO_64))]);
    var amount := Balance(View(popped), send.token) + send.amount;
    WritesEncode(popped.top, [Put(BalanceKey(send.token), BigIntToBytes(amount))]);
    var funded := AddBalance(popped, send.token, send.amount);
    var ran := run(View(funded));
    if ran.Returns? {
      WritesEncode(funded.top, ran.writes);
      var written := Write(funded, ran.writes);
      if ApplySends(rules, written, ran.sends).Done? { SendsStayEncoded(rules, written, ran.sends); }
    }
    var left := Balance(View(funded), send.token) - send.amount;
    if left >= 0 { WritesEncode(funded.top, [Put(BalanceKey(send.token), BigIntToBytes(left))]); }
    var r := Received(rules, s, Some(send), Found(run));
    if r.outcome.Accepted? { ChangesApply(r.db.value.base, r.db.value.top); }
  }

  /** On success the blocks sit on the account's frontier, provided the code writes
      none of the chain's own keys. */
  lemma {:induction false} SuccessLinks(rules: Rules, s: Layered, send: SendBlock, run: State -> Execution)
    requires Succeeds(rules, View(s), send, run) && FRONTIER_KEY !in Touched(run(Arrived(View(s), send)).writes)
    requires FrontierIdentifier(View(s)).height + |run(Arrived(View(s), send)).sends| + 1 < TWO_64
    ensures var ds, r := run(Arrived(View(s), send)).sends, Received(rules, s, Some(send), Found(run));
            var frontier := FrontierIdentifier(View(s));
            && r.outcome.Accepted? && r.outcome.receive.status == SUCCESS && |r.outcome.receive.descendants| == |ds|
            && r.outcome.receive.height == frontier.height + |ds| + 1
            && r.outcome.receive.previousHash == Head(frontier, r.outcome.receive.descendants).hash
            && forall i :: 0 <= i < |ds| ==> Sits(rules, frontier, r.outcome.receive.descendants, ds, i)
  {
    hide View, Write, Balance, SequencerPopFront, Finalized, Sits, SetBalance, Execute, Arrived, Succeeds, Apply;
    ExecutedExactly(rules, s, send, run);
    SuccessReads(rules, s, send, run, [], FRONTIER_KEY);
    assert FRONTIER_KEY[0] == 0 && SEQUENCER_KEY[0] == 7;
    var ran := Execute(rules, run, SequencerPopFront(s), send);
    FinalizedLinks(rules, ran.applied.db, ran.sends, SUCCESS);
  }

  /** A failed receive leaves every balance and key as it was, advances the sequencer
      by one, and sends back exactly what was received. */
  lemma {:induction false} FailureOnlyRefunds(rules: Rules, s: Layered, send: SendBlock, run: State -> Execution,
          token: Bytes, k: Bytes)
    requires !Succeeds(rules, View(s), send, run) && !Overdraws(rules, View(s), send, run) && Refundable(rules, send)
    requires FrontierIdentifier(View(s)).height + 2 < TWO_64
    ensures var r := Received(rules, s, Some(send), Found(run));
            && r.outcome.Accepted? && r.outcome.receive.status == FAIL && r.db.Some?
            && Balance(View(r.db.value), token) == Balance(View(s), token)
            && SequencerIndex(View(r.db.value)) == (SequencerIndex(View(s)) + 1) % TWO_64
            && (k != SEQUENCER_KEY && k != BalanceKey(send.token) ==> Get(View(r.db.value), k) == Get(View(s), k))
    ensures var frontier := FrontierIdentifier(View(s));
            var receive := Received(rules, s, Some(send), Found(run)).outcome.receive;
            var refunds := if send.amount > 0 then [Send(send.sender, send.token, send.amount, [])] else [];
            && |receive.descendants| == |refunds| && receive.height == frontier.height + |refunds| + 1
            && receive.previousHash == Head(frontier, receive.descendants).hash
            && forall i :: 0 <= i < |refunds| ==> Sits(rules, frontier, receive.descendants, refunds, i)
  {
    hide View, Write, Balance, SequencerPopFront, Execute, Refunded, Finalized, Sits, Succeeds, Overdraws;
    ExecutedExactly(rules, s, send, run);
    var popped := SequencerPopFront(s);
    PoppedReads(s, token, k);
    RefundRestores(rules, popped, send, token, k);
    RefundRestores(rules, popped, send, token, SEQUENCER_KEY);
    RefundRestores(rules, popped, send, token, FRONTIER_KEY);
    assert BalanceKey(send.token)[0] == 3 && SEQUENCER_KEY[0] == 7 && FRONTIER_KEY[0] == 0;
    var db := Refunded(rules, popped, send).db;
    assert FrontierIdentifier(View(db)) == FrontierIdentifier(View(s));
    FinalizedLinks(rules, db, RefundsOf(send), FAIL);
  }

  /** Contract code that sends one unit of a zero token it does not have crashes the node. */
  lemma {:induction false} ZeroTokenCrashes(rules: Rules, s: Layered, send: SendBlock, to: Bytes)
    requires Balance(View(s), ZERO_TOKEN) == 0 && send.token != ZERO_TOKEN && !rules.embedded(to)
    ensures var run := (view: State) => Returns([], [Send(to, ZERO_TOKEN, 1, [])]);
            Received(rules, s, Some(send), Found(run)).outcome == Crash
  {
    hide View, SequencerPopFront, SetBalance, Finalized, Refunded;
    var popped := SequencerPopFront(s);
    var funded := AddBalance(popped, send.token, send.amount);
    PoppedReads(s, ZERO_TOKEN, []);
    SetBalanceReads(popped, send.token, Balance(View(popped), send.token) + send.amount, ZERO_TOKEN);
    var ds := [Send(to, ZERO_TOKEN, 1, [])];
    assert ds[..0] == [] && Write(funded, []) == funded;
    assert ApplySends(rules, funded, ds) == Broken;
  }
}
